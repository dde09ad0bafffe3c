/**
  The editor around one arpeggiator (arp_widget.py): the chord shortcuts, which read the active
  variant offsets and rewrite the first three variant slots, the mode buttons, and the block
  that labels its arpeggio with a marker.
 */
module ArpWidget {
  import opened Opt
  import opened Midi
  import opened Decimal
  import opened Arp

  // ---------------------------------------------------------------------------------------
  // Chord classification
  // ---------------------------------------------------------------------------------------

  /** Offsets that count towards the pentatonic shortcut. */
  const PentaSet: set<int> := {2, 4, 7, 9, 12, -3, -5, -7}

  /**
    What reading the first three slots needs: an activity flag per slot, and an offset for
    every active one (an inactive slot's offset is never read).
   */
  predicate SlotsReadable(variants: seq<int>, active: seq<bool>) {
    |active| >= 3 && forall i :: 0 <= i < 3 && active[i] ==> i < |variants|
  }

  /** The chord shortcuts read the first three slots and write the first three chord flags. */
  predicate ChordReady(s: Config) {
    SlotsReadable(s.variants, s.variantsActive) && |s.chordsActive| >= 3
  }

  /** The distinct offsets of the active slots among the first three. */
  function ActiveOffsets(variants: seq<int>, active: seq<bool>): set<int>
    requires SlotsReadable(variants, active)
  {
    (if active[0] then {variants[0]} else {})
      + (if active[1] then {variants[1]} else {})
      + (if active[2] then {variants[2]} else {})
  }

  /** Which chord buttons light up. */
  datatype Chords = Chords(major: bool, minor: bool, penta: bool)

  /** At most one button is lit. */
  predicate AtMostOne(c: Chords) {
    !(c.major && c.minor) && !(c.major && c.penta) && !(c.minor && c.penta)
  }

  /**
    The classification of `update_chord_button_states`: pentatonic wins when three offsets lie
    in the pentatonic set; major needs 4 and 7, minor 3 and 7, and each yields to the ones before.
   */
  function Classify(variants: seq<int>, active: seq<bool>): (c: Chords)
    requires SlotsReadable(variants, active)
    ensures AtMostOne(c)
    ensures c.major ==> 4 in ActiveOffsets(variants, active) && 7 in ActiveOffsets(variants, active)
    ensures c.minor ==> 3 in ActiveOffsets(variants, active) && 7 in ActiveOffsets(variants, active)
  {
    var offsets := ActiveOffsets(variants, active);
    var penta := |offsets * PentaSet| >= 3;
    var major := !penta && 4 in offsets && 7 in offsets;
    var minor := !penta && !major && 3 in offsets && 7 in offsets;
    Chords(major, minor, penta)
  }

  /** An offset is among the active offsets exactly when one of the first three active slots holds it. */
  lemma ActiveOffsetsIff(variants: seq<int>, active: seq<bool>, x: int)
    requires SlotsReadable(variants, active)
    ensures x in ActiveOffsets(variants, active) <==>
      exists i :: 0 <= i < 3 && active[i] && variants[i] == x
  {
    if x in ActiveOffsets(variants, active) {
      if active[0] && variants[0] == x {
        assert active[0] && variants[0] == x;
      } else if active[1] && variants[1] == x {
        assert active[1] && variants[1] == x;
      } else {
        assert active[2] && variants[2] == x;
      }
    }
  }

  /**
    Major is lit exactly when pentatonic is not and the active slots hold 4 and 7; minor exactly
    when neither pentatonic nor major is, and they hold 3 and 7 (so 4 is missing).
   */
  lemma MajorMinorIff(variants: seq<int>, active: seq<bool>)
    requires SlotsReadable(variants, active)
    ensures var c, offsets := Classify(variants, active), ActiveOffsets(variants, active);
      && (c.major <==> !c.penta && 4 in offsets && 7 in offsets)
      && (c.minor <==> !c.penta && !c.major && 3 in offsets && 7 in offsets)
      && (c.minor <==> !c.penta && 4 !in offsets && 3 in offsets && 7 in offsets)
  {
  }

  /** The chord flags show the classification of the variants. */
  predicate ChordsShown(s: Config)
    requires ChordReady(s)
  {
    var c := Classify(s.variants, s.variantsActive);
    s.chordsActive[0] == c.major && s.chordsActive[1] == c.minor && s.chordsActive[2] == c.penta
  }

  /** `update_chord_button_states`: re-derive the three chord flags from the variants. */
  function Rederive(s: Config): (r: Config)
    requires ChordReady(s)
    ensures ChordReady(r) && ChordsShown(r)
    ensures r == s.(chordsActive := r.chordsActive)
    ensures |r.chordsActive| == |s.chordsActive|
    ensures forall i :: 3 <= i < |s.chordsActive| ==> r.chordsActive[i] == s.chordsActive[i]
  {
    var c := Classify(s.variants, s.variantsActive);
    s.(chordsActive := s.chordsActive[0 := c.major][1 := c.minor][2 := c.penta])
  }

  /** Re-deriving twice is re-deriving once: the flags are not an input of the classification. */
  lemma RederiveIdempotent(s: Config)
    requires ChordReady(s)
    ensures Rederive(Rederive(s)) == Rederive(s)
  {
    RederiveShown(Rederive(s));
  }

  /** A configuration whose flags already show the classification is left as it is. */
  lemma RederiveShown(s: Config)
    requires ChordReady(s) && ChordsShown(s)
    ensures Rederive(s) == s
  {
    assert Rederive(s).chordsActive == s.chordsActive;
  }

  lemma SubsetCard(a: set<int>, b: set<int>)
    requires a <= b
    ensures |a| <= |b|
  {
    assert b == a + (b - a);
    assert a * (b - a) == {};
  }

  /**
    Pentatonic is lit exactly when all three slots are active, hold three different offsets,
    and every one of them lies in the pentatonic set: three slots can give three distinct
    offsets only that way.
   */
  lemma PentaIff(variants: seq<int>, active: seq<bool>)
    requires SlotsReadable(variants, active)
    ensures Classify(variants, active).penta <==>
      (active[0] && active[1] && active[2]
       && variants[0] != variants[1] && variants[0] != variants[2] && variants[1] != variants[2]
       && variants[0] in PentaSet && variants[1] in PentaSet && variants[2] in PentaSet)
  {
    var offsets := ActiveOffsets(variants, active);
    var hits := offsets * PentaSet;
    if active[0] && active[1] && active[2] {
      var v0, v1, v2 := variants[0], variants[1], variants[2];
      assert offsets == {v0, v1, v2};
      if v0 != v1 && v0 != v2 && v1 != v2 && v0 in PentaSet && v1 in PentaSet && v2 in PentaSet {
        assert hits == {v0, v1, v2};
        assert |{v0, v1, v2}| == 3;
      } else {
        var pair: set<int> :=
          if v0 == v1 || v0 == v2 || v0 !in PentaSet then {v1, v2}
          else if v1 == v2 || v1 !in PentaSet then {v0, v2}
          else {v0, v1};
        assert hits <= pair;
        SubsetCard(hits, pair);
      }
    } else {
      var pair: set<int> :=
        if !active[0] then (if active[1] then {variants[1]} else {}) + (if active[2] then {variants[2]} else {})
        else if !active[1] then {variants[0]} + (if active[2] then {variants[2]} else {})
        else {variants[0], variants[1]};
      assert hits <= pair;
      SubsetCard(hits, pair);
    }
  }

  // ---------------------------------------------------------------------------------------
  // Chord buttons
  // ---------------------------------------------------------------------------------------

  /** The patterns the chord buttons write: major and minor triads, a pentatonic fragment. */
  function Triad(index: nat): (t: seq<int>)
    requires index < 3
    ensures 2 <= |t| <= 3
  {
    if index == 0 then [4, 7] else if index == 1 then [3, 7] else [2, 4, 7]
  }

  /** The offset a pattern writes into slot `i`: its entry, 0 past its end. */
  function SlotValue(t: seq<int>, i: nat): int {
    if i < |t| then t[i] else 0
  }

  /** The chord flags with only `index` lit among the first three. */
  function LitFlags(flags: seq<bool>, index: nat): (r: seq<bool>)
    requires |flags| >= 3
    ensures |r| == |flags|
    ensures forall i :: 0 <= i < |r| ==> r[i] == if i < 3 then i == index else flags[i]
  {
    flags[0 := index == 0][1 := index == 1][2 := index == 2]
  }

  /** The activity flags a pattern writes: slot `i` is active iff the pattern reaches it. */
  function PatternActive(active: seq<bool>, t: seq<int>): (r: seq<bool>)
    requires |active| >= 3
    ensures |r| == |active|
    ensures forall i :: 0 <= i < |r| ==> r[i] == if i < 3 then i < |t| else active[i]
  {
    active[0 := 0 < |t|][1 := 1 < |t|][2 := 2 < |t|]
  }

  /** The offsets a pattern writes: its entries, then zeros. */
  function PatternValues(values: seq<int>, t: seq<int>): (r: seq<int>)
    requires |values| >= 3
    ensures |r| == |values|
    ensures forall i :: 0 <= i < |r| ==> r[i] == if i < 3 then SlotValue(t, i) else values[i]
  {
    values[0 := SlotValue(t, 0)][1 := SlotValue(t, 1)][2 := SlotValue(t, 2)]
  }

  /** What `handle_chord_button_pressed` needs: three entries in each of the three lists. */
  predicate PressReady(s: Config) {
    |s.variants| >= 3 && |s.variantsActive| >= 3 && |s.chordsActive| >= 3
  }

  /**
    The writes of `handle_chord_button_pressed`, before the closing re-derivation: on, the
    chord's flag alone and its pattern; off, the chord's flag cleared and an empty pattern.
   */
  function ChordApplied(s: Config, index: nat, checked: bool): (r: Config)
    requires index < 3 && PressReady(s)
    ensures PressReady(r) && ChordReady(r)
  {
    if checked then
      s.(chordsActive := LitFlags(s.chordsActive, index),
         variantsActive := PatternActive(s.variantsActive, Triad(index)),
         variants := PatternValues(s.variants, Triad(index)))
    else
      s.(chordsActive := s.chordsActive[index := false],
         variantsActive := PatternActive(s.variantsActive, []),
         variants := PatternValues(s.variants, []))
  }

  /** `handle_chord_button_pressed(index, checked)` as a whole. */
  function PressChord(s: Config, index: nat, checked: bool): (r: Config)
    requires index < 3 && PressReady(s)
    ensures PressReady(r) && ChordReady(r) && ChordsShown(r)
  {
    Rederive(ChordApplied(s, index, checked))
  }

  /** The offsets a pattern leaves active are the pattern's entries. */
  lemma PatternOffsets(variants: seq<int>, active: seq<bool>, t: seq<int>)
    requires |variants| >= 3 && |active| >= 3 && |t| <= 3
    ensures SlotsReadable(PatternValues(variants, t), PatternActive(active, t))
    ensures ActiveOffsets(PatternValues(variants, t), PatternActive(active, t)) == set i | 0 <= i < |t| :: t[i]
  {
    var vs, fs := PatternValues(variants, t), PatternActive(active, t);
    var offsets := ActiveOffsets(vs, fs);
    forall x | x in offsets
      ensures exists i :: 0 <= i < |t| && t[i] == x
    {
      if fs[0] && x == vs[0] {
        assert t[0] == x;
      } else if fs[1] && x == vs[1] {
        assert t[1] == x;
      } else {
        assert t[2] == x;
      }
    }
    forall i | 0 <= i < |t|
      ensures t[i] in offsets
    {
      assert fs[i] && vs[i] == t[i];
    }
  }

  /** Each chord's pattern, written into the three slots, is classified as that chord. */
  lemma TriadClassified(variants: seq<int>, active: seq<bool>, index: nat)
    requires |variants| >= 3 && |active| >= 3 && index < 3
    ensures var t := Triad(index);
      Classify(PatternValues(variants, t), PatternActive(active, t)) == Chords(index == 0, index == 1, index == 2)
  {
    var t := Triad(index);
    PatternOffsets(variants, active, t);
    var offsets := ActiveOffsets(PatternValues(variants, t), PatternActive(active, t));
    if index == 0 {
      assert offsets == {4, 7} by {
        assert t[0] == 4 && t[1] == 7;
      }
      assert offsets * PentaSet == {4, 7};
    } else if index == 1 {
      assert offsets == {3, 7} by {
        assert t[0] == 3 && t[1] == 7;
      }
      assert offsets * PentaSet == {7};
    } else {
      assert offsets == {2, 4, 7} by {
        assert t[0] == 2 && t[1] == 4 && t[2] == 7;
      }
      assert offsets * PentaSet == {2, 4, 7};
    }
  }

  /**
    Pressing chord `index` on writes its pattern into the three slots, and the re-derivation
    then recognises exactly that chord: its flag alone is lit.
   */
  lemma ChordPressedOn(s: Config, index: nat)
    requires index < 3 && PressReady(s)
    ensures var r := PressChord(s, index, true);
      && Classify(r.variants, r.variantsActive) == Chords(index == 0, index == 1, index == 2)
      && (forall i :: 0 <= i < 3 ==> r.chordsActive[i] == (i == index))
      && (forall i :: 0 <= i < 3 ==>
            r.variantsActive[i] == (i < |Triad(index)|) && r.variants[i] == SlotValue(Triad(index), i))
  {
    TriadClassified(s.variants, s.variantsActive, index);
  }

  /** Pressing a chord off clears the three slots, and no chord stays lit. */
  lemma ChordPressedOff(s: Config, index: nat)
    requires index < 3 && PressReady(s)
    ensures var r := PressChord(s, index, false);
      forall i :: 0 <= i < 3 ==> !r.chordsActive[i] && !r.variantsActive[i] && r.variants[i] == 0
  {
    PatternOffsets(s.variants, s.variantsActive, []);
  }

  /** A chord press touches only the first three entries of the three lists. */
  lemma ChordPressFrame(s: Config, index: nat, checked: bool)
    requires index < 3 && PressReady(s)
    ensures var r := PressChord(s, index, checked);
      && r == s.(chordsActive := r.chordsActive, variantsActive := r.variantsActive, variants := r.variants)
      && |r.chordsActive| == |s.chordsActive| && |r.variantsActive| == |s.variantsActive|
      && |r.variants| == |s.variants|
      && (forall i :: 3 <= i < |s.chordsActive| ==> r.chordsActive[i] == s.chordsActive[i])
      && (forall i :: 3 <= i < |s.variantsActive| ==> r.variantsActive[i] == s.variantsActive[i])
      && (forall i :: 3 <= i < |s.variants| ==> r.variants[i] == s.variants[i])
  {
  }

  // ---------------------------------------------------------------------------------------
  // Loading variants
  // ---------------------------------------------------------------------------------------

  /** `set_variants(active, values)`: malformed input is ignored, else both lists are replaced. */
  function SetVariantsSpec(s: Config, active: seq<bool>, values: seq<int>): (r: Config)
    requires |s.chordsActive| >= 3
    ensures |active| != 3 || |values| != 3 ==> r == s
    ensures |active| == 3 && |values| == 3 ==>
      && r == s.(variantsActive := active, variants := values, chordsActive := r.chordsActive)
      && ChordReady(r) && ChordsShown(r)
  {
    if |active| != 3 || |values| != 3 then s
    else Rederive(s.(variantsActive := active, variants := values))
  }

  /** Loading the variants a configuration already holds changes at most its chord flags. */
  lemma SetVariantsSame(s: Config)
    requires ChordReady(s) && |s.variants| == 3 && |s.variantsActive| == 3
    ensures SetVariantsSpec(s, s.variantsActive, s.variants) == Rederive(s)
  {
    assert s.(variantsActive := s.variantsActive, variants := s.variants) == s;
  }

  // ---------------------------------------------------------------------------------------
  // Mode buttons
  // ---------------------------------------------------------------------------------------

  /** `on_mode_button_clicked`: clicking the current mode clears it, any other click selects. */
  function ToggleMode(current: Option<Mode>, clicked: Option<Mode>): (r: Option<Mode>)
    ensures r == None || r == clicked
    ensures r == clicked <==> current != clicked || clicked == None
  {
    if current == clicked then None else clicked
  }

  /** Two clicks on the same button: back where it started if that was the button's mode, else None. */
  lemma ToggleModeTwice(current: Option<Mode>, clicked: Option<Mode>)
    ensures ToggleMode(ToggleMode(current, clicked), clicked) == if current == clicked then clicked else None
  {
  }

  // ---------------------------------------------------------------------------------------
  // The block
  // ---------------------------------------------------------------------------------------

  /** The settings a new block gets when nothing else is said. */
  const DefaultConfig: Config :=
    Config(1.0, 0.2, 60, false, None, false, false, false, false, 64,
           [false, false, false], [false, false, false], [0, 0, 0])

  /** The rates the rate slider offers (`rate_values`). */
  const RateValues: seq<real> := [0.125, 0.25, 0.5, 1.0, 2.0, 4.0, 8.0, 16.0]

  /**
    What the editor's constructor reads of its settings without raising: a rate the slider
    offers (`rate_values.index(rate)`), and three entries in each of the offset, slot-flag and
    chord-flag lists.
   */
  predicate Buildable(s: Config) {
    s.rate in RateValues && |s.variants| >= 3 && |s.variantsActive| >= 3 && |s.chordsActive| >= 3
  }

  /** A buildable block can be read by the chord shortcuts, at a positive rate. */
  lemma BuildableReady(s: Config)
    requires Buildable(s)
    ensures ChordReady(s) && s.rate > 0.0
  {
  }

  /** The marker text of a block: "<row id>#<block id>". */
  function BlockLabel(rowId: int, blockId: int): string {
    IntToString(rowId) + "#" + IntToString(blockId)
  }

  lemma NoHash(v: int)
    ensures forall i :: 0 <= i < |IntToString(v)| ==> IntToString(v)[i] != '#'
  {
  }

  /** The position of the first '#' of a text (its length when there is none). */
  function FirstHash(text: string): nat {
    if text == [] || text[0] == '#' then 0 else 1 + FirstHash(text[1..])
  }

  lemma {:induction false} FirstHashAfter(x: string, y: string)
    requires forall i :: 0 <= i < |x| ==> x[i] != '#'
    ensures FirstHash(x + "#" + y) == |x|
    decreases |x|
  {
    if x != [] {
      assert (x + "#" + y)[1..] == x[1..] + "#" + y;
      FirstHashAfter(x[1..], y);
    }
  }

  /** Different (row, block) pairs get different markers. */
  lemma BlockLabelInjective(r1: int, b1: int, r2: int, b2: int)
    requires BlockLabel(r1, b1) == BlockLabel(r2, b2)
    ensures r1 == r2 && b1 == b2
  {
    var x1, x2 := IntToString(r1), IntToString(r2);
    var y1, y2 := IntToString(b1), IntToString(b2);
    var l := BlockLabel(r1, b1);
    NoHash(r1);
    NoHash(r2);
    FirstHashAfter(x1, y1);
    FirstHashAfter(x2, y2);
    assert x1 == l[..|x1|] == x2;
    assert y1 == l[|x1| + 1..] == y2;
    IntToStringInjective(r1, r2);
    IntToStringInjective(b1, b2);
  }

  /** The block id can be read back from the text after the row's prefix and the '#'. */
  lemma BlockOfLabel(rowId: int, blockId: int)
    ensures ParseInt(BlockLabel(rowId, blockId)[|IntToString(rowId)| + 1..]) == Some(blockId)
  {
    var x := IntToString(rowId);
    assert BlockLabel(rowId, blockId)[|x| + 1..] == IntToString(blockId);
    IntToStringRoundTrip(blockId);
  }

  /** The track of a block: its marker, then the arpeggio. */
  function BlockTrack(rowId: int, blockId: int, s: Config, bpm: real, instrument: int, draws: seq<nat>): seq<Message>
    requires Playable(s, bpm)
  {
    [Marker(BlockLabel(rowId, blockId), 0.0)] + ArpeggioTrack(s, bpm, instrument, draws)
  }

  /** A block's track holds exactly one marker, in front, and the arpeggio unchanged behind it. */
  lemma BlockTrackShape(rowId: int, blockId: int, s: Config, bpm: real, instrument: int, draws: seq<nat>)
    requires Playable(s, bpm)
    ensures var t := BlockTrack(rowId, blockId, s, bpm, instrument, draws);
      && |t| == |ArpeggioTrack(s, bpm, instrument, draws)| + 1
      && t[0] == Marker(BlockLabel(rowId, blockId), 0.0)
      && t[1..] == ArpeggioTrack(s, bpm, instrument, draws)
      && forall i :: 0 < i < |t| ==> !t[i].Marker?
  {
    ArpeggioHasNoMarker(s, bpm, instrument, draws);
    var t := BlockTrack(rowId, blockId, s, bpm, instrument, draws);
    assert t[1..] == ArpeggioTrack(s, bpm, instrument, draws);
  }

  /** `get_play_time`: (1 / rate) * (60 / bpm), one full note at the block's rate. */
  function PlayTime(s: Config, bpm: real): (t: real)
    requires bpm > 0.0 && s.rate > 0.0
    ensures t == FullNoteTime(s, bpm) && t > 0.0
  {
    var inverse, beat := 1.0 / s.rate, 60.0 / bpm;
    assert inverse > 0.0 && beat > 0.0;
    inverse * beat
  }

  /**
    The block's track lasts exactly its play time, with no negative delta: the marker adds
    nothing and the arpeggio spans one full note.
   */
  lemma BlockTiming(rowId: int, blockId: int, s: Config, bpm: real, instrument: int, draws: seq<nat>)
    requires Playable(s, bpm) && 0.0 <= s.noteLength <= 1.0
    ensures NonNegativeDeltas(BlockTrack(rowId, blockId, s, bpm, instrument, draws))
    ensures DeltaSum(BlockTrack(rowId, blockId, s, bpm, instrument, draws)) == PlayTime(s, bpm)
  {
    var marker := [Marker(BlockLabel(rowId, blockId), 0.0)];
    var arp := ArpeggioTrack(s, bpm, instrument, draws);
    ArpeggioTiming(s, bpm, instrument, draws);
    DeltaSumAppend(marker, arp);
    assert DeltaSum(marker) == 0.0 by {
      assert marker[..0] == [];
    }
    var t := BlockTrack(rowId, blockId, s, bpm, instrument, draws);
    assert forall i :: 0 < i < |t| ==> t[i] == arp[i - 1];
  }

  // ---------------------------------------------------------------------------------------
  // The widgets
  // ---------------------------------------------------------------------------------------

  /** The editor of one arpeggiator; only its arpeggiator is state of the model. */
  class ArpeggiatorWidget {
    const arp: Arpeggiator

    constructor (s: Config)
      requires Buildable(s)
      ensures fresh(arp) && arp.GetConfig() == s
    {
      arp := new Arpeggiator(s);
    }

    /** `update_chord_button_states`: classify, then write the three chord flags. */
    method UpdateChordButtonStates()
      requires ChordReady(arp.GetConfig())
      modifies arp
      ensures arp.GetConfig() == Rederive(old(arp.GetConfig()))
    {
      var c := Classify(arp.variants, arp.variantsActive);
      arp.chordsActive := arp.chordsActive[0 := c.major];
      arp.chordsActive := arp.chordsActive[1 := c.minor];
      arp.chordsActive := arp.chordsActive[2 := c.penta];
    }

    /** `handle_chord_button_pressed(index, checked)`: rewrite the slots, then re-derive. */
    method HandleChordButtonPressed(index: nat, checked: bool)
      requires index < 3 && PressReady(arp.GetConfig())
      modifies arp
      ensures arp.GetConfig() == PressChord(old(arp.GetConfig()), index, checked)
    {
      if checked {
        LightChord(index);
        WritePattern(Triad(index));
      } else {
        WritePattern([]);
        arp.chordsActive := arp.chordsActive[index := false];
      }
      UpdateChordButtonStates();
    }

    /** The first loop of a press on: light the chord's button and darken the others. */
    method LightChord(index: nat)
      requires |arp.chordsActive| >= 3
      modifies arp
      ensures arp.GetConfig() == old(arp.GetConfig()).(chordsActive := LitFlags(old(arp.chordsActive), index))
    {
      ghost var flags := arp.chordsActive;
      var i := 0;
      while i < 3
        invariant 0 <= i <= 3
        invariant arp.GetConfig() == old(arp.GetConfig()).(chordsActive := arp.chordsActive)
        invariant |arp.chordsActive| == |flags|
        invariant forall j :: 0 <= j < |flags| ==> arp.chordsActive[j] == if j < i then j == index else flags[j]
      {
        arp.chordsActive := arp.chordsActive[i := i == index];
        i := i + 1;
      }
      assert arp.chordsActive == LitFlags(flags, index);
    }

    /** The loop writing a pattern (empty when a chord is pressed off) into the three slots. */
    method WritePattern(intervals: seq<int>)
      requires |arp.variants| >= 3 && |arp.variantsActive| >= 3
      modifies arp
      ensures arp.GetConfig() == old(arp.GetConfig()).(variantsActive := PatternActive(old(arp.variantsActive), intervals),
                                                       variants := PatternValues(old(arp.variants), intervals))
    {
      ghost var active, values := arp.variantsActive, arp.variants;
      var i := 0;
      while i < 3
        invariant 0 <= i <= 3
        invariant arp.GetConfig() == old(arp.GetConfig()).(variantsActive := arp.variantsActive, variants := arp.variants)
        invariant |arp.variantsActive| == |active| && |arp.variants| == |values|
        invariant forall j :: 0 <= j < |active| ==>
          arp.variantsActive[j] == if j < i then j < |intervals| else active[j]
        invariant forall j :: 0 <= j < |values| ==>
          arp.variants[j] == if j < i then SlotValue(intervals, j) else values[j]
      {
        var isActive := i < |intervals|;
        arp.variantsActive := arp.variantsActive[i := isActive];
        arp.variants := arp.variants[i := if isActive then intervals[i] else 0];
        i := i + 1;
      }
      assert arp.variantsActive == PatternActive(active, intervals);
      assert arp.variants == PatternValues(values, intervals);
    }

    /** `set_variants(active, values)`. */
    method SetVariants(active: seq<bool>, values: seq<int>)
      requires |arp.chordsActive| >= 3
      modifies arp
      ensures arp.GetConfig() == SetVariantsSpec(old(arp.GetConfig()), active, values)
    {
      if |active| != 3 || |values| != 3 {
        return;
      }
      arp.variantsActive := active;
      arp.variants := values;
      UpdateChordButtonStates();
    }

    /** `on_mode_button_clicked`, with the mode of the clicked button (None for another sender). */
    method OnModeButtonClicked(clicked: Option<Mode>)
      modifies arp
      ensures arp.GetConfig() == old(arp.GetConfig()).(mode := ToggleMode(old(arp.mode), clicked))
    {
      if arp.mode == clicked {
        arp.mode := None;
      } else {
        arp.mode := clicked;
      }
    }

    /** `change_arp_volume`: the arpeggiator takes the velocity of the block around it. */
    method ChangeArpVolume(parentVelocity: int)
      modifies arp
      ensures arp.GetConfig() == old(arp.GetConfig()).(velocity := parentVelocity)
    {
      arp.velocity := parentVelocity;
    }
  }

  /**
    One block of a row: an id (its position in the row), a velocity, a repetition count and
    the editor of its arpeggiator.
   */
  class ArpeggiatorBlockWidget {
    var id: int
    var velocity: int
    var repetitions: nat
    const arpWidget: ArpeggiatorWidget

    /** The block's arpeggiator settings (`get_config`). */
    function Settings(): Config
      reads arpWidget, arpWidget.arp
    {
      arpWidget.arp.GetConfig()
    }

    constructor (id: int, s: Config, repetitions: nat)
      requires Buildable(s)
      ensures this.id == id && velocity == s.velocity && this.repetitions == repetitions
      ensures fresh(arpWidget) && fresh(arpWidget.arp) && Settings() == s
    {
      this.id := id;
      velocity := s.velocity;
      this.repetitions := repetitions;
      arpWidget := new ArpeggiatorWidget(s);
    }

    /** `get_arpeggio(bpm, instrument)` of the block in row `rowId`: the marker, then the arpeggio. */
    method GetArpeggio(rowId: int, bpm: real, instrument: int, draws: seq<nat>)
      returns (track: seq<Message>, duration: real)
      requires Playable(Settings(), bpm)
      ensures track == BlockTrack(rowId, id, Settings(), bpm, instrument, draws)
      ensures duration == ArpeggioTime(Settings(), bpm, draws)
    {
      var notes;
      notes, duration := arpWidget.arp.GetArpeggio(bpm, instrument, draws);
      var text := IntToString(rowId) + "#" + IntToString(id);
      track := [Marker(text, 0.0)] + notes;
    }

    /** `get_play_time(bpm)`. */
    method GetPlayTime(bpm: real) returns (t: real)
      requires bpm > 0.0 && Settings().rate > 0.0
      ensures t == PlayTime(Settings(), bpm)
    {
      t := (1.0 / arpWidget.arp.rate) * (60.0 / bpm);
    }
  }
}
