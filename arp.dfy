/**
  The arpeggiator of one block (arp.py): its settings, and `get_arpeggio`, which turns them
  into a track of delta-timed messages and a total time.
 */
module Arp {
  import opened Opt
  import opened Midi

  datatype Mode = Up | Down | Random

  /** A ground note of 47 stands for silence: it contributes no note. */
  const SilentGroundNote: int := 47
  /** A variant offset of -99 contributes the placeholder note 0, which the synth never sounds. */
  const SilentOffset: int := -99
  /** The offset box's "mute" value, which the comment at arp.py:61 means to be silent. */
  const MuteOffset: int := -25
  /** The MIDI note range mido accepts. */
  const MaxNote: int := 127
  /** The controller `get_arpeggio` uses to switch vibrato on (127) or off (0). */
  const VibratoControl: int := 70

  /** Every field of an arpeggiator, as one value (what `get_config` reads out of it). */
  datatype Config = Config(
    rate: real,
    noteLength: real,
    groundNote: int,
    muteGroundNote: bool,
    mode: Option<Mode>,
    mute: bool,
    vibrato: bool,
    reverb: bool,
    chorus: bool,
    velocity: int,
    variantsActive: seq<bool>,
    chordsActive: seq<bool>,
    variants: seq<int>)

  /** What `get_arpeggio` needs of its inputs: no division by zero, an activity flag per offset. */
  predicate Playable(s: Config, bpm: real) {
    bpm > 0.0 && s.rate > 0.0 && |s.variantsActive| >= |s.variants|
  }

  // ---------------------------------------------------------------------------------------
  // The note set
  // ---------------------------------------------------------------------------------------

  /** The note one active variant slot adds. */
  function VariantNote(groundNote: int, offset: int): int {
    if offset == SilentOffset then 0 else groundNote + offset
  }

  /** The notes the first `n` variant slots add, in slot order, skipping inactive slots. */
  function VariantNotes(groundNote: int, variants: seq<int>, active: seq<bool>, n: nat): seq<int>
    requires n <= |variants| <= |active|
  {
    if n == 0 then []
    else
      VariantNotes(groundNote, variants, active, n - 1)
        + (if active[n - 1] then [VariantNote(groundNote, variants[n - 1])] else [])
  }

  /** The notes before ordering: the ground note (unless silent), then the variant notes. */
  function NoteSet(groundNote: int, variants: seq<int>, active: seq<bool>): seq<int>
    requires |active| >= |variants|
  {
    (if groundNote != SilentGroundNote then [groundNote] else [])
      + VariantNotes(groundNote, variants, active, |variants|)
  }

  /** The number of true flags among the first `n`. */
  function CountTrue(flags: seq<bool>, n: nat): nat
    requires n <= |flags|
  {
    if n == 0 then 0 else CountTrue(flags, n - 1) + (if flags[n - 1] then 1 else 0)
  }

  /**
    The variant notes hold one entry per active slot, and the entry of active slot `i` sits
    after those of the active slots before it.
   */
  lemma {:induction false} VariantNotesAt(groundNote: int, variants: seq<int>, active: seq<bool>, n: nat, i: nat)
    requires n <= |variants| <= |active|
    ensures |VariantNotes(groundNote, variants, active, n)| == CountTrue(active, n)
    ensures i < n && active[i] ==>
      CountTrue(active, i) < CountTrue(active, n) &&
      VariantNotes(groundNote, variants, active, n)[CountTrue(active, i)] == VariantNote(groundNote, variants[i])
    decreases n
  {
    if n > 0 {
      VariantNotesAt(groundNote, variants, active, n - 1, i);
      if i < n - 1 && active[i] {
        CountTrueMonotone(active, i + 1, n - 1);
      }
    }
  }

  lemma {:induction false} CountTrueMonotone(flags: seq<bool>, m: nat, n: nat)
    requires m <= n <= |flags|
    ensures CountTrue(flags, m) <= CountTrue(flags, n)
    decreases n - m
  {
    if m < n {
      CountTrueMonotone(flags, m, n - 1);
    }
  }

  /** The note set is empty exactly when the ground note is silent and no slot is active. */
  lemma NoteSetEmptyIff(groundNote: int, variants: seq<int>, active: seq<bool>)
    requires |active| >= |variants|
    ensures NoteSet(groundNote, variants, active) == [] <==>
      groundNote == SilentGroundNote && forall i :: 0 <= i < |variants| ==> !active[i]
  {
    VariantNotesAt(groundNote, variants, active, |variants|, 0);
    if forall i :: 0 <= i < |variants| ==> !active[i] {
      CountTrueNone(active, |variants|);
    } else {
      var i :| 0 <= i < |variants| && active[i];
      VariantNotesAt(groundNote, variants, active, |variants|, i);
    }
  }

  lemma {:induction false} CountTrueNone(flags: seq<bool>, n: nat)
    requires n <= |flags|
    requires forall i :: 0 <= i < n ==> !flags[i]
    ensures CountTrue(flags, n) == 0
  {
    if n > 0 {
      CountTrueNone(flags, n - 1);
    }
  }

  // ---------------------------------------------------------------------------------------
  // The intended note set: a muted offset (-25) is silent
  // ---------------------------------------------------------------------------------------

  /** The note one active variant slot is meant to add: the offset box's "mute" is silent. */
  function IntendedVariantNote(groundNote: int, offset: int): int {
    if offset == MuteOffset then 0 else groundNote + offset
  }

  /** The intended notes of the first `n` variant slots, in slot order. */
  function IntendedVariantNotes(groundNote: int, variants: seq<int>, active: seq<bool>, n: nat): seq<int>
    requires n <= |variants| <= |active|
  {
    if n == 0 then []
    else
      IntendedVariantNotes(groundNote, variants, active, n - 1)
        + (if active[n - 1] then [IntendedVariantNote(groundNote, variants[n - 1])] else [])
  }

  /** The intended note set: the ground note (unless silent), then the intended variant notes. */
  function IntendedNoteSet(groundNote: int, variants: seq<int>, active: seq<bool>): seq<int>
    requires |active| >= |variants|
  {
    (if groundNote != SilentGroundNote then [groundNote] else [])
      + IntendedVariantNotes(groundNote, variants, active, |variants|)
  }

  /**
    A variant muted in its box (-25) on the lowest ground note the slider offers (24) gives the
    note -1 as written, which mido refuses; the intended reading gives the silent note 0.
   */
  lemma MutedVariantFinding()
    ensures VariantNote(24, MuteOffset) == -1
    ensures !(0 <= VariantNote(24, MuteOffset) <= MaxNote)
    ensures IntendedVariantNote(24, MuteOffset) == 0
    ensures NoteSet(24, [MuteOffset], [true]) == [24, -1]
    ensures IntendedNoteSet(24, [MuteOffset], [true]) == [24, 0]
  {
    assert VariantNotes(24, [MuteOffset], [true], 1) == [-1];
    assert IntendedVariantNotes(24, [MuteOffset], [true], 1) == [0];
  }

  /**
    With the ground note in the slider's range 24..96 and the offset in the offset box's range
    -25..24, the intended variant note lies in 0..127.
   */
  lemma VariantNoteInRange(groundNote: int, offset: int)
    requires 24 <= groundNote <= 96 && MuteOffset <= offset <= 24
    ensures 0 <= IntendedVariantNote(groundNote, offset) <= MaxNote
  {
  }

  /**
    With the ground note in the slider's range 24..96 and every offset in the offset box's
    range -25..24, every note of the intended note set is a MIDI note (0..127).
   */
  lemma NoteSetInRange(groundNote: int, variants: seq<int>, active: seq<bool>)
    requires |active| >= |variants|
    requires 24 <= groundNote <= 96
    requires forall i :: 0 <= i < |variants| ==> MuteOffset <= variants[i] <= 24
    ensures forall k :: 0 <= k < |IntendedNoteSet(groundNote, variants, active)| ==>
      0 <= IntendedNoteSet(groundNote, variants, active)[k] <= MaxNote
  {
    VariantNotesInRange(groundNote, variants, active, |variants|);
  }

  lemma {:induction false} VariantNotesInRange(groundNote: int, variants: seq<int>, active: seq<bool>, n: nat)
    requires n <= |variants| <= |active|
    requires 24 <= groundNote <= 96
    requires forall i :: 0 <= i < |variants| ==> MuteOffset <= variants[i] <= 24
    ensures forall k :: 0 <= k < |IntendedVariantNotes(groundNote, variants, active, n)| ==>
      0 <= IntendedVariantNotes(groundNote, variants, active, n)[k] <= MaxNote
  {
    if n > 0 {
      VariantNotesInRange(groundNote, variants, active, n - 1);
      VariantNoteInRange(groundNote, variants[n - 1]);
    }
  }

  /**
    The two readings differ only on the two special offsets: when no active slot holds -25 or
    -99, the intended note set is the note set as written.
   */
  lemma NoteSetsAgree(groundNote: int, variants: seq<int>, active: seq<bool>)
    requires |active| >= |variants|
    requires forall i :: 0 <= i < |variants| && active[i] ==>
      variants[i] != MuteOffset && variants[i] != SilentOffset
    ensures IntendedNoteSet(groundNote, variants, active) == NoteSet(groundNote, variants, active)
  {
    VariantNotesAgree(groundNote, variants, active, |variants|);
  }

  lemma {:induction false} VariantNotesAgree(groundNote: int, variants: seq<int>, active: seq<bool>, n: nat)
    requires n <= |variants| <= |active|
    requires forall i :: 0 <= i < |variants| && active[i] ==>
      variants[i] != MuteOffset && variants[i] != SilentOffset
    ensures IntendedVariantNotes(groundNote, variants, active, n) == VariantNotes(groundNote, variants, active, n)
  {
    if n > 0 {
      VariantNotesAgree(groundNote, variants, active, n - 1);
    }
  }

  // ---------------------------------------------------------------------------------------
  // Ordering
  // ---------------------------------------------------------------------------------------

  predicate InOrder(a: int, b: int, ascending: bool) {
    if ascending then a <= b else a >= b
  }

  predicate SortedBy(s: seq<int>, ascending: bool) {
    forall i, j :: 0 <= i < j < |s| ==> InOrder(s[i], s[j], ascending)
  }

  function Insert(x: int, s: seq<int>, ascending: bool): (r: seq<int>)
    ensures |r| == |s| + 1
  {
    if s == [] || InOrder(x, s[0], ascending) then [x] + s
    else [s[0]] + Insert(x, s[1..], ascending)
  }

  /** `list.sort()` (ascending) and `list.sort(reverse=True)` (descending) on the notes. */
  function Sort(s: seq<int>, ascending: bool): (r: seq<int>)
    ensures |r| == |s|
  {
    if s == [] then [] else Insert(s[0], Sort(s[1..], ascending), ascending)
  }

  /** Inserting adds exactly the one element. */
  lemma {:induction false} InsertPermutes(x: int, s: seq<int>, ascending: bool)
    ensures multiset(Insert(x, s, ascending)) == multiset{x} + multiset(s)
    decreases |s|
  {
    if s != [] && !InOrder(x, s[0], ascending) {
      assert s == [s[0]] + s[1..];
      InsertPermutes(x, s[1..], ascending);
    }
  }

  /** Inserting into a sorted list keeps it sorted; the head is the new element or the old head. */
  lemma {:induction false} InsertSorted(x: int, s: seq<int>, ascending: bool)
    requires SortedBy(s, ascending)
    ensures SortedBy(Insert(x, s, ascending), ascending)
    ensures Insert(x, s, ascending)[0] == x || (s != [] && Insert(x, s, ascending)[0] == s[0])
    decreases |s|
  {
    if s != [] && !InOrder(x, s[0], ascending) {
      InsertSorted(x, s[1..], ascending);
      InsertPermutes(x, s[1..], ascending);
    }
  }

  /** The sorted list is in order and holds the same notes. */
  lemma {:induction false} SortSpec(s: seq<int>, ascending: bool)
    ensures SortedBy(Sort(s, ascending), ascending)
    ensures multiset(Sort(s, ascending)) == multiset(s)
    decreases |s|
  {
    if s != [] {
      assert s == [s[0]] + s[1..];
      SortSpec(s[1..], ascending);
      InsertPermutes(s[0], Sort(s[1..], ascending), ascending);
      InsertSorted(s[0], Sort(s[1..], ascending), ascending);
    }
  }

  function Swap(s: seq<int>, i: nat, j: nat): (r: seq<int>)
    requires i < |s| && j < |s|
    ensures |r| == |s|
  {
    s[i := s[j]][j := s[i]]
  }

  lemma SwapPermutes(s: seq<int>, i: nat, j: nat)
    requires i < |s| && j < |s|
    ensures multiset(Swap(s, i, j)) == multiset(s)
  {
  }

  /**
    `random.shuffle` (Fisher-Yates): for position `i` from the last down to 1 it swaps in the
    element at `randbelow(i + 1)`. The k-th draw stands for the k-th `randbelow` result; once
    the draws run out the remaining positions stay where they are.
   */
  function ShuffleFrom(s: seq<int>, i: nat, draws: seq<nat>): (r: seq<int>)
    requires i < |s|
    ensures |r| == |s|
    decreases i
  {
    if i == 0 then s
    else if draws == [] then ShuffleFrom(s, i - 1, draws)
    else ShuffleFrom(Swap(s, i, draws[0] % (i + 1)), i - 1, draws[1..])
  }

  /** Every swap keeps the multiset, so the shuffle is a permutation. */
  lemma {:induction false} ShuffleFromSpec(s: seq<int>, i: nat, draws: seq<nat>)
    requires i < |s|
    ensures multiset(ShuffleFrom(s, i, draws)) == multiset(s)
    decreases i
  {
    if i > 0 {
      if draws == [] {
        ShuffleFromSpec(s, i - 1, draws);
      } else {
        var swapped := Swap(s, i, draws[0] % (i + 1));
        SwapPermutes(s, i, draws[0] % (i + 1));
        ShuffleFromSpec(swapped, i - 1, draws[1..]);
      }
    }
  }

  function Shuffle(s: seq<int>, draws: seq<nat>): (r: seq<int>)
    ensures |r| == |s|
  {
    if s == [] then s else ShuffleFrom(s, |s| - 1, draws)
  }

  /** The notes in the order the mode asks for; no mode keeps construction order. */
  function Ordered(notes: seq<int>, mode: Option<Mode>, draws: seq<nat>): (r: seq<int>)
    ensures |r| == |notes|
  {
    match mode
    case None => notes
    case Some(Up) => Sort(notes, true)
    case Some(Down) => Sort(notes, false)
    case Some(Random) => Shuffle(notes, draws)
  }

  /**
    Up yields the notes ascending, Down descending, Random some permutation, and no mode the
    notes as built; every mode keeps the same multiset of notes.
   */
  lemma OrderedSpec(notes: seq<int>, mode: Option<Mode>, draws: seq<nat>)
    ensures multiset(Ordered(notes, mode, draws)) == multiset(notes)
    ensures mode == Some(Up) ==> SortedBy(Ordered(notes, mode, draws), true)
    ensures mode == Some(Down) ==> SortedBy(Ordered(notes, mode, draws), false)
    ensures mode == None ==> Ordered(notes, mode, draws) == notes
  {
    match mode
    case None =>
    case Some(Up) => SortSpec(notes, true);
    case Some(Down) => SortSpec(notes, false);
    case Some(Random) =>
      if notes != [] {
        ShuffleFromSpec(notes, |notes| - 1, draws);
      }
  }

  /** Only the random mode consults the draws. */
  lemma OrderedDeterministic(notes: seq<int>, mode: Option<Mode>, draws1: seq<nat>, draws2: seq<nat>)
    requires mode != Some(Random)
    ensures Ordered(notes, mode, draws1) == Ordered(notes, mode, draws2)
  {
    match mode
    case None =>
    case Some(Up) =>
    case Some(Down) =>
  }

  // ---------------------------------------------------------------------------------------
  // The track
  // ---------------------------------------------------------------------------------------

  /** Program change to the row's instrument, then the vibrato controller. */
  function Prelude(instrument: int, vibrato: bool): seq<Message> {
    [ProgramChange(instrument, 0.0), ControlChange(VibratoControl, if vibrato then 127 else 0, 0.0)]
  }

  /** Start (silent when muted), stop after the sounded part, then wait out the rest of the slot. */
  function NoteTriple(note: int, mute: bool, velocity: int, noteDuration: real, maxNoteDuration: real): seq<Message> {
    [ if mute then NoteOff(note, velocity, 0.0) else NoteOn(note, velocity, 0.0),
      NoteOff(note, velocity, noteDuration),
      NoteOff(note, velocity, maxNoteDuration - noteDuration) ]
  }

  function Triples(notes: seq<int>, mute: bool, velocity: int, noteDuration: real, maxNoteDuration: real): seq<Message> {
    if notes == [] then []
    else
      Triples(notes[..|notes| - 1], mute, velocity, noteDuration, maxNoteDuration)
        + NoteTriple(notes[|notes| - 1], mute, velocity, noteDuration, maxNoteDuration)
  }

  /** One beat of the song: 60 / bpm seconds. */
  function Beat(bpm: real): real
    requires bpm > 0.0
  {
    60.0 / bpm
  }

  /** The sounded part of a note: beat * (note_length / rate) / N. */
  function NoteDuration(s: Config, bpm: real, n: nat): real
    requires bpm > 0.0 && s.rate > 0.0 && n > 0
  {
    Beat(bpm) * (s.noteLength / s.rate) / (n as real)
  }

  /** The whole slot of a note: beat * (1 / rate) / N. */
  function MaxNoteDuration(s: Config, bpm: real, n: nat): real
    requires bpm > 0.0 && s.rate > 0.0 && n > 0
  {
    Beat(bpm) * (1.0 / s.rate) / (n as real)
  }

  /** What each note adds to `total_time`: beat * rate. */
  function TimeStep(s: Config, bpm: real): real
    requires bpm > 0.0
  {
    Beat(bpm) * s.rate
  }

  /** One full note at the arpeggio's rate, beat * (1 / rate): the length of every arpeggio track. */
  function FullNoteTime(s: Config, bpm: real): real
    requires bpm > 0.0 && s.rate > 0.0
  {
    Beat(bpm) * (1.0 / s.rate)
  }

  /** The notes of a playable configuration, in played order. */
  function PlayedNotes(s: Config, draws: seq<nat>): seq<int>
    requires |s.variantsActive| >= |s.variants|
  {
    Ordered(NoteSet(s.groundNote, s.variants, s.variantsActive), s.mode, draws)
  }

  /** The track `get_arpeggio` builds once the notes are in played order. */
  function TrackOf(s: Config, bpm: real, instrument: int, notes: seq<int>): seq<Message>
    requires Playable(s, bpm)
  {
    if notes == [] then
      [NoteOff(0, s.velocity, 0.0), NoteOff(0, s.velocity, FullNoteTime(s, bpm))]
    else
      Prelude(instrument, s.vibrato)
        + Triples(notes, s.mute, s.velocity, NoteDuration(s, bpm, |notes|), MaxNoteDuration(s, bpm, |notes|))
  }

  /** The total time `get_arpeggio` adds up for the notes in played order. */
  function TimeOf(s: Config, bpm: real, notes: seq<int>): real
    requires Playable(s, bpm)
  {
    if notes == [] then FullNoteTime(s, bpm) else (|notes| as real) * TimeStep(s, bpm)
  }

  /** The track `get_arpeggio` returns. */
  function ArpeggioTrack(s: Config, bpm: real, instrument: int, draws: seq<nat>): seq<Message>
    requires Playable(s, bpm)
  {
    TrackOf(s, bpm, instrument, PlayedNotes(s, draws))
  }

  /** The total time `get_arpeggio` returns. */
  function ArpeggioTime(s: Config, bpm: real, draws: seq<nat>): real
    requires Playable(s, bpm)
  {
    TimeOf(s, bpm, PlayedNotes(s, draws))
  }

  /** An empty note set gives two silent note-offs spanning one rest, whatever the mode. */
  lemma SilentArpeggio(s: Config, bpm: real, instrument: int, draws: seq<nat>)
    requires Playable(s, bpm) && NoteSet(s.groundNote, s.variants, s.variantsActive) == []
    ensures ArpeggioTrack(s, bpm, instrument, draws)
            == [NoteOff(0, s.velocity, 0.0), NoteOff(0, s.velocity, FullNoteTime(s, bpm))]
    ensures ArpeggioTime(s, bpm, draws) == FullNoteTime(s, bpm)
  {
    assert PlayedNotes(s, draws) == [];
  }

  // ---------------------------------------------------------------------------------------
  // Properties of the track
  // ---------------------------------------------------------------------------------------

  /** Each note contributes three messages, in the order of the notes. */
  lemma {:induction false} TriplesAt(notes: seq<int>, mute: bool, velocity: int, d: real, m: real)
    ensures |Triples(notes, mute, velocity, d, m)| == 3 * |notes|
    ensures forall k :: 0 <= k < |notes| ==>
      Triples(notes, mute, velocity, d, m)[3 * k .. 3 * k + 3] == NoteTriple(notes[k], mute, velocity, d, m)
    decreases |notes|
  {
    if notes != [] {
      var front := notes[..|notes| - 1];
      TriplesAt(front, mute, velocity, d, m);
      var all := Triples(notes, mute, velocity, d, m);
      var head := Triples(front, mute, velocity, d, m);
      assert all == head + NoteTriple(notes[|notes| - 1], mute, velocity, d, m);
      forall k | 0 <= k < |notes|
        ensures all[3 * k .. 3 * k + 3] == NoteTriple(notes[k], mute, velocity, d, m)
      {
        if k < |front| {
          assert notes[k] == front[k];
          assert all[3 * k .. 3 * k + 3] == head[3 * k .. 3 * k + 3];
        } else {
          assert all[3 * k .. 3 * k + 3] == all[|head|..];
        }
      }
    }
  }

  /** A muted arpeggio starts no note: every triple opens with a note-off. */
  lemma {:induction false} MutedTriples(notes: seq<int>, velocity: int, d: real, m: real)
    ensures forall i :: 0 <= i < |Triples(notes, true, velocity, d, m)| ==>
      !Triples(notes, true, velocity, d, m)[i].NoteOn?
    decreases |notes|
  {
    if notes != [] {
      MutedTriples(notes[..|notes| - 1], velocity, d, m);
    }
  }

  /** A triple lasts the whole slot, and its deltas are non-negative when the note fits the slot. */
  lemma NoteTripleTiming(note: int, mute: bool, velocity: int, d: real, m: real)
    ensures DeltaSum(NoteTriple(note, mute, velocity, d, m)) == m
    ensures 0.0 <= d <= m ==> NonNegativeDeltas(NoteTriple(note, mute, velocity, d, m))
  {
    var t := NoteTriple(note, mute, velocity, d, m);
    assert t[..2][..1] == t[..1];
    assert DeltaSum(t[..1]) == 0.0;
    assert DeltaSum(t[..2]) == d;
  }

  /** The triples of N notes last N slots. */
  lemma {:induction false} TriplesTiming(notes: seq<int>, mute: bool, velocity: int, d: real, m: real)
    ensures DeltaSum(Triples(notes, mute, velocity, d, m)) == (|notes| as real) * m
    ensures 0.0 <= d <= m ==> NonNegativeDeltas(Triples(notes, mute, velocity, d, m))
    decreases |notes|
  {
    if notes != [] {
      var front := notes[..|notes| - 1];
      var last := NoteTriple(notes[|notes| - 1], mute, velocity, d, m);
      TriplesTiming(front, mute, velocity, d, m);
      NoteTripleTiming(notes[|notes| - 1], mute, velocity, d, m);
      DeltaSumAppend(Triples(front, mute, velocity, d, m), last);
    }
  }

  /**
    The shape of a non-empty arpeggio: the prelude (program change, then the vibrato
    controller), then for the k-th played note its triple, so 2 + 3N messages in all.
   */
  lemma ArpeggioShape(s: Config, bpm: real, instrument: int, draws: seq<nat>)
    requires Playable(s, bpm) && PlayedNotes(s, draws) != []
    ensures var notes := PlayedNotes(s, draws);
      var track := ArpeggioTrack(s, bpm, instrument, draws);
      |track| == 2 + 3 * |notes| &&
      track[0] == ProgramChange(instrument, 0.0) &&
      track[1] == ControlChange(VibratoControl, if s.vibrato then 127 else 0, 0.0) &&
      forall k :: 0 <= k < |notes| ==>
        track[2 + 3 * k .. 5 + 3 * k]
          == NoteTriple(notes[k], s.mute, s.velocity, NoteDuration(s, bpm, |notes|), MaxNoteDuration(s, bpm, |notes|))
  {
    var notes := PlayedNotes(s, draws);
    var d, m := NoteDuration(s, bpm, |notes|), MaxNoteDuration(s, bpm, |notes|);
    var triples := Triples(notes, s.mute, s.velocity, d, m);
    var track := ArpeggioTrack(s, bpm, instrument, draws);
    assert track == Prelude(instrument, s.vibrato) + triples;
    TriplesAt(notes, s.mute, s.velocity, d, m);
    forall k | 0 <= k < |notes|
      ensures track[2 + 3 * k .. 5 + 3 * k] == NoteTriple(notes[k], s.mute, s.velocity, d, m)
    {
      assert track[2 + 3 * k .. 5 + 3 * k] == triples[3 * k .. 3 * k + 3];
    }
  }

  /** With mute set, the track holds note-offs only and never a note-on. */
  lemma ArpeggioMuted(s: Config, bpm: real, instrument: int, draws: seq<nat>)
    requires Playable(s, bpm) && s.mute
    ensures forall i :: 0 <= i < |ArpeggioTrack(s, bpm, instrument, draws)| ==>
      !ArpeggioTrack(s, bpm, instrument, draws)[i].NoteOn?
  {
    var notes := PlayedNotes(s, draws);
    if notes != [] {
      MutedTriples(notes, s.velocity, NoteDuration(s, bpm, |notes|), MaxNoteDuration(s, bpm, |notes|));
    }
  }

  /** An arpeggio track carries no marker: the block adds the only one. */
  lemma ArpeggioHasNoMarker(s: Config, bpm: real, instrument: int, draws: seq<nat>)
    requires Playable(s, bpm)
    ensures forall i :: 0 <= i < |ArpeggioTrack(s, bpm, instrument, draws)| ==>
      !ArpeggioTrack(s, bpm, instrument, draws)[i].Marker?
  {
    var notes := PlayedNotes(s, draws);
    if notes != [] {
      TriplesHaveNoMarker(notes, s.mute, s.velocity, NoteDuration(s, bpm, |notes|), MaxNoteDuration(s, bpm, |notes|));
    }
  }

  lemma {:induction false} TriplesHaveNoMarker(notes: seq<int>, mute: bool, velocity: int, d: real, m: real)
    ensures forall i :: 0 <= i < |Triples(notes, mute, velocity, d, m)| ==> !Triples(notes, mute, velocity, d, m)[i].Marker?
    decreases |notes|
  {
    if notes != [] {
      TriplesHaveNoMarker(notes[..|notes| - 1], mute, velocity, d, m);
    }
  }

  /** Without a random mode the arpeggio does not depend on the random draws. */
  lemma ArpeggioDeterministic(s: Config, bpm: real, instrument: int, draws1: seq<nat>, draws2: seq<nat>)
    requires Playable(s, bpm) && s.mode != Some(Random)
    ensures ArpeggioTrack(s, bpm, instrument, draws1) == ArpeggioTrack(s, bpm, instrument, draws2)
    ensures ArpeggioTime(s, bpm, draws1) == ArpeggioTime(s, bpm, draws2)
  {
    var notes := NoteSet(s.groundNote, s.variants, s.variantsActive);
    OrderedDeterministic(notes, s.mode, draws1, draws2);
  }

  /** For 0 <= note_length <= 1 the sounded part of a note fits its slot. */
  lemma DurationsOrdered(s: Config, bpm: real, n: nat)
    requires bpm > 0.0 && s.rate > 0.0 && n > 0 && 0.0 <= s.noteLength <= 1.0
    ensures 0.0 <= NoteDuration(s, bpm, n) <= MaxNoteDuration(s, bpm, n)
    ensures (n as real) * MaxNoteDuration(s, bpm, n) == FullNoteTime(s, bpm)
  {
    var beat, k := Beat(bpm), n as real;
    assert 0.0 <= s.noteLength / s.rate <= 1.0 / s.rate;
    assert 0.0 <= beat * (s.noteLength / s.rate) <= beat * (1.0 / s.rate);
    assert (beat * (s.noteLength / s.rate)) / k <= (beat * (1.0 / s.rate)) / k;
  }

  /**
    With 0 <= note_length <= 1 every delta of the track is non-negative, and the deltas add up
    to one beat divided by the rate, whatever the number of notes.
   */
  lemma ArpeggioTiming(s: Config, bpm: real, instrument: int, draws: seq<nat>)
    requires Playable(s, bpm) && 0.0 <= s.noteLength <= 1.0
    ensures NonNegativeDeltas(ArpeggioTrack(s, bpm, instrument, draws))
    ensures DeltaSum(ArpeggioTrack(s, bpm, instrument, draws)) == FullNoteTime(s, bpm)
  {
    var notes := PlayedNotes(s, draws);
    if notes == [] {
      RestTiming(s, bpm, instrument);
    } else {
      NotesTiming(s, bpm, instrument, notes);
    }
  }

  lemma RestTiming(s: Config, bpm: real, instrument: int)
    requires Playable(s, bpm)
    ensures NonNegativeDeltas(TrackOf(s, bpm, instrument, []))
    ensures DeltaSum(TrackOf(s, bpm, instrument, [])) == FullNoteTime(s, bpm)
  {
    var track := TrackOf(s, bpm, instrument, []);
    assert track[..1] == [track[0]];
    assert DeltaSum(track[..1]) == 0.0;
  }

  lemma NotesTiming(s: Config, bpm: real, instrument: int, notes: seq<int>)
    requires Playable(s, bpm) && 0.0 <= s.noteLength <= 1.0 && notes != []
    ensures NonNegativeDeltas(TrackOf(s, bpm, instrument, notes))
    ensures DeltaSum(TrackOf(s, bpm, instrument, notes)) == FullNoteTime(s, bpm)
  {
    var d, m := NoteDuration(s, bpm, |notes|), MaxNoteDuration(s, bpm, |notes|);
    var prelude := Prelude(instrument, s.vibrato);
    var triples := Triples(notes, s.mute, s.velocity, d, m);
    DurationsOrdered(s, bpm, |notes|);
    TriplesTiming(notes, s.mute, s.velocity, d, m);
    DeltaSumAppend(prelude, triples);
    assert prelude[..1][..0] == [];
    assert DeltaSum(prelude[..1]) == 0.0;
    assert DeltaSum(prelude) == 0.0;
    assert TrackOf(s, bpm, instrument, notes) == prelude + triples;
  }

  /**
    The duration `get_arpeggio` returns agrees with the length of its track only by accident:
    for N notes it is N * beat * rate against beat / rate, equal exactly when N * rate^2 = 1.
   */
  lemma TotalTimeAgreement(s: Config, bpm: real, instrument: int, notes: seq<int>)
    requires Playable(s, bpm) && 0.0 <= s.noteLength <= 1.0 && notes != []
    ensures var n := |notes| as real;
      (TimeOf(s, bpm, notes) == DeltaSum(TrackOf(s, bpm, instrument, notes)) <==> n * s.rate * s.rate == 1.0)
  {
    var n, beat, r := |notes| as real, Beat(bpm), s.rate;
    assert TimeOf(s, bpm, notes) == (n * r) * beat;
    assert DeltaSum(TrackOf(s, bpm, instrument, notes)) == beat * (1.0 / r) by {
      NotesTiming(s, bpm, instrument, notes);
    }
    ScaledEquality(n * r, 1.0 / r, beat, r);
  }

  /** Dividing both sides by a positive beat and rate. */
  lemma ScaledEquality(x: real, y: real, beat: real, r: real)
    requires beat > 0.0 && r > 0.0 && y == 1.0 / r
    ensures x * beat == beat * y <==> x * r == 1.0
  {
    assert x * beat == beat * y <==> x == y;
    assert y * r == 1.0;
  }

  /**
    One note at rate 2 and 60 bpm: `get_arpeggio` returns a duration of 2.0 for a track whose
    deltas add up to 0.5.
   */
  lemma TotalTimeMismatch()
    ensures var s := Config(2.0, 0.2, 60, false, None, false, false, false, false, 64,
                            [false, false, false], [false, false, false], [0, 0, 0]);
      ArpeggioTime(s, 60.0, []) == 2.0 && DeltaSum(ArpeggioTrack(s, 60.0, 0, [])) == 0.5
  {
    var s := Config(2.0, 0.2, 60, false, None, false, false, false, false, 64,
                    [false, false, false], [false, false, false], [0, 0, 0]);
    CountTrueNone(s.variantsActive, 3);
    VariantNotesAt(60, s.variants, s.variantsActive, 3, 0);
    assert PlayedNotes(s, []) == [60];
    ArpeggioTiming(s, 60.0, 0, []);
  }

  // ---------------------------------------------------------------------------------------
  // The arpeggiator object
  // ---------------------------------------------------------------------------------------

  class Arpeggiator {
    var rate: real
    var noteLength: real
    var groundNote: int
    var muteGroundNote: bool
    var mode: Option<Mode>
    var mute: bool
    var vibrato: bool
    var reverb: bool
    var chorus: bool
    var velocity: int
    var variantsActive: seq<bool>
    var chordsActive: seq<bool>
    var variants: seq<int>

    function GetConfig(): Config
      reads this
    {
      Config(rate, noteLength, groundNote, muteGroundNote, mode, mute, vibrato, reverb, chorus,
                   velocity, variantsActive, chordsActive, variants)
    }

    constructor (s: Config)
      ensures GetConfig() == s
    {
      rate, noteLength, groundNote, muteGroundNote := s.rate, s.noteLength, s.groundNote, s.muteGroundNote;
      mode, mute, vibrato, reverb, chorus := s.mode, s.mute, s.vibrato, s.reverb, s.chorus;
      velocity, variantsActive, chordsActive, variants := s.velocity, s.variantsActive, s.chordsActive, s.variants;
    }

    /** The note-set loop of `get_arpeggio`: ground note, then one note per active slot. */
    method CollectNotes() returns (notes: seq<int>)
      requires |variantsActive| >= |variants|
      ensures notes == NoteSet(groundNote, variants, variantsActive)
    {
      var ground, offsets, active := groundNote, variants, variantsActive;
      notes := if ground != SilentGroundNote then [ground] else [];
      ghost var start := notes;
      var i := 0;
      while i < |offsets|
        invariant 0 <= i <= |offsets|
        invariant notes == start + VariantNotes(ground, offsets, active, i)
      {
        if active[i] {
          if offsets[i] == SilentOffset {
            notes := notes + [0];
          } else {
            notes := notes + [ground + offsets[i]];
          }
        }
        i := i + 1;
      }
    }

    /**
      `get_arpeggio(bpm, instrument)`: builds the note set, orders it, and appends a triple per
      note while adding up `total_time`. It writes no field.
     */
    method GetArpeggio(bpm: real, instrument: int, draws: seq<nat>) returns (track: seq<Message>, totalTime: real)
      requires bpm > 0.0 && rate > 0.0 && |variantsActive| >= |variants|
      ensures track == ArpeggioTrack(GetConfig(), bpm, instrument, draws)
      ensures totalTime == ArpeggioTime(GetConfig(), bpm, draws)
    {
      var notes := CollectNotes();
      if notes == [] {
        track, totalTime := RestArpeggio(bpm, instrument, draws);
      } else {
        track, totalTime := NotesArpeggio(notes, bpm, instrument, draws);
      }
    }

    /** The early return of `get_arpeggio` when no note is left: two silent note-offs. */
    method RestArpeggio(bpm: real, instrument: int, draws: seq<nat>) returns (track: seq<Message>, totalTime: real)
      requires bpm > 0.0 && rate > 0.0 && |variantsActive| >= |variants|
      requires NoteSet(groundNote, variants, variantsActive) == []
      ensures track == ArpeggioTrack(GetConfig(), bpm, instrument, draws)
      ensures totalTime == ArpeggioTime(GetConfig(), bpm, draws)
    {
      var t := (60.0 / bpm) * (1.0 / rate);
      track := [NoteOff(0, velocity, 0.0), NoteOff(0, velocity, t)];
      totalTime := t;
      SilentArpeggio(GetConfig(), bpm, instrument, draws);
      assert t == FullNoteTime(GetConfig(), bpm);
    }

    /** The rest of `get_arpeggio` for a non-empty note set: prelude, ordering and the note loop. */
    method NotesArpeggio(notes: seq<int>, bpm: real, instrument: int, draws: seq<nat>)
      returns (track: seq<Message>, totalTime: real)
      requires bpm > 0.0 && rate > 0.0 && |variantsActive| >= |variants|
      requires notes == NoteSet(groundNote, variants, variantsActive) != []
      ensures track == ArpeggioTrack(GetConfig(), bpm, instrument, draws)
      ensures totalTime == ArpeggioTime(GetConfig(), bpm, draws)
    {
      var value := if vibrato then 127 else 0;
      track := [ProgramChange(instrument, 0.0)];
      track := track + [ControlChange(VibratoControl, value, 0.0)];
      assert track == Prelude(instrument, vibrato);
      var ordered := OrderNotes(notes, draws);
      var triples;
      triples, totalTime := PlayNotes(ordered, bpm);
      track := track + triples;
      assert ordered == PlayedNotes(GetConfig(), draws) != [];
    }

    /** The per-note part of `get_arpeggio`, from the note durations to the end of the loop. */
    method PlayNotes(notes: seq<int>, bpm: real) returns (triples: seq<Message>, totalTime: real)
      requires bpm > 0.0 && rate > 0.0 && notes != []
      ensures triples == Triples(notes, mute, velocity, NoteDuration(GetConfig(), bpm, |notes|),
                                 MaxNoteDuration(GetConfig(), bpm, |notes|))
      ensures totalTime == (|notes| as real) * TimeStep(GetConfig(), bpm)
    {
      var n := |notes| as real;
      var noteDuration := (60.0 / bpm) * (noteLength / rate) / n;
      var maxNoteDuration := (60.0 / bpm) * (1.0 / rate) / n;
      var timeStep := (60.0 / bpm) * rate;
      assert noteDuration == NoteDuration(GetConfig(), bpm, |notes|);
      assert maxNoteDuration == MaxNoteDuration(GetConfig(), bpm, |notes|);
      triples, totalTime := EmitTriples(notes, noteDuration, maxNoteDuration, timeStep);
    }

    /** The ordering step of `get_arpeggio`: sort, sort descending, shuffle, or keep. */
    method OrderNotes(notes: seq<int>, draws: seq<nat>) returns (ordered: seq<int>)
      ensures ordered == Ordered(notes, mode, draws)
    {
      ordered := notes;
      if mode == Some(Up) {
        ordered := Sort(ordered, true);
      } else if mode == Some(Down) {
        ordered := Sort(ordered, false);
      } else if mode == Some(Random) {
        ordered := Shuffle(ordered, draws);
      }
    }

    /** The per-note loop of `get_arpeggio`. */
    method EmitTriples(notes: seq<int>, noteDuration: real, maxNoteDuration: real, timeStep: real)
      returns (triples: seq<Message>, totalTime: real)
      ensures triples == Triples(notes, mute, velocity, noteDuration, maxNoteDuration)
      ensures totalTime == (|notes| as real) * timeStep
    {
      triples := [];
      totalTime := 0.0;
      var k := 0;
      while k < |notes|
        invariant 0 <= k <= |notes|
        invariant triples == Triples(notes[..k], mute, velocity, noteDuration, maxNoteDuration)
        invariant totalTime == (k as real) * timeStep
      {
        assert notes[..k + 1][..k] == notes[..k];
        var note := notes[k];
        if !mute {
          triples := triples + [NoteOn(note, velocity, 0.0)];
        } else {
          triples := triples + [NoteOff(note, velocity, 0.0)];
        }
        triples := triples + [NoteOff(note, velocity, noteDuration)];
        triples := triples + [NoteOff(note, velocity, maxNoteDuration - noteDuration)];
        totalTime := totalTime + timeStep;
        k := k + 1;
      }
      assert notes[..|notes|] == notes;
    }
  }
}
