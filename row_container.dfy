/**
  The instrument row the playback uses (instrument_row_container.py): the settings side
  (mute, volume, instrument) and the block strip, the row's track for one pass over its
  blocks, its play time, and the volume and instrument changes.
 */
module RowContainer {
  import opened Opt
  import opened Midi
  import opened Arp
  import opened ArpWidget
  import opened ArpRow
  import opened Synth

  /**
    The data behind an entry of the instrument box: a soundfont preset (program, and its bank
    when it names one), a bare program number (the older format), or nothing.
   */
  datatype Preset =
    | DictPreset(program: int, bank: Option<int>)
    | IntPreset(value: int)
    | NoPreset

  /** `itemData(index)`: nothing for an index outside the box. */
  function ItemData(presets: seq<Preset>, index: int): Preset {
    if 0 <= index < |presets| then presets[index] else NoPreset
  }

  /** The program a preset selects: its program, the bare number, or 0. */
  function PresetProgram(p: Preset): int {
    match p
    case DictPreset(program, _) => program
    case IntPreset(value) => value
    case NoPreset => 0
  }

  /** The bank a preset selects: the one it names, else 0. */
  function PresetBank(p: Preset): int {
    match p
    case DictPreset(_, Some(bank)) => bank
    case _ => 0
  }

  /** The random draws for the `i`-th block (none when the list runs out). */
  function DrawsFor(draws: seq<seq<nat>>, i: nat): seq<nat> {
    if i < |draws| then draws[i] else []
  }

  /** The tempo is positive and every block can be played at it. */
  predicate AllPlayable(configs: seq<Config>, bpm: real) {
    && bpm > 0.0
    && PositiveRates(configs)
    && forall i :: 0 <= i < |configs| ==> Playable(configs[i], bpm)
  }

  /** The row's track: every block's marked arpeggio once, in block order (repetitions ignored). */
  function RowTrack(rowId: int, configs: seq<Config>, bpm: real, instrument: int, draws: seq<seq<nat>>): seq<Message>
    requires AllPlayable(configs, bpm)
  {
    if configs == [] then []
    else
      var n := |configs| - 1;
      RowTrack(rowId, configs[..n], bpm, instrument, draws)
        + BlockTrack(rowId, n, configs[n], bpm, instrument, DrawsFor(draws, n))
  }

  /** The `total_time` of `get_all_arpeggios`: the blocks' returned durations added up. */
  function RowTime(configs: seq<Config>, bpm: real, draws: seq<seq<nat>>): real
    requires AllPlayable(configs, bpm)
  {
    if configs == [] then 0.0
    else
      var n := |configs| - 1;
      RowTime(configs[..n], bpm, draws) + ArpeggioTime(configs[n], bpm, DrawsFor(draws, n))
  }

  lemma RowStep(rowId: int, configs: seq<Config>, bpm: real, instrument: int, draws: seq<seq<nat>>, i: nat)
    requires AllPlayable(configs, bpm) && i < |configs|
    ensures RowTrack(rowId, configs[..i + 1], bpm, instrument, draws)
      == RowTrack(rowId, configs[..i], bpm, instrument, draws)
         + BlockTrack(rowId, i, configs[i], bpm, instrument, DrawsFor(draws, i))
    ensures RowTime(configs[..i + 1], bpm, draws)
      == RowTime(configs[..i], bpm, draws) + ArpeggioTime(configs[i], bpm, DrawsFor(draws, i))
  {
    assert configs[..i + 1][..i] == configs[..i];
  }

  /**
    A row's track has no negative delta and lasts exactly the row's play time (the sum of its
    blocks' play times), whatever the number of notes in each block.
   */
  lemma {:induction false} RowTiming(rowId: int, configs: seq<Config>, bpm: real, instrument: int, draws: seq<seq<nat>>)
    requires AllPlayable(configs, bpm)
    requires forall i :: 0 <= i < |configs| ==> 0.0 <= configs[i].noteLength <= 1.0
    ensures NonNegativeDeltas(RowTrack(rowId, configs, bpm, instrument, draws))
    ensures DeltaSum(RowTrack(rowId, configs, bpm, instrument, draws)) == TotalPlayTime(configs, bpm)
    decreases |configs|
  {
    if configs != [] {
      var n := |configs| - 1;
      var front := RowTrack(rowId, configs[..n], bpm, instrument, draws);
      var block := BlockTrack(rowId, n, configs[n], bpm, instrument, DrawsFor(draws, n));
      RowTiming(rowId, configs[..n], bpm, instrument, draws);
      BlockTiming(rowId, n, configs[n], bpm, instrument, DrawsFor(draws, n));
      JoinTiming(front, block);
    }
  }

  /** The texts of the markers of a track, in order. */
  function Markers(track: seq<Message>): seq<string> {
    if track == [] then []
    else
      var last := track[|track| - 1];
      Markers(track[..|track| - 1]) + if last.Marker? then [last.text] else []
  }

  lemma {:induction false} MarkersAppend(a: seq<Message>, b: seq<Message>)
    ensures Markers(a + b) == Markers(a) + Markers(b)
    decreases |b|
  {
    if b != [] {
      var ab := a + b;
      assert ab[..|ab| - 1] == a + b[..|b| - 1];
      MarkersAppend(a, b[..|b| - 1]);
    } else {
      assert a + b == a;
    }
  }

  lemma {:induction false} MarkersNone(track: seq<Message>)
    requires forall i :: 0 <= i < |track| ==> !track[i].Marker?
    ensures Markers(track) == []
    decreases |track|
  {
    if track != [] {
      MarkersNone(track[..|track| - 1]);
    }
  }

  /** The labels "<row>#0", "<row>#1", ... of the first `n` blocks of a row. */
  function Labels(rowId: int, n: nat): (r: seq<string>)
    ensures |r| == n
  {
    if n == 0 then [] else Labels(rowId, n - 1) + [BlockLabel(rowId, n - 1)]
  }

  /** A track with one marker, in front, has that marker's text as its only label. */
  lemma LeadingMarker(track: seq<Message>, text: string)
    requires |track| >= 1 && track[0] == Marker(text, 0.0)
    requires forall i :: 0 < i < |track| ==> !track[i].Marker?
    ensures Markers(track) == [text]
  {
    MarkersAppend([track[0]], track[1..]);
    assert track == [track[0]] + track[1..];
    MarkersNone(track[1..]);
    assert [track[0]][..0] == [];
  }

  /**
    The row's track carries one marker per block, in block order, labelled with the row id and
    the block's position.
   */
  lemma {:induction false} RowMarkers(rowId: int, configs: seq<Config>, bpm: real, instrument: int, draws: seq<seq<nat>>)
    requires AllPlayable(configs, bpm)
    ensures Markers(RowTrack(rowId, configs, bpm, instrument, draws)) == Labels(rowId, |configs|)
    decreases |configs|
  {
    if configs != [] {
      var n := |configs| - 1;
      var block := BlockTrack(rowId, n, configs[n], bpm, instrument, DrawsFor(draws, n));
      RowMarkers(rowId, configs[..n], bpm, instrument, draws);
      BlockTrackShape(rowId, n, configs[n], bpm, instrument, DrawsFor(draws, n));
      LeadingMarker(block, BlockLabel(rowId, n));
      MarkersAppend(RowTrack(rowId, configs[..n], bpm, instrument, draws), block);
    }
  }

  /** The labels of a row's blocks are pairwise different, so a marker names one block. */
  lemma LabelsDistinct(rowId: int, n: nat)
    ensures forall i, j :: 0 <= i < j < n ==> Labels(rowId, n)[i] != Labels(rowId, n)[j]
  {
    forall i, j | 0 <= i < j < n
      ensures Labels(rowId, n)[i] != Labels(rowId, n)[j]
    {
      LabelsAt(rowId, n, i);
      LabelsAt(rowId, n, j);
      BlockOfLabel(rowId, i);
      BlockOfLabel(rowId, j);
    }
  }

  lemma {:induction false} LabelsAt(rowId: int, n: nat, i: nat)
    requires i < n
    ensures Labels(rowId, n)[i] == BlockLabel(rowId, i)
    decreases n
  {
    if i < n - 1 {
      LabelsAt(rowId, n - 1, i);
    }
  }

  /** The first loop of `update_arp_volumes`: every block's velocity becomes `v`. */
  method SetVelocities(blocks: seq<ArpeggiatorBlockWidget>, v: int)
    modifies blocks
    ensures forall b :: b in blocks ==> b.velocity == v && b.id == old(b.id) && b.repetitions == old(b.repetitions)
  {
    var i := 0;
    while i < |blocks|
      modifies blocks
      invariant 0 <= i <= |blocks|
      invariant forall j :: 0 <= j < i ==> blocks[j].velocity == v
      invariant forall b :: b in blocks ==> b.id == old(b.id) && b.repetitions == old(b.repetitions)
    {
      blocks[i].velocity := v;
      i := i + 1;
    }
  }

  /** The volume signal of every block: each arpeggiator takes its block's velocity, here `v`. */
  method PropagateVelocities(blocks: seq<ArpeggiatorBlockWidget>, v: int)
    requires SeparateArps(blocks)
    requires forall b :: b in blocks ==> b.velocity == v
    modifies set b | b in blocks :: b.arpWidget.arp
    ensures forall j :: 0 <= j < |blocks| ==> blocks[j].Settings() == old(blocks[j].Settings()).(velocity := v)
  {
    var i := 0;
    while i < |blocks|
      invariant 0 <= i <= |blocks|
      invariant forall j :: 0 <= j < i ==> blocks[j].Settings() == old(blocks[j].Settings()).(velocity := v)
      invariant forall j :: i <= j < |blocks| ==> blocks[j].Settings() == old(blocks[j].Settings())
    {
      blocks[i].arpWidget.ChangeArpVolume(blocks[i].velocity);
      i := i + 1;
    }
  }

  /** The loop of `get_all_arpeggios` over blocks whose ids are their positions. */
  method CollectArpeggios(rowId: int, blocks: seq<ArpeggiatorBlockWidget>, ghost configs: seq<Config>,
                          bpm: real, instrument: int, draws: seq<seq<nat>>)
    returns (allNotes: seq<Message>, totalTime: real)
    requires |blocks| == |configs| && AllPlayable(configs, bpm)
    requires forall i :: 0 <= i < |blocks| ==> blocks[i].id == i && blocks[i].Settings() == configs[i]
    ensures allNotes == RowTrack(rowId, configs, bpm, instrument, draws)
    ensures totalTime == RowTime(configs, bpm, draws)
  {
    allNotes := [];
    totalTime := 0.0;
    var i := 0;
    while i < |blocks|
      invariant 0 <= i <= |blocks|
      invariant forall j :: 0 <= j < |blocks| ==> blocks[j].id == j && blocks[j].Settings() == configs[j]
      invariant allNotes == RowTrack(rowId, configs[..i], bpm, instrument, draws)
      invariant totalTime == RowTime(configs[..i], bpm, draws)
    {
      RowStep(rowId, configs, bpm, instrument, draws, i);
      var notes, duration := blocks[i].GetArpeggio(rowId, bpm, instrument, DrawsFor(draws, i));
      allNotes := allNotes + notes;
      totalTime := totalTime + duration;
      i := i + 1;
    }
    assert configs[..i] == configs;
  }

  /** `InstrumentRowContainer`. */
  class InstrumentRowContainer {
    const id: int
    var instrument: int
    /** The volume slider's value (the row's `velocity`). */
    var volume: int
    /** Whether the mute box is checked. */
    var mute: bool
    /** The data of the instrument box's entries. */
    const presets: seq<Preset>
    const arpPanel: InstrumentArpPanel
    const synth: SynthPlayer

    /** The settings of the row's blocks, in block order. */
    function BlockConfigs(): seq<Config>
      reads arpPanel, Editors(arpPanel.arpBlocks)
    {
      Configs(arpPanel.arpBlocks)
    }

    /**
      A new row: volume 64, not muted, one default block at that volume, and the program of
      the first instrument entry (or program 0, bank 0 when the box is empty) sent to the synth.
     */
    constructor (synth: SynthPlayer, rowId: int, presets: seq<Preset>)
      requires 0 <= rowId < |synth.instrumentBanks|
      modifies synth
      ensures this.synth == synth && id == rowId && this.presets == presets
      ensures volume == 64 && !mute && fresh(arpPanel) && arpPanel.Valid()
      ensures |arpPanel.arpBlocks| == 1 && arpPanel.arpQueue == [0] && arpPanel.arpQueueIdx == 0
      ensures arpPanel.arpBlocks[0].Settings() == DefaultConfig.(velocity := 64)
      ensures var p := ItemData(presets, if presets == [] then -1 else 0);
        && instrument == PresetProgram(p)
        && synth.calls == old(synth.calls) + [ProgramSelect(rowId, PresetBank(p), PresetProgram(p))]
        && synth.instrumentBanks == old(synth.instrumentBanks)[rowId := PresetBank(p)]
      ensures synth.interruptFlag == old(synth.interruptFlag) && synth.hasMarkerHandler == old(synth.hasMarkerHandler)
    {
      this.synth := synth;
      id := rowId;
      instrument := 0;
      volume := 64;
      mute := false;
      this.presets := presets;
      arpPanel := new InstrumentArpPanel(64);
      new;
      ChangeInstrument(if presets == [] then -1 else 0);
    }

    /** `change_instrument(index)`: the program and bank of the chosen entry, sent to the synth. */
    method ChangeInstrument(index: int)
      requires 0 <= id < |synth.instrumentBanks|
      modifies this, synth
      ensures volume == old(volume) && mute == old(mute)
      ensures var p := ItemData(presets, index);
        && instrument == PresetProgram(p)
        && synth.calls == old(synth.calls) + [ProgramSelect(id, PresetBank(p), PresetProgram(p))]
        && synth.instrumentBanks == old(synth.instrumentBanks)[id := PresetBank(p)]
      ensures synth.interruptFlag == old(synth.interruptFlag) && synth.hasMarkerHandler == old(synth.hasMarkerHandler)
    {
      var preset := ItemData(presets, index);
      var bank;
      if preset.DictPreset? {
        instrument := preset.program;
        bank := if preset.bank.Some? then preset.bank.value else 0;
      } else {
        instrument := if preset.IntPreset? then preset.value else 0;
        bank := 0;
      }
      synth.ChangeInstrument(id, instrument, bank);
    }

    /**
      `update_arp_volumes`: every block takes the slider's value, then (through the volume
      signal) every arpeggiator takes its block's velocity; nothing else changes.
     */
    method UpdateArpVolumes()
      requires arpPanel.Valid()
      modifies arpPanel.arpBlocks, set b | b in arpPanel.arpBlocks :: b.arpWidget.arp
      ensures arpPanel.Valid()
      ensures forall b :: b in arpPanel.arpBlocks ==>
        && b.velocity == volume && b.repetitions == old(b.repetitions)
        && b.Settings() == old(b.Settings()).(velocity := volume)
    {
      SetVelocities(arpPanel.arpBlocks, volume);
      PropagateVelocities(arpPanel.arpBlocks, volume);
    }

    /** `get_play_time(bpm)`: the sum of the blocks' play times, positive exactly when there is a block. */
    function GetPlayTime(bpm: real): (t: real)
      reads arpPanel, Editors(arpPanel.arpBlocks)
      requires bpm > 0.0 && PositiveRates(BlockConfigs())
      ensures t >= 0.0 && (t > 0.0 <==> arpPanel.arpBlocks != [])
    {
      TotalPlayTimeSign(BlockConfigs(), bpm);
      TotalPlayTime(BlockConfigs(), bpm)
    }

    /**
      `get_all_arpeggios(bpm)`: every block's marked arpeggio once, in block order, and the sum
      of the durations they return. The `i`-th block draws from `draws[i]`.
     */
    method GetAllArpeggios(bpm: real, draws: seq<seq<nat>>) returns (allNotes: seq<Message>, totalTime: real)
      requires forall i :: 0 <= i < |arpPanel.arpBlocks| ==> arpPanel.arpBlocks[i].id == i
      requires AllPlayable(BlockConfigs(), bpm)
      ensures allNotes == RowTrack(id, old(BlockConfigs()), bpm, instrument, draws)
      ensures totalTime == RowTime(old(BlockConfigs()), bpm, draws)
    {
      allNotes, totalTime := CollectArpeggios(id, arpPanel.arpBlocks, BlockConfigs(), bpm, instrument, draws);
    }
  }
}
