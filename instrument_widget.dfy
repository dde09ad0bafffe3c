/**
  An instrument row as instrument_widget.py builds it: blocks, the repetition queue and its
  cursor, the row's program, and the walk through the queue that picks the next arpeggio.
 */
module InstrumentRow {
  import opened Midi
  import opened Arp
  import opened ArpWidget
  import opened Queue
  import opened ArpRow
  import opened Synth

  /** The programs behind the entries of the instrument box: piano, guitar, flute. */
  const ComboPrograms: seq<int> := [0, 24, 73]

  /** `InstrumentRowWidget`. */
  class InstrumentRowWidget {
    const id: int
    var instrument: int
    var arpBlocks: seq<ArpeggiatorBlockWidget>
    var arpQueue: seq<int>
    var arpQueueIdx: int
    const synth: SynthPlayer

    predicate Valid()
      reads this, arpBlocks
    {
      StripValid(arpBlocks, arpQueue, arpQueueIdx)
    }

    /** A new row plays the piano and holds one default block, queued once, with the cursor on it. */
    constructor (synth: SynthPlayer, rowId: int)
      ensures this.synth == synth && id == rowId && instrument == 0
      ensures Valid() && |arpBlocks| == 1 && arpQueue == [0] && arpQueueIdx == 0
      ensures arpBlocks[0].repetitions == 1 && arpBlocks[0].Settings() == DefaultConfig
    {
      this.synth := synth;
      id := rowId;
      instrument := 0;
      arpBlocks := [];
      arpQueue := [];
      arpQueueIdx := 0;
      new;
      AddArpeggiatorBlock(1);
    }

    /**
      `add_arpeggiator_block(repetitions)`: a default block whose id is its position, queued
      `repetitions` times after the existing entries; the cursor stays.
     */
    method AddArpeggiatorBlock(repetitions: nat)
      requires Valid()
      modifies this
      ensures Valid() && instrument == old(instrument)
      ensures |arpBlocks| == |old(arpBlocks)| + 1 && arpBlocks[..|old(arpBlocks)|] == old(arpBlocks)
      ensures var b := arpBlocks[|old(arpBlocks)|];
        && fresh(b) && fresh(b.arpWidget) && fresh(b.arpWidget.arp)
        && b.id == |old(arpBlocks)| && b.repetitions == repetitions && b.Settings() == DefaultConfig
      ensures arpQueue == old(arpQueue) + Repeat(|old(arpBlocks)|, repetitions)
      ensures arpQueueIdx == old(arpQueueIdx)
    {
      var arpId := |arpBlocks|;
      var block := new ArpeggiatorBlockWidget(arpId, DefaultConfig, repetitions);
      arpBlocks := arpBlocks + [block];
      var k := 0;
      while k < repetitions
        modifies this
        invariant 0 <= k <= repetitions && instrument == old(instrument)
        invariant arpBlocks == old(arpBlocks) + [block]
        invariant arpQueue == old(arpQueue) + Repeat(arpId, k)
        invariant arpQueueIdx == old(arpQueueIdx)
      {
        arpQueue := arpQueue + [arpId];
        k := k + 1;
      }
      assert arpBlocks[..arpId] == old(arpBlocks);
      RepeatAt(arpId, repetitions);
    }

    /** `change_instrument(index)`: the program of the chosen entry, sent to the synth in bank 0. */
    method ChangeInstrument(index: nat)
      requires index < |ComboPrograms| && 0 <= id < |synth.instrumentBanks|
      modifies this, synth
      ensures instrument == ComboPrograms[index]
      ensures arpBlocks == old(arpBlocks) && arpQueue == old(arpQueue) && arpQueueIdx == old(arpQueueIdx)
      ensures synth.calls == old(synth.calls) + [ProgramSelect(id, 0, ComboPrograms[index])]
      ensures synth.instrumentBanks == old(synth.instrumentBanks)[id := 0]
      ensures synth.interruptFlag == old(synth.interruptFlag) && synth.hasMarkerHandler == old(synth.hasMarkerHandler)
    {
      instrument := ComboPrograms[index];
      synth.ChangeInstrument(id, instrument, 0);
    }

    /**
      `get_next_arpeggio(bpm)`: the arpeggio of the block under the cursor, marked with this
      row's id, after which the cursor moves one place on and wraps to 0 at the end of the queue.
      The row supplies its own id here: its blocks are built without a parent, so the parent
      chain the block's marker reads is not there.
     */
    method GetNextArpeggio(bpm: real, draws: seq<nat>) returns (track: seq<Message>, time: real)
      requires Valid() && arpQueue != []
      requires Playable(arpBlocks[arpQueue[arpQueueIdx]].Settings(), bpm)
      modifies this
      ensures Valid() && arpQueueIdx == NextCursor(old(arpQueueIdx), |arpQueue|) && arpQueueIdx < |arpQueue|
      ensures arpBlocks == old(arpBlocks) && arpQueue == old(arpQueue) && instrument == old(instrument)
      ensures var b := arpQueue[old(arpQueueIdx)];
        && track == BlockTrack(id, b, arpBlocks[b].Settings(), bpm, instrument, draws)
        && time == ArpeggioTime(arpBlocks[b].Settings(), bpm, draws)
    {
      var arpId := arpQueue[arpQueueIdx];
      track, time := arpBlocks[arpId].GetArpeggio(id, bpm, instrument, draws);
      arpQueueIdx := arpQueueIdx + 1;
      if arpQueueIdx >= |arpQueue| {
        arpQueueIdx := 0;
      }
    }

    /** `get_play_time(bpm)`: the play times of the blocks, each counted once, added up. */
    method GetPlayTime(bpm: real) returns (playTime: real)
      requires bpm > 0.0 && PositiveRates(Configs(arpBlocks))
      ensures playTime == TotalPlayTime(Configs(arpBlocks), bpm)
    {
      ghost var configs := Configs(arpBlocks);
      playTime := 0.0;
      var i := 0;
      while i < |arpBlocks|
        invariant 0 <= i <= |arpBlocks|
        invariant playTime == TotalPlayTime(configs[..i], bpm)
      {
        assert configs[i] == arpBlocks[i].Settings();
        assert configs[i].rate > 0.0;
        TotalPlayTimeStep(configs, bpm, i);
        var t := arpBlocks[i].GetPlayTime(bpm);
        assert t == PlayTime(configs[i], bpm);
        playTime := playTime + t;
        i := i + 1;
      }
      assert i == |configs|;
      assert configs[..i] == configs;
      assert playTime == TotalPlayTime(configs, bpm);
      assert configs == Configs(arpBlocks);
    }
  }
}
