/**
  One pass of the playback loop (playback_thread.py): one track per row, muted rows silent,
  handed to the synth while the thread is still running; and `stop`.
 */
module Playback {
  import opened Midi
  import opened Arp
  import opened ArpRow
  import opened Synth
  import opened RowContainer

  /** The track a row contributes to one pass: nothing when muted, else all its blocks once. */
  function Contribution(mute: bool, rowId: int, configs: seq<Config>, bpm: real, instrument: int, draws: seq<seq<nat>>): seq<Message>
    requires AllPlayable(configs, bpm)
  {
    if mute then [] else RowTrack(rowId, configs, bpm, instrument, draws)
  }

  /** The random draws of the `i`-th row (none when the list runs out). */
  function RowDraws(draws: seq<seq<seq<nat>>>, i: nat): seq<seq<nat>> {
    if i < |draws| then draws[i] else []
  }

  /**
    In the merged stream, the events on channel `i` are exactly row `i`'s track in its own
    order: none when the row is muted, and all of them within the row's play time.
   */
  lemma RowOnItsChannel(tracks: seq<seq<Message>>, i: nat, mute: bool, rowId: int, configs: seq<Config>,
                        bpm: real, instrument: int, draws: seq<seq<nat>>)
    requires i < |tracks| && AllPlayable(configs, bpm)
    requires forall k :: 0 <= k < |configs| ==> 0.0 <= configs[k].noteLength <= 1.0
    requires tracks[i] == Contribution(mute, rowId, configs, bpm, instrument, draws)
    ensures var own := Select(Merged(tracks), OnChannel(i));
      && own == TrackEvents(tracks[i], i)
      && (mute ==> own == [])
      && forall k :: 0 <= k < |own| ==> 0.0 <= own[k].time <= TotalPlayTime(configs, bpm)
  {
    RowTiming(rowId, configs, bpm, instrument, draws);
    MergedTrackOrder(tracks, i);
    TrackEventsSorted(tracks[i], i);
    TotalPlayTimeSign(configs, bpm);
    var own := TrackEvents(tracks[i], i);
    forall k | 0 <= k < |own|
      ensures 0.0 <= own[k].time
    {
      TrackEventsAt(tracks[i], i, k);
      PrefixDeltaSum(tracks[i], k + 1);
    }
  }

  /** The prefix of a track with no negative delta lasts no negative time. */
  lemma {:induction false} PrefixDeltaSum(track: seq<Message>, n: nat)
    requires n <= |track| && NonNegativeDeltas(track)
    ensures DeltaSum(track[..n]) >= 0.0
    decreases n
  {
    if n > 0 {
      PrefixDeltaSum(track, n - 1);
      assert track[..n][..n - 1] == track[..n - 1];
    }
  }

  /** `PlaybackThread`. */
  class PlaybackThread {
    const instrumentRows: seq<InstrumentRowContainer>
    const synth: SynthPlayer
    var running: bool

    constructor (instrumentRows: seq<InstrumentRowContainer>, synth: SynthPlayer)
      ensures this.instrumentRows == instrumentRows && this.synth == synth && !running
    {
      this.instrumentRows := instrumentRows;
      this.synth := synth;
      running := false;
    }

    /**
      The tracks of one pass: row `i`'s contribution, in row order. A row that is not muted
      contributes what `get_all_arpeggios` returns for it (`InstrumentRowContainer.GetAllArpeggios`
      is proved to return `RowTrack` of its blocks).
     */
    method BuildTracks(bpm: real, draws: seq<seq<seq<nat>>>) returns (midiTracks: seq<seq<Message>>)
      requires forall i :: 0 <= i < |instrumentRows| ==> AllPlayable(instrumentRows[i].BlockConfigs(), bpm)
      ensures |midiTracks| == |instrumentRows|
      ensures forall i :: 0 <= i < |instrumentRows| ==>
        var row := instrumentRows[i];
        midiTracks[i] == old(Contribution(row.mute, row.id, row.BlockConfigs(), bpm, row.instrument, RowDraws(draws, i)))
    {
      midiTracks := [];
      var i := 0;
      while i < |instrumentRows|
        invariant 0 <= i <= |instrumentRows|
        invariant |midiTracks| == i
        invariant forall j :: 0 <= j < i ==>
          var row := instrumentRows[j];
          midiTracks[j] == Contribution(row.mute, row.id, row.BlockConfigs(), bpm, row.instrument, RowDraws(draws, j))
      {
        var row := instrumentRows[i];
        var track := if row.mute then [] else RowTrack(row.id, row.BlockConfigs(), bpm, row.instrument, RowDraws(draws, i));
        midiTracks := midiTracks + [track];
        i := i + 1;
      }
    }

    /**
      One pass of `run`'s loop at tempo `bpm` (read once): row `i` contributes track `i`, which
      becomes channel `i`; the tracks are played only if the thread is still running, with a
      concurrent interrupt landing before event `interruptAt`.
     */
    method RunIteration(bpm: real, draws: seq<seq<seq<nat>>>, interruptAt: nat) returns (midiTracks: seq<seq<Message>>)
      requires forall i :: 0 <= i < |instrumentRows| ==> AllPlayable(instrumentRows[i].BlockConfigs(), bpm)
      requires |instrumentRows| <= |synth.instrumentBanks|
      modifies synth
      ensures running == old(running)
      ensures synth.instrumentBanks == old(synth.instrumentBanks)
      ensures synth.hasMarkerHandler == old(synth.hasMarkerHandler)
      ensures |midiTracks| == |instrumentRows|
      ensures forall i :: 0 <= i < |instrumentRows| ==>
        var row := instrumentRows[i];
        midiTracks[i] == old(Contribution(row.mute, row.id, row.BlockConfigs(), bpm, row.instrument, RowDraws(draws, i)))
      ensures running ==>
        var merged := Merged(midiTracks);
        && (forall i :: 0 <= i < |merged| ==> BankKnown(merged[i], synth.instrumentBanks))
        && synth.calls == old(synth.calls)
             + DispatchAll(merged[..StopIndex(|merged|, old(synth.interruptFlag), interruptAt)],
                           synth.instrumentBanks, synth.hasMarkerHandler)
        && synth.interruptFlag == (old(synth.interruptFlag) && merged == [])
      ensures !running ==> synth.calls == old(synth.calls) && synth.interruptFlag == old(synth.interruptFlag)
    {
      midiTracks := BuildTracks(bpm, draws);
      if running {
        assert BanksCover(midiTracks, synth.instrumentBanks);
        synth.PlayMidi(midiTracks, interruptAt);
      }
    }

    /** `stop`: the loop is told to end, the synth to interrupt, and every note is switched off. */
    method Stop()
      modifies this, synth
      ensures !running && synth.interruptFlag
      ensures synth.calls == old(synth.calls) + Sweep(synth.maxRows)
      ensures synth.instrumentBanks == old(synth.instrumentBanks)
      ensures synth.hasMarkerHandler == old(synth.hasMarkerHandler)
    {
      running := false;
      synth.Interrupt();
      synth.StopAllSounds();
    }
  }
}
