/**
  The messages an arpeggio track is made of (mido's `Message` and `MetaMessage` as the
  program uses them). `time` is a delta: seconds since the previous message of the same track.
 */
module Midi {
  datatype Message =
    | ProgramChange(program: int, time: real)
    | ControlChange(control: int, value: int, time: real)
    | NoteOn(note: int, velocity: int, time: real)
    | NoteOff(note: int, velocity: int, time: real)
    | Marker(text: string, time: real)

  /** The length of a track in seconds: the sum of its deltas. */
  function DeltaSum(track: seq<Message>): real {
    if track == [] then 0.0 else DeltaSum(track[..|track| - 1]) + track[|track| - 1].time
  }

  predicate NonNegativeDeltas(track: seq<Message>) {
    forall i :: 0 <= i < |track| ==> track[i].time >= 0.0
  }

  lemma {:induction false} DeltaSumAppend(a: seq<Message>, b: seq<Message>)
    ensures DeltaSum(a + b) == DeltaSum(a) + DeltaSum(b)
    decreases |b|
  {
    if b == [] {
      assert a + b == a;
    } else {
      var ab := a + b;
      assert ab[..|ab| - 1] == a + b[..|b| - 1];
      assert ab[|ab| - 1] == b[|b| - 1];
      DeltaSumAppend(a, b[..|b| - 1]);
    }
  }

  /** Joining two tracks adds their lengths and keeps deltas non-negative. */
  lemma JoinTiming(a: seq<Message>, b: seq<Message>)
    requires NonNegativeDeltas(a) && NonNegativeDeltas(b)
    ensures NonNegativeDeltas(a + b)
    ensures DeltaSum(a + b) == DeltaSum(a) + DeltaSum(b)
  {
    DeltaSumAppend(a, b);
    assert forall i :: 0 <= i < |a + b| ==> (a + b)[i] == if i < |a| then a[i] else b[i - |a|];
  }
}
