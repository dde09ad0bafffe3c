/**
  The synthesizer front end (synthplayer.py). The audio engine is not modelled: every call
  the program makes into it (and into the marker callback) is appended to a log, so the
  model states which calls are made and in what order. `play_midi` merges the row tracks into
  one stream ordered by absolute time and turns each message into calls.
 */
module Synth {
  import opened Midi

  /** The calls the player makes, in the order it makes them. */
  datatype SynthCall =
    | ProgramSelect(channel: int, bank: int, program: int)
    | NoteOnCall(channel: int, note: int, velocity: int)
    | NoteOffCall(channel: int, note: int)
    | ControlCall(channel: int, control: int, value: int)
    | MarkerShown(text: string)

  /** An entry of `all_events`: absolute time, channel (the index of its track), message. */
  datatype Event = Event(time: real, channel: nat, msg: Message)

  /** The controls `play_midi` forwards: modulation, reverb, chorus. */
  const ModulationControl: int := 1
  const ReverbControl: int := 91
  const ChorusControl: int := 93

  /** `range(128)`: the MIDI note numbers. */
  const NoteCount: nat := 128

  // ---------------------------------------------------------------------------------------
  // Merging the tracks
  // ---------------------------------------------------------------------------------------

  /** The events of one track: each message at the running sum of the deltas up to it. */
  function TrackEvents(track: seq<Message>, channel: nat): (r: seq<Event>)
    ensures |r| == |track|
    ensures forall i :: 0 <= i < |r| ==> r[i].channel == channel && r[i].msg == track[i]
  {
    if track == [] then []
    else TrackEvents(track[..|track| - 1], channel) + [Event(DeltaSum(track), channel, track[|track| - 1])]
  }

  /** The total number of messages. */
  function TotalLength(tracks: seq<seq<Message>>): nat {
    if tracks == [] then 0 else TotalLength(tracks[..|tracks| - 1]) + |tracks[|tracks| - 1]|
  }

  /** `all_events` before the sort: the events of track 0, then of track 1, and so on. */
  function Events(tracks: seq<seq<Message>>): (r: seq<Event>)
    ensures |r| == TotalLength(tracks)
  {
    if tracks == [] then []
    else Events(tracks[..|tracks| - 1]) + TrackEvents(tracks[|tracks| - 1], |tracks| - 1)
  }

  /** Every event is on the channel of a track and carries a message of that track. */
  lemma {:induction false} EventsFrom(tracks: seq<seq<Message>>)
    ensures forall i :: 0 <= i < |Events(tracks)| ==>
      Events(tracks)[i].channel < |tracks| && Events(tracks)[i].msg in tracks[Events(tracks)[i].channel]
    decreases |tracks|
  {
    if tracks != [] {
      var n := |tracks|;
      var front, last := tracks[..n - 1], TrackEvents(tracks[n - 1], n - 1);
      var evs := Events(tracks);
      EventsFrom(front);
      assert evs == Events(front) + last;
      forall i | 0 <= i < |evs|
        ensures evs[i].channel < n && evs[i].msg in tracks[evs[i].channel]
      {
        if i < |Events(front)| {
          assert evs[i] == Events(front)[i];
          assert front[evs[i].channel] == tracks[evs[i].channel];
        } else {
          assert evs[i] == last[i - |Events(front)|];
        }
      }
    }
  }

  /** The absolute time of a track's k-th event is the sum of its deltas up to and including it. */
  lemma {:induction false} TrackEventsAt(track: seq<Message>, channel: nat, k: nat)
    requires k < |track|
    ensures TrackEvents(track, channel)[k] == Event(DeltaSum(track[..k + 1]), channel, track[k])
    decreases |track|
  {
    if k == |track| - 1 {
      assert track[..k + 1] == track;
    } else {
      var front := track[..|track| - 1];
      TrackEventsAt(front, channel, k);
      assert front[..k + 1] == track[..k + 1];
    }
  }

  predicate TimeSorted(s: seq<Event>) {
    forall i, j :: 0 <= i < j < |s| ==> s[i].time <= s[j].time
  }

  /** With no negative delta a track's events come in time order, the last at the track's length. */
  lemma {:induction false} TrackEventsSorted(track: seq<Message>, channel: nat)
    requires NonNegativeDeltas(track)
    ensures TimeSorted(TrackEvents(track, channel))
    ensures forall i :: 0 <= i < |track| ==> TrackEvents(track, channel)[i].time <= DeltaSum(track)
    decreases |track|
  {
    if track != [] {
      var front := track[..|track| - 1];
      TrackEventsSorted(front, channel);
      assert DeltaSum(front) <= DeltaSum(track);
    }
  }

  /**
    `list.sort(key=time)` inserts an event before the first one that is not earlier, so equal
    times keep their order (the sort is stable).
   */
  function InsertByTime(e: Event, s: seq<Event>): (r: seq<Event>)
    ensures |r| == |s| + 1
  {
    if s == [] || e.time <= s[0].time then [e] + s
    else [s[0]] + InsertByTime(e, s[1..])
  }

  function SortByTime(s: seq<Event>): (r: seq<Event>)
    ensures |r| == |s|
  {
    if s == [] then [] else InsertByTime(s[0], SortByTime(s[1..]))
  }

  lemma {:induction false} InsertByTimePermutes(e: Event, s: seq<Event>)
    ensures multiset(InsertByTime(e, s)) == multiset{e} + multiset(s)
    decreases |s|
  {
    if s != [] && e.time > s[0].time {
      assert s == [s[0]] + s[1..];
      InsertByTimePermutes(e, s[1..]);
    }
  }

  lemma {:induction false} InsertByTimeSorted(e: Event, s: seq<Event>)
    requires TimeSorted(s)
    ensures TimeSorted(InsertByTime(e, s))
    ensures InsertByTime(e, s)[0] == e || (s != [] && InsertByTime(e, s)[0] == s[0])
    decreases |s|
  {
    if s != [] && e.time > s[0].time {
      InsertByTimeSorted(e, s[1..]);
    }
  }

  /** The merged list is sorted by time and holds exactly the events it was given. */
  lemma {:induction false} SortByTimeSpec(s: seq<Event>)
    ensures TimeSorted(SortByTime(s))
    ensures multiset(SortByTime(s)) == multiset(s)
    decreases |s|
  {
    if s != [] {
      assert s == [s[0]] + s[1..];
      SortByTimeSpec(s[1..]);
      InsertByTimePermutes(s[0], SortByTime(s[1..]));
      InsertByTimeSorted(s[0], SortByTime(s[1..]));
    }
  }

  /** The subsequence of the events that satisfy `p`, in their order. */
  function Select(s: seq<Event>, p: Event -> bool): (r: seq<Event>)
    ensures |r| <= |s|
    ensures forall i :: 0 <= i < |r| ==> p(r[i])
  {
    if s == [] then [] else (if p(s[0]) then [s[0]] else []) + Select(s[1..], p)
  }

  function AtTime(t: real): Event -> bool {
    (e: Event) => e.time == t
  }

  function OnChannel(c: nat): Event -> bool {
    (e: Event) => e.channel == c
  }

  lemma {:induction false} SelectAppend(a: seq<Event>, b: seq<Event>, p: Event -> bool)
    ensures Select(a + b, p) == Select(a, p) + Select(b, p)
    decreases |a|
  {
    if a == [] {
      assert a + b == b;
    } else {
      assert (a + b)[1..] == a[1..] + b;
      SelectAppend(a[1..], b, p);
    }
  }

  lemma {:induction false} SelectMember(s: seq<Event>, p: Event -> bool, x: Event)
    requires x in s && p(x)
    ensures x in Select(s, p)
    decreases |s|
  {
    if s[0] != x {
      SelectMember(s[1..], p, x);
    }
  }

  lemma {:induction false} SelectNone(s: seq<Event>, p: Event -> bool)
    requires forall i :: 0 <= i < |s| ==> !p(s[i])
    ensures Select(s, p) == []
    decreases |s|
  {
    if s != [] {
      SelectNone(s[1..], p);
    }
  }

  /**
    Inserting an event adds it at the front of the selected events, provided no selected event
    it passes over is later than it.
   */
  lemma {:induction false} InsertSelect(e: Event, s: seq<Event>, p: Event -> bool)
    requires p(e) ==> forall i :: 0 <= i < |s| && p(s[i]) ==> e.time <= s[i].time
    ensures Select(InsertByTime(e, s), p) == (if p(e) then [e] else []) + Select(s, p)
    decreases |s|
  {
    if s == [] || e.time <= s[0].time {
      assert ([e] + s)[1..] == s;
    } else {
      InsertSelect(e, s[1..], p);
      assert ([s[0]] + InsertByTime(e, s[1..]))[1..] == InsertByTime(e, s[1..]);
    }
  }

  /** Dropping the first event keeps a time-ordered selection time-ordered. */
  lemma SelectTailSorted(s: seq<Event>, p: Event -> bool)
    requires s != [] && TimeSorted(Select(s, p))
    ensures TimeSorted(Select(s[1..], p))
  {
    var sel, selRest := Select(s, p), Select(s[1..], p);
    var off := if p(s[0]) then 1 else 0;
    assert sel == (if p(s[0]) then [s[0]] else []) + selRest;
    forall i, j | 0 <= i < j < |selRest|
      ensures selRest[i].time <= selRest[j].time
    {
      assert selRest[i] == sel[i + off] && selRest[j] == sel[j + off];
    }
  }

  /** In a time-ordered selection that the first event opens, no later selected event precedes it. */
  lemma SelectHeadFirst(s: seq<Event>, p: Event -> bool, y: Event)
    requires s != [] && p(s[0]) && TimeSorted(Select(s, p))
    requires y in s[1..] && p(y)
    ensures s[0].time <= y.time
  {
    var sel, selRest := Select(s, p), Select(s[1..], p);
    assert sel == [s[0]] + selRest;
    SelectMember(s[1..], p, y);
    var j :| 0 <= j < |selRest| && selRest[j] == y;
    assert sel[0] == s[0] && sel[j + 1] == y;
  }

  /** Sorting keeps the relative order of any group of events that is already in time order. */
  lemma {:induction false} SortKeepsOrderOf(s: seq<Event>, p: Event -> bool)
    requires TimeSorted(Select(s, p))
    ensures Select(SortByTime(s), p) == Select(s, p)
    decreases |s|
  {
    if s != [] {
      var x, rest := s[0], s[1..];
      SelectTailSorted(s, p);
      var sorted := SortByTime(rest);
      SortKeepsOrderOf(rest, p);
      SortByTimeSpec(rest);
      if p(x) {
        forall i | 0 <= i < |sorted| && p(sorted[i])
          ensures x.time <= sorted[i].time
        {
          assert sorted[i] in multiset(rest);
          SelectHeadFirst(s, p, sorted[i]);
        }
      }
      InsertSelect(x, sorted, p);
    }
  }

  lemma {:induction false} SelectTrackEvents(track: seq<Message>, channel: nat, c: nat)
    ensures Select(TrackEvents(track, channel), OnChannel(c)) == if channel == c then TrackEvents(track, channel) else []
    decreases |track|
  {
    if track != [] {
      var front := track[..|track| - 1];
      var last := Event(DeltaSum(track), channel, track[|track| - 1]);
      SelectTrackEvents(front, channel, c);
      SelectAppend(TrackEvents(front, channel), [last], OnChannel(c));
      assert [last][1..] == [];
    }
  }

  /** The events on channel `c` are exactly the events of track `c`, in track order. */
  lemma {:induction false} EventsOnChannel(tracks: seq<seq<Message>>, c: nat)
    requires c < |tracks|
    ensures Select(Events(tracks), OnChannel(c)) == TrackEvents(tracks[c], c)
    decreases |tracks|, 1
  {
    var n := |tracks|;
    SelectAppend(Events(tracks[..n - 1]), TrackEvents(tracks[n - 1], n - 1), OnChannel(c));
    SelectTrackEvents(tracks[n - 1], n - 1, c);
    if c == n - 1 {
      NoEventsBeyond(tracks[..n - 1], c);
    } else {
      EventsOnEarlierChannel(tracks, c);
    }
  }

  lemma {:induction false} EventsOnEarlierChannel(tracks: seq<seq<Message>>, c: nat)
    requires c < |tracks| - 1
    ensures Select(Events(tracks[..|tracks| - 1]), OnChannel(c)) == TrackEvents(tracks[c], c)
    decreases |tracks|, 0
  {
    var front := tracks[..|tracks| - 1];
    EventsOnChannel(front, c);
    assert front[c] == tracks[c];
  }

  lemma NoEventsBeyond(tracks: seq<seq<Message>>, c: nat)
    requires |tracks| <= c
    ensures Select(Events(tracks), OnChannel(c)) == []
  {
    EventsFrom(tracks);
    SelectNone(Events(tracks), OnChannel(c));
  }

  /** `all_events` after the sort. */
  function Merged(tracks: seq<seq<Message>>): seq<Event> {
    SortByTime(Events(tracks))
  }

  /**
    The merged list holds one event per message (Σ|track| of them), each with its track's
    channel, sorted by absolute time, and is a permutation of the collected events.
   */
  lemma MergedSpec(tracks: seq<seq<Message>>)
    ensures |Merged(tracks)| == TotalLength(tracks)
    ensures TimeSorted(Merged(tracks))
    ensures multiset(Merged(tracks)) == multiset(Events(tracks))
    ensures forall i :: 0 <= i < |Merged(tracks)| ==>
      Merged(tracks)[i].channel < |tracks| && Merged(tracks)[i].msg in tracks[Merged(tracks)[i].channel]
  {
    SortByTimeSpec(Events(tracks));
    EventsFrom(tracks);
    forall i | 0 <= i < |Merged(tracks)|
      ensures Merged(tracks)[i].channel < |tracks| && Merged(tracks)[i].msg in tracks[Merged(tracks)[i].channel]
    {
      assert Merged(tracks)[i] in multiset(Events(tracks));
    }
  }

  /** The sort is stable: events at the same time keep their order (track index, then in-track). */
  lemma MergedTies(tracks: seq<seq<Message>>, t: real)
    ensures Select(Merged(tracks), AtTime(t)) == Select(Events(tracks), AtTime(t))
  {
    SortKeepsOrderOf(Events(tracks), AtTime(t));
  }

  /** With no negative delta on a track, its messages keep their order in the merged list. */
  lemma MergedTrackOrder(tracks: seq<seq<Message>>, c: nat)
    requires c < |tracks| && NonNegativeDeltas(tracks[c])
    ensures Select(Merged(tracks), OnChannel(c)) == TrackEvents(tracks[c], c)
  {
    EventsOnChannel(tracks, c);
    TrackEventsSorted(tracks[c], c);
    SortKeepsOrderOf(Events(tracks), OnChannel(c));
  }

  // ---------------------------------------------------------------------------------------
  // Dispatch
  // ---------------------------------------------------------------------------------------

  /** `max(0, min(velocity, 127))`. */
  function Clamp(v: int): (r: int)
    ensures 0 <= r <= 127
    ensures 0 <= v <= 127 ==> r == v
    ensures v < 0 ==> r == 0
    ensures v > 127 ==> r == 127
  {
    if v < 0 then 0 else if v > 127 then 127 else v
  }

  predicate Forwarded(control: int) {
    control == ModulationControl || control == ReverbControl || control == ChorusControl
  }

  /** A program change looks up the bank of its channel, which must exist. */
  predicate BankKnown(e: Event, banks: seq<int>) {
    e.msg.ProgramChange? ==> e.channel < |banks|
  }

  /** The calls one event causes. */
  function Dispatch(e: Event, banks: seq<int>, hasMarkerHandler: bool): seq<SynthCall>
    requires BankKnown(e, banks)
  {
    var ch := e.channel;
    match e.msg
    case ProgramChange(program, _) => [ProgramSelect(ch, banks[ch], program)]
    case ControlChange(control, value, _) =>
      if Forwarded(control) then [ControlCall(ch, control, value)] else []
    case NoteOn(note, velocity, _) =>
      if note == 0 then [] else [NoteOnCall(ch, note, Clamp(velocity))]
    case Marker(text, _) => if hasMarkerHandler then [MarkerShown(text)] else []
    case NoteOff(note, _, _) =>
      [NoteOffCall(ch, note), ControlCall(ch, ModulationControl, 0),
       ControlCall(ch, ReverbControl, 0), ControlCall(ch, ChorusControl, 0)]
  }

  function DispatchAll(events: seq<Event>, banks: seq<int>, hasMarkerHandler: bool): seq<SynthCall>
    requires forall i :: 0 <= i < |events| ==> BankKnown(events[i], banks)
  {
    if events == [] then []
    else
      DispatchAll(events[..|events| - 1], banks, hasMarkerHandler)
        + Dispatch(events[|events| - 1], banks, hasMarkerHandler)
  }

  lemma DispatchAllStep(events: seq<Event>, i: nat, banks: seq<int>, hasMarkerHandler: bool)
    requires i < |events| && forall k :: 0 <= k < |events| ==> BankKnown(events[k], banks)
    ensures DispatchAll(events[..i + 1], banks, hasMarkerHandler)
      == DispatchAll(events[..i], banks, hasMarkerHandler) + Dispatch(events[i], banks, hasMarkerHandler)
  {
    assert events[..i + 1][..i] == events[..i];
  }

  /** What the synth may receive: no note-on on note 0, velocities in [0, 127], only controls 1, 91, 93. */
  predicate SafeCall(c: SynthCall) {
    && (c.NoteOnCall? ==> c.note != 0 && 0 <= c.velocity <= 127)
    && (c.ControlCall? ==> Forwarded(c.control))
  }

  /**
    Whatever the tracks hold, the synth never gets a note-on for note 0, a velocity outside
    [0, 127], or a control other than modulation, reverb and chorus (so the vibrato control 70
    of the arpeggio prelude never reaches it).
   */
  lemma {:induction false} DispatchAllSafe(events: seq<Event>, banks: seq<int>, hasMarkerHandler: bool)
    requires forall i :: 0 <= i < |events| ==> BankKnown(events[i], banks)
    ensures forall i :: 0 <= i < |DispatchAll(events, banks, hasMarkerHandler)| ==>
      SafeCall(DispatchAll(events, banks, hasMarkerHandler)[i])
    decreases |events|
  {
    if events != [] {
      DispatchAllSafe(events[..|events| - 1], banks, hasMarkerHandler);
    }
  }

  /** Each note-off event stops the note and then resets modulation, reverb and chorus on its channel. */
  lemma NoteOffResets(e: Event, banks: seq<int>, hasMarkerHandler: bool)
    requires e.msg.NoteOff?
    ensures var calls := Dispatch(e, banks, hasMarkerHandler);
      && |calls| == 4 && calls[0] == NoteOffCall(e.channel, e.msg.note)
      && forall k :: 1 <= k < 4 ==> calls[k].ControlCall? && calls[k].channel == e.channel && calls[k].value == 0
  {
  }

  /** Where the dispatch loop stops: at the first event that finds the interrupt flag set. */
  function StopIndex(n: nat, flagAtStart: bool, interruptAt: nat): (k: nat)
    ensures k <= n
  {
    if flagAtStart && n > 0 then 0 else if interruptAt < n then interruptAt else n
  }

  /** The program selects of the constructor: bank 0, program 0 on every channel, in order. */
  function ProgramResets(n: nat): (r: seq<SynthCall>)
    ensures |r| == n && forall ch :: 0 <= ch < n ==> r[ch] == ProgramSelect(ch, 0, 0)
  {
    if n == 0 then [] else ProgramResets(n - 1) + [ProgramSelect(n - 1, 0, 0)]
  }

  /** The note-offs of one channel for notes 0 .. n-1. */
  function RowSweep(channel: int, n: nat): seq<SynthCall> {
    if n == 0 then [] else RowSweep(channel, n - 1) + [NoteOffCall(channel, n - 1)]
  }

  /** `stop_all_sounds`: a note-off for every channel below `rows` and every note, channel by channel. */
  function Sweep(rows: nat): seq<SynthCall> {
    if rows == 0 then [] else Sweep(rows - 1) + RowSweep(rows - 1, NoteCount)
  }

  lemma {:induction false} RowSweepSpec(channel: int, n: nat)
    ensures |RowSweep(channel, n)| == n
    ensures forall k :: 0 <= k < n ==> RowSweep(channel, n)[k] == NoteOffCall(channel, k)
    decreases n
  {
    if n > 0 {
      RowSweepSpec(channel, n - 1);
    }
  }

  /**
    The sweep is only note-offs, 128 per channel, and it silences exactly every note of every
    channel below `rows`.
   */
  lemma {:induction false} SweepSpec(rows: nat)
    ensures |Sweep(rows)| == NoteCount * rows
    ensures forall i :: 0 <= i < |Sweep(rows)| ==> Sweep(rows)[i].NoteOffCall?
    ensures forall ch, note :: NoteOffCall(ch, note) in Sweep(rows) <==> 0 <= ch < rows && 0 <= note < NoteCount
    decreases rows
  {
    if rows > 0 {
      SweepSpec(rows - 1);
      RowSweepSpec(rows - 1, NoteCount);
      var front, row := Sweep(rows - 1), RowSweep(rows - 1, NoteCount);
      forall ch, note
        ensures NoteOffCall(ch, note) in front + row <==> 0 <= ch < rows && 0 <= note < NoteCount
      {
        if ch == rows - 1 && 0 <= note < NoteCount {
          assert row[note] == NoteOffCall(ch, note);
        }
      }
    }
  }

  // ---------------------------------------------------------------------------------------
  // The player
  // ---------------------------------------------------------------------------------------

  /** A program change on a channel needs that channel's bank entry. */
  predicate HasProgramChange(track: seq<Message>) {
    exists k :: 0 <= k < |track| && track[k].ProgramChange?
  }

  /** Every channel whose track holds a program change has a bank entry. */
  predicate BanksCover(tracks: seq<seq<Message>>, banks: seq<int>) {
    forall c :: 0 <= c < |tracks| && HasProgramChange(tracks[c]) ==> c < |banks|
  }

  /** Then every merged event can be dispatched. */
  lemma MergedBanksKnown(tracks: seq<seq<Message>>, banks: seq<int>)
    requires BanksCover(tracks, banks)
    ensures forall i :: 0 <= i < |Merged(tracks)| ==> BankKnown(Merged(tracks)[i], banks)
  {
    MergedSpec(tracks);
    forall i | 0 <= i < |Merged(tracks)|
      ensures BankKnown(Merged(tracks)[i], banks)
    {
      var e := Merged(tracks)[i];
      if e.msg.ProgramChange? {
        var k :| 0 <= k < |tracks[e.channel]| && tracks[e.channel][k] == e.msg;
        assert HasProgramChange(tracks[e.channel]);
      }
    }
  }

  /** The nested loops of `play_midi` that turn delta times into absolute times. */
  method CollectEvents(tracks: seq<seq<Message>>) returns (events: seq<Event>)
    ensures events == Events(tracks)
  {
    events := [];
    var channel := 0;
    while channel < |tracks|
      invariant 0 <= channel <= |tracks|
      invariant events == Events(tracks[..channel])
    {
      var track := tracks[channel];
      var absTime := 0.0;
      var k := 0;
      while k < |track|
        invariant 0 <= k <= |track|
        invariant absTime == DeltaSum(track[..k])
        invariant events == Events(tracks[..channel]) + TrackEvents(track[..k], channel)
      {
        assert track[..k + 1][..k] == track[..k];
        absTime := absTime + track[k].time;
        events := events + [Event(absTime, channel, track[k])];
        k := k + 1;
      }
      assert track[..k] == track;
      assert tracks[..channel + 1][..channel] == tracks[..channel];
      channel := channel + 1;
    }
    assert tracks[..channel] == tracks;
  }

  /** `SynthPlayer`: the call log stands for the fluidsynth instance and the marker callback. */
  class SynthPlayer {
    const maxRows: nat
    var interruptFlag: bool
    var instrumentBanks: seq<int>
    /** Whether `on_marker` has been set. */
    var hasMarkerHandler: bool
    var calls: seq<SynthCall>

    /** Every channel gets bank 0 and program 0; the flag is down and no marker handler is set. */
    constructor (maxRows: nat)
      ensures this.maxRows == maxRows && !interruptFlag && !hasMarkerHandler
      ensures |instrumentBanks| == maxRows && forall ch :: 0 <= ch < maxRows ==> instrumentBanks[ch] == 0
      ensures calls == ProgramResets(maxRows)
    {
      this.maxRows := maxRows;
      interruptFlag := false;
      instrumentBanks := seq(maxRows, _ => 0);
      hasMarkerHandler := false;
      calls := [];
      new;
      var ch := 0;
      while ch < maxRows
        invariant 0 <= ch <= maxRows
        invariant !interruptFlag && !hasMarkerHandler
        invariant |instrumentBanks| == maxRows && forall c :: 0 <= c < maxRows ==> instrumentBanks[c] == 0
        invariant calls == ProgramResets(ch)
      {
        calls := calls + [ProgramSelect(ch, 0, 0)];
        ch := ch + 1;
      }
    }

    /** `interrupt`: raises the flag and nothing else. */
    method Interrupt()
      modifies this
      ensures interruptFlag
      ensures calls == old(calls) && instrumentBanks == old(instrumentBanks)
      ensures hasMarkerHandler == old(hasMarkerHandler)
    {
      interruptFlag := true;
    }

    /** `change_instrument`: selects the program in the given bank and remembers the bank. */
    method ChangeInstrument(channel: nat, instrument: int, bank: int)
      requires channel < |instrumentBanks|
      modifies this
      ensures calls == old(calls) + [ProgramSelect(channel, bank, instrument)]
      ensures instrumentBanks == old(instrumentBanks)[channel := bank]
      ensures interruptFlag == old(interruptFlag) && hasMarkerHandler == old(hasMarkerHandler)
    {
      calls := calls + [ProgramSelect(channel, bank, instrument)];
      instrumentBanks := instrumentBanks[channel := bank];
    }

    /**
      `play_midi` without the waiting: merge, sort, then dispatch event by event. A concurrent
      `interrupt()` is modelled by `interruptAt`: it lands just before the event of that index
      (never, when that index is past the end). The first event that finds the flag raised
      lowers it and ends the call with nothing more dispatched; with no events the flag stays.
     */
    method PlayMidi(tracks: seq<seq<Message>>, interruptAt: nat)
      requires BanksCover(tracks, instrumentBanks)
      modifies this
      ensures instrumentBanks == old(instrumentBanks) && hasMarkerHandler == old(hasMarkerHandler)
      ensures var merged := Merged(tracks);
        && (forall i :: 0 <= i < |merged| ==> BankKnown(merged[i], instrumentBanks))
        && calls == old(calls) + DispatchAll(merged[..StopIndex(|merged|, old(interruptFlag), interruptAt)],
                                             instrumentBanks, hasMarkerHandler)
        && interruptFlag == (old(interruptFlag) && merged == [])
    {
      var events := CollectEvents(tracks);
      events := SortByTime(events);
      assert events == Merged(tracks);
      MergedBanksKnown(tracks, instrumentBanks);
      DispatchEvents(events, interruptAt);
    }

    /** The dispatch loop of `play_midi`, with its interrupt check before every event. */
    method DispatchEvents(events: seq<Event>, interruptAt: nat)
      requires forall i :: 0 <= i < |events| ==> BankKnown(events[i], instrumentBanks)
      modifies this
      ensures instrumentBanks == old(instrumentBanks) && hasMarkerHandler == old(hasMarkerHandler)
      ensures calls == old(calls) + DispatchAll(events[..StopIndex(|events|, old(interruptFlag), interruptAt)],
                                                instrumentBanks, hasMarkerHandler)
      ensures interruptFlag == (old(interruptFlag) && events == [])
    {
      ghost var stop := StopIndex(|events|, interruptFlag, interruptAt);
      var banks, flag, out := instrumentBanks, interruptFlag, [];
      var i := 0;
      while i < |events|
        modifies {}
        invariant 0 <= i <= stop
        invariant flag == (old(interruptFlag) && i == 0)
        invariant out == DispatchAll(events[..i], banks, hasMarkerHandler)
      {
        if i == interruptAt {
          flag := true;
        }
        if flag {
          flag := false;
          break;
        }
        DispatchAllStep(events, i, banks, hasMarkerHandler);
        out := out + Dispatch(events[i], banks, hasMarkerHandler);
        i := i + 1;
      }
      assert i == stop;
      calls := calls + out;
      interruptFlag := flag;
    }

    /** `stop_all_sounds`: the full note-off sweep over the player's channels. */
    method StopAllSounds()
      modifies this
      ensures calls == old(calls) + Sweep(maxRows)
      ensures interruptFlag == old(interruptFlag) && instrumentBanks == old(instrumentBanks)
      ensures hasMarkerHandler == old(hasMarkerHandler)
    {
      ghost var start := calls;
      var ch := 0;
      while ch < maxRows
        invariant 0 <= ch <= maxRows
        invariant calls == start + Sweep(ch)
        invariant interruptFlag == old(interruptFlag) && instrumentBanks == old(instrumentBanks)
        invariant hasMarkerHandler == old(hasMarkerHandler)
      {
        ghost var before := calls;
        var note := 0;
        while note < NoteCount
          invariant 0 <= note <= NoteCount
          invariant calls == before + RowSweep(ch, note)
          invariant interruptFlag == old(interruptFlag) && instrumentBanks == old(instrumentBanks)
          invariant hasMarkerHandler == old(hasMarkerHandler)
        {
          calls := calls + [NoteOffCall(ch, note)];
          assert calls == before + (RowSweep(ch, note) + [NoteOffCall(ch, note)]);
          note := note + 1;
        }
        assert calls == start + (Sweep(ch) + RowSweep(ch, NoteCount));
        ch := ch + 1;
      }
    }
  }
}
