# Loopeggiator core in Dafny

Loopeggiator is a looping arpeggiator. The screen holds instrument rows. Each row has a
volume, a mute box, an instrument, and a strip of arpeggiator blocks. Each block holds
settings such as rate, note length, ground note, mode and three variant offsets, plus a
repetition count. A playback thread asks every row for its arpeggios and merges the rows'
tracks into one time-ordered stream. The synth player dispatches that stream, one channel
per row. Projects are saved to and loaded from JSON documents.

This project models that core in Dafny and proves what it promises:

- `arp.dfy` (`Arp`): an arpeggiator's settings and `get_arpeggio`.
  - The note set and its ordering by mode (up, down, random or none).
  - The prelude and the note triples.
  - The durations, which are exact reals.
- `arp_widget.dfy` (`ArpWidget`): the arpeggiator editor and the block widget.
  - Chord classification and the chord buttons.
  - `set_variants`, the mode toggle and the velocity update.
  - The block's marker-prefixed arpeggio and play time.
- `queue.dfy` (`Queue`): the list algebra behind a row's block strip: the repetition queue,
  moves, removal with renumbering, and the wrap-around cursor.
- `arp_row.dfy` (`ArpRow`): `InstrumentArpPanel`, the block strip, as a class whose methods
  update the block list, the queue and the cursor in place.
- `instrument_widget.dfy` (`InstrumentRow`): the older `InstrumentRowWidget`, with its own
  strip and its queue cursor.
- `row_container.dfy` (`RowContainer`): `InstrumentRowContainer`, which covers instrument
  selection from presets, volume updates, play time and `get_all_arpeggios`.
- `synth.dfy` (`Synth`): `SynthPlayer`. The synth is a log of the calls made to it.
  - `play_midi`: delta times become absolute, all events are stably sorted by time, and
    each event is dispatched to synth calls, with an interrupt check before every event.
  - `change_instrument`, `interrupt` and `stop_all_sounds`.
- `playback.dfy` (`Playback`): one iteration of the playback loop, and `stop`.
- `spin_boxes.dfy` (`SpinBoxes`): the "mute" spin boxes' text codec and validation.
- `save_load.dfy` (`SaveLoad`): saving and loading a project as the tree of records a JSON
  document holds. This covers the file suffix, mode names, the defaults for missing keys
  and the save-then-load round trip.
- `decimal.dfy` (`Decimal`), `midi.dfy` (`Midi`) and `opt.dfy` (`Opt`) are support modules:
  - `Decimal`: Python's `str(int)` and `int(text)` on decimal text;
  - `Midi`: the MIDI messages used and their delta times;
  - `Opt`: an option type.

The random choices are parameters. `random.shuffle` is a Fisher-Yates shuffle driven by a
list of draws.

## Model

| member | source | states |
|---|---|---|
| Decimal.NatToString | custom_widgets.py:28 | `str` of a natural is a string of digits with no leading zero |
| Decimal.IntToString | custom_widgets.py:28 | `str(v)` is non-empty, starts with '-' exactly when v < 0, and is digits elsewhere |
| Decimal.ParseInt | custom_widgets.py:31 | `int(text)` succeeds exactly on digits, or a sign then digits; plain digits read as their value, and only a leading minus gives a negative value |
| Decimal.NatToStringRoundTrip | custom_widgets.py:28 | the digits of `str(n)` read back as n |
| Decimal.IntToStringRoundTrip | custom_widgets.py:28-31 | `int(str(v)) == v` for every integer |
| Decimal.IntToStringInjective | custom_widgets.py:28 | different integers render as different texts |
| Midi.DeltaSumAppend | instrument_row_container.py:90 | the length of two joined tracks is the sum of their lengths |
| Midi.JoinTiming | instrument_row_container.py:88-92 | `extend` keeps deltas non-negative and adds the tracks' lengths |
| Arp.VariantNotesAt | arp.py:60-66 | the variant loop adds one note per active slot, in slot order: ground+offset, or 0 for offset -99, as arp.py:63 tests |
| Arp.MutedVariantFinding | arp.py:61-66 | as written, a muted variant (-25) on ground note 24 gives note -1, outside MIDI's range, so the note set is [24, -1]; the intended reading gives the silent note 0 and the set [24, 0] |
| Arp.VariantNoteInRange | arp.py:61-66 | under the intended reading (-25 is silent), a ground note in 24..96 and an offset in -25..24 give a variant note in 0..127 |
| Arp.NoteSetInRange | arp.py:59-66 | under the intended reading, a ground note in the slider's range 24..96 and offsets in the offset box's range -25..24 give only notes in 0..127 |
| Arp.NoteSetsAgree | arp.py:59-66 | when no active slot holds -25 or -99, the intended note set equals the note set as written |
| Arp.NoteSetEmptyIff | arp.py:59-68 | the note set is empty iff the ground note is 47 and no slot is active |
| Arp.Sort | arp.py:86-88 | `sort()` keeps the number of notes |
| Arp.InsertPermutes | arp.py:86-88 | an insertion step adds exactly one element |
| Arp.InsertSorted | arp.py:86-88 | an insertion step keeps the list in order |
| Arp.SortSpec | arp.py:86-88 | `sort()` / `sort(reverse=True)` gives an ordered permutation of the notes |
| Arp.SwapPermutes | arp.py:90 | a shuffle swap keeps the multiset of notes |
| Arp.ShuffleFrom | arp.py:90 | the shuffle keeps the number of notes |
| Arp.ShuffleFromSpec | arp.py:90 | `random.shuffle` yields a permutation, for every sequence of draws |
| Arp.Ordered | arp.py:85-91 | ordering by mode keeps the number of notes |
| Arp.OrderedSpec | arp.py:85-91 | UP ascends, DOWN descends, RANDOM permutes, None keeps construction order; all permute the notes |
| Arp.OrderedDeterministic | arp.py:85-91 | only RANDOM consults the random draws |
| Arp.SilentArpeggio | arp.py:68-73 | an empty note set gives exactly two note-offs on note 0, at deltas 0 and (60/bpm)/rate, and no prelude |
| Arp.TriplesAt | arp.py:110-117 | each note gives three messages on its pitch: a start, a note-off after the note duration, a note-off after the rest of the slot |
| Arp.MutedTriples | arp.py:111-114 | when muted, every triple starts with a note-off |
| Arp.NoteTripleTiming | arp.py:115-117 | a triple lasts one slot, and its deltas are non-negative when the note fits the slot |
| Arp.TriplesTiming | arp.py:110-117 | N triples last N slots |
| Arp.ArpeggioShape | arp.py:49-52 | a non-empty arpeggio is program change, vibrato control (127 or 0), then 3 messages per note: 2+3N |
| Arp.ArpeggioMuted | arp.py:111-114 | a muted arpeggio holds no note-on |
| Arp.ArpeggioHasNoMarker | arp.py:49-121 | an arpeggio track carries no marker |
| Arp.ArpeggioDeterministic | arp.py:46-121 | without RANDOM, track and time do not depend on the draws |
| Arp.DurationsOrdered | arp.py:98-99 | for 0 <= note_length <= 1 the note duration lies in [0, max duration], and N slots make one full note |
| Arp.ArpeggioTiming | arp.py:98-117 | for 0 <= note_length <= 1 all deltas are non-negative and sum to (60/bpm)/rate, whatever N |
| Arp.RestTiming | arp.py:69-73 | the rest track's deltas are non-negative and sum to one full note |
| Arp.NotesTiming | arp.py:98-117 | a non-empty arpeggio's deltas are non-negative and sum to one full note |
| Arp.TotalTimeAgreement | arp.py:104-105 | the returned total time equals the track's length iff N·rate² = 1 |
| Arp.TotalTimeMismatch | arp.py:120 | rate 2, 60 bpm, one note: total time 2.0 but the track lasts 0.5 |
| Arp.Arpeggiator.constructor | arp.py:25-44 | a new arpeggiator holds the given settings |
| Arp.Arpeggiator.CollectNotes | arp.py:59-66 | the note loop builds the note set |
| Arp.Arpeggiator.GetArpeggio | arp.py:46-121 | `get_arpeggio` returns the specified track and total time |
| Arp.Arpeggiator.RestArpeggio | arp.py:68-73 | the early return for an empty note set |
| Arp.Arpeggiator.NotesArpeggio | arp.py:47-121 | prelude, ordering and note loop for a non-empty note set |
| Arp.Arpeggiator.PlayNotes | arp.py:98-121 | the durations, then the triples and `N·time_step` |
| Arp.Arpeggiator.OrderNotes | arp.py:85-91 | sort, reverse sort, shuffle or keep, by mode |
| Arp.Arpeggiator.EmitTriples | arp.py:110-121 | the note loop appends the triples and adds `time_step` per note |
| ArpWidget.Classify | arp_widget.py:786-796 | at most one of major, minor and pentatonic is flagged; major needs 4 and 7 active, minor 3 and 7 |
| ArpWidget.Rederive | arp_widget.py:784-819 | `update_chord_button_states` writes the classification into the first three chord flags and nothing else |
| ArpWidget.RederiveIdempotent | arp_widget.py:784-819 | re-deriving twice is re-deriving once |
| ArpWidget.RederiveShown | arp_widget.py:784-819 | flags that already show the classification are left unchanged |
| ArpWidget.ActiveOffsetsIff | arp_widget.py:786-792 | an offset is in the interval set exactly when one of the first three active slots holds it |
| ArpWidget.MajorMinorIff | arp_widget.py:799-800 | major iff not pentatonic and 4 and 7 are active; minor iff neither pentatonic nor major and 3 and 7 are active, that is, 3 and 7 without 4 |
| ArpWidget.PentaIff | arp_widget.py:787-796 | pentatonic iff all three slots are active with distinct offsets in {2,4,7,9,12,-3,-5,-7} |
| ArpWidget.Triad | arp_widget.py:744-748 | the patterns {0:[4,7], 1:[3,7], 2:[2,4,7]} |
| ArpWidget.LitFlags | arp_widget.py:753-757 | a press on lights exactly button `index` among the first three |
| ArpWidget.PatternActive | arp_widget.py:760-766 | slot i becomes active iff the pattern reaches it |
| ArpWidget.PatternValues | arp_widget.py:760-766 | slot i gets the pattern's entry, or 0 beyond it |
| ArpWidget.ChordApplied | arp_widget.py:753-777 | a press leaves three readable slots and chord flags |
| ArpWidget.PressChord | arp_widget.py:738-782 | after a press the chord flags show the classification |
| ArpWidget.PatternOffsets | arp_widget.py:760-766 | the offsets a pattern leaves active are exactly its entries |
| ArpWidget.TriadClassified | arp_widget.py:754-819 | each pattern is classified as its own chord |
| ArpWidget.ChordPressedOn | arp_widget.py:753-782 | pressing chord k on writes triad k, and the chord flags end one-hot at k |
| ArpWidget.ChordPressedOff | arp_widget.py:769-782 | pressing a chord off clears the three slots, and no chord flag stays set |
| ArpWidget.ChordPressFrame | arp_widget.py:738-782 | a press touches only the first three entries of the three lists |
| ArpWidget.SetVariantsSpec | arp_widget.py:874-923 | malformed lists leave everything unchanged; otherwise both lists are replaced and the chords re-derived |
| ArpWidget.SetVariantsSame | arp_widget.py:874-923 | loading the variants a block already holds only re-derives its chords |
| ArpWidget.ToggleMode | arp_widget.py:680-693 | clicking the current mode gives None, any other button gives its mode |
| ArpWidget.ToggleModeTwice | arp_widget.py:684-693 | two clicks on one button return to the start when that was its mode, else to None |
| ArpWidget.NoHash | arp_widget.py:203 | a decimal id holds no '#' |
| ArpWidget.FirstHashAfter | arp_widget.py:203 | in "<row>#<block>" the first '#' follows the row id |
| ArpWidget.BlockLabelInjective | arp_widget.py:203 | different (row, block) pairs have different marker texts |
| ArpWidget.BlockOfLabel | arp_widget.py:203 | the block id reads back from the text after the '#' |
| ArpWidget.BlockTrackShape | arp_widget.py:201-205 | a block's track is one marker "<row>#<block>" at time 0, then the arpeggio unchanged |
| ArpWidget.PlayTime | arp_widget.py:207-211 | the play time is one full note at the block's rate, and is positive |
| ArpWidget.BlockTiming | arp_widget.py:201-211 | a block's track lasts exactly its play time, with non-negative deltas |
| ArpWidget.BuildableReady | arp_widget.py:321-325 | settings the editor can be built from have a positive rate and are readable by the chord shortcuts |
| ArpWidget.ArpeggiatorWidget.constructor | arp_widget.py:244-478 | for a rate the slider offers and three entries in each slot and chord list (otherwise `ValueError` or `IndexError` is raised), the editor's arpeggiator holds the given settings |
| ArpWidget.ArpeggiatorWidget.UpdateChordButtonStates | arp_widget.py:784-819 | the chord flags are re-derived |
| ArpWidget.ArpeggiatorWidget.HandleChordButtonPressed | arp_widget.py:738-782 | the settings become `PressChord` of the old ones |
| ArpWidget.ArpeggiatorWidget.LightChord | arp_widget.py:751-757 | the chord flags loop of a press on |
| ArpWidget.ArpeggiatorWidget.WritePattern | arp_widget.py:759-775 | the slot loops write the pattern, or clear the slots |
| ArpWidget.ArpeggiatorWidget.SetVariants | arp_widget.py:874-923 | the settings become `SetVariantsSpec` of the old ones |
| ArpWidget.ArpeggiatorWidget.OnModeButtonClicked | arp_widget.py:680-693 | only the mode changes, to `ToggleMode` |
| ArpWidget.ArpeggiatorWidget.ChangeArpVolume | arp_widget.py:596-597 | only the velocity changes, to the block's |
| ArpWidget.ArpeggiatorBlockWidget.constructor | arp_widget.py:39-66 | for settings its editor can be built from, a new block with id, velocity, repetitions and those settings |
| ArpWidget.ArpeggiatorBlockWidget.GetArpeggio | arp_widget.py:201-205 | the marker-prefixed arpeggio, and the arpeggio's duration unchanged |
| ArpWidget.ArpeggiatorBlockWidget.GetPlayTime | arp_widget.py:207-211 | `(1 / rate) * (60 / bpm)` |
| Queue.Repeat | instrument_arp_row.py:43-44 | `[x] * n` has n entries |
| Queue.RepeatAt | instrument_arp_row.py:43-44 | every entry of `[x] * n` is x |
| Queue.RepeatCount | instrument_arp_row.py:79 | `[x] * n` holds x n times and nothing else |
| Queue.QueueOfOrdered | instrument_arp_row.py:76-80 | the rebuilt queue has Σ repetitions entries, each a block index, in block order |
| Queue.QueueOfCount | instrument_arp_row.py:76-80 | block i appears repetitions_i times, and no other index appears |
| Queue.IndexOf | instrument_arp_row.py:83 | `list.index` gives the first position holding the element |
| Queue.IndexOfDistinct | instrument_arp_row.py:83 | in a list without repetitions `index` finds the element's only position |
| Queue.SwapDown | instrument_arp_row.py:85 | the swap exchanges two neighbours and keeps the rest |
| Queue.MovesPermute | instrument_arp_row.py:82-96 | a move only reorders: same blocks, still distinct |
| Queue.SwapPermutes | instrument_arp_row.py:85 | a swap keeps the multiset |
| Queue.MoveLeftThenRight | instrument_arp_row.py:82-96 | moving left then right (when idx > 0) restores the order |
| Queue.MoveRightThenLeft | instrument_arp_row.py:82-96 | moving right then left (when idx < len-1) restores the order |
| Queue.RemoveAt | instrument_arp_row.py:104 | `list.remove` drops exactly the entry at the position and keeps the order |
| Queue.Denoted | instrument_arp_row.py:111-115 | the blocks a queue names, one per entry |
| Queue.RemapBounds | instrument_arp_row.py:111-115 | after a removal every queue entry names one of the remaining blocks |
| Queue.RenumberDenotes | instrument_arp_row.py:111-115 | a renumbered entry names the same block, or vanishes when it named the removed block |
| Queue.RemapDenotes | instrument_arp_row.py:111-115 | after removal the queue plays the same blocks in the same order, minus the removed one |
| Queue.DenotedAppend | instrument_arp_row.py:43-44 | appending queue entries appends the blocks they name |
| Queue.NextCursor | instrument_widget.py:153-155 | the advanced cursor stays below the queue length |
| Queue.CursorCycles | instrument_widget.py:146-155 | k steps move the cursor k entries on, cyclically |
| Queue.CursorReturns | instrument_widget.py:146-155 | len(queue) steps bring the cursor back to its start |
| ArpRow.Repetitions | instrument_arp_row.py:78-79 | the repetition counts of the blocks, in block order |
| ArpRow.Configs | instrument_row_container.py:88 | the blocks' settings, in block order |
| ArpRow.TotalPlayTimeStep | instrument_row_container.py:82-83 | the sum of play times grows by one block's play time |
| ArpRow.TotalPlayTimeSign | instrument_row_container.py:82-83 | the row's play time is >= 0, and > 0 iff the row has a block |
| ArpRow.InstrumentArpPanel.constructor | instrument_arp_row.py:9-25 | a new strip has one default block at the row's velocity, queue [0], cursor 0 |
| ArpRow.InstrumentArpPanel.AddBlock | instrument_arp_row.py:30-49 | the new block has id len(blocks); it is appended, and its id is queued `repetitions` times; earlier entries and the cursor stay |
| ArpRow.InstrumentArpPanel.RebuildQueue | instrument_arp_row.py:76-80 | the queue is [i]*repetitions_i in block order, and the cursor is 0 |
| ArpRow.InstrumentArpPanel.RebuildLayout | instrument_arp_row.py:69-70 | every block's id becomes its position |
| ArpRow.InstrumentArpPanel.MoveBlockLeft | instrument_arp_row.py:82-88 | swaps with the predecessor only when idx > 0, then rebuilds queue and ids; otherwise nothing changes |
| ArpRow.InstrumentArpPanel.MoveBlockRight | instrument_arp_row.py:90-96 | swaps with the successor only when idx < len-1, then rebuilds; otherwise nothing changes |
| ArpRow.InstrumentArpPanel.Rebuild | instrument_arp_row.py:86-87 | the queue is rebuilt and the ids renumbered |
| ArpRow.InstrumentArpPanel.RemoveBlock | instrument_arp_row.py:98-119 | an absent block changes nothing; otherwise the block goes, ids are renumbered, the queue is remapped, and a cursor past the end resets to 0 |
| InstrumentRow.InstrumentRowWidget.constructor | instrument_widget.py:100-110 | piano, one default block, queue [0], cursor 0 |
| InstrumentRow.InstrumentRowWidget.AddArpeggiatorBlock | instrument_widget.py:112-132 | appends a block with id len(blocks) and queues it `repetitions` times |
| InstrumentRow.InstrumentRowWidget.ChangeInstrument | instrument_widget.py:137-139 | the entry's program, sent to the synth in bank 0, and the row's bank recorded as 0; the blocks, queue and cursor stay, and so do the synth's interrupt flag and marker handler |
| InstrumentRow.InstrumentRowWidget.GetNextArpeggio | instrument_widget.py:141-157 | the arpeggio of the block under the cursor; the cursor advances and wraps |
| InstrumentRow.InstrumentRowWidget.GetPlayTime | instrument_widget.py:159-165 | the sum over the blocks (not the queue) of their play times |
| Synth.TrackEvents | synthplayer.py:55-59 | one event per message, on the track's channel |
| Synth.Events | synthplayer.py:54-59 | one event per message of every track: Σ\|track\| events |
| Synth.EventsFrom | synthplayer.py:54-59 | every event is on the channel of a track and carries a message of that track |
| Synth.TrackEventsAt | synthplayer.py:56-59 | an event's absolute time is the sum of its track's deltas up to and including it |
| Synth.TrackEventsSorted | synthplayer.py:56-59 | with non-negative deltas a track's events are in time order |
| Synth.InsertByTimePermutes | synthplayer.py:62 | an insertion step adds exactly one event |
| Synth.InsertByTimeSorted | synthplayer.py:62 | an insertion step keeps time order |
| Synth.SortByTimeSpec | synthplayer.py:62 | the sort gives a time-ordered permutation |
| Synth.Select | synthplayer.py:62 | a filter keeps only matching events |
| Synth.SelectAppend | synthplayer.py:62 | filtering distributes over concatenation |
| Synth.InsertSelect | synthplayer.py:62 | insertion places an event before later-or-equal events it matches |
| Synth.SortKeepsOrderOf | synthplayer.py:62 | the sort is stable: any group already in time order keeps its order |
| Synth.EventsOnChannel | synthplayer.py:55-59 | the events on channel c are exactly track c's events |
| Synth.MergedSpec | synthplayer.py:54-62 | the merged list has Σ\|track\| events, is time-ordered, and is a permutation of all events |
| Synth.MergedTies | synthplayer.py:62 | events at equal times keep track order, then in-track order |
| Synth.MergedTrackOrder | synthplayer.py:57-62 | with non-negative deltas a track's messages keep their order in the merged list |
| Synth.Clamp | synthplayer.py:94 | the result lies in [0, 127]; a value inside that range is kept, one below becomes 0 and one above becomes 127 (also the volume slider's range when a project is loaded) |
| Synth.DispatchAllSafe | synthplayer.py:79-106 | dispatch never calls noteon on note 0, clamps velocities to [0,127], and forwards only controls 1, 91 and 93 |
| Synth.NoteOffResets | synthplayer.py:100-104 | a note-off gives noteoff, then cc 1, 91 and 93 set to 0 on its channel |
| Synth.StopIndex | synthplayer.py:66-70 | dispatch stops at an event index no larger than the event count |
| Synth.ProgramResets | synthplayer.py:30-31 | program 0 in bank 0 on every channel, in channel order |
| Synth.RowSweepSpec | synthplayer.py:114-115 | the note-offs of one channel for notes 0..127, in order |
| Synth.SweepSpec | synthplayer.py:113-115 | `stop_all_sounds` sends 128·max_rows note-offs, exactly one per (channel, note) |
| Synth.MergedBanksKnown | synthplayer.py:79-81 | every program change in the merged list finds its channel's bank |
| Synth.CollectEvents | synthplayer.py:54-59 | the nested loops build the events track by track |
| Synth.SynthPlayer.constructor | synthplayer.py:15-32 | banks all 0, flag down, program 0 selected on every channel |
| Synth.SynthPlayer.Interrupt | synthplayer.py:34-35 | raises the flag and nothing else |
| Synth.SynthPlayer.ChangeInstrument | synthplayer.py:37-40 | one program select, and the channel's bank remembered |
| Synth.SynthPlayer.PlayMidi | synthplayer.py:47-106 | dispatches the merged events up to the first that finds the flag set; the flag ends down unless nothing was merged |
| Synth.SynthPlayer.DispatchEvents | synthplayer.py:66-106 | the dispatch loop with its interrupt check before each event |
| Synth.SynthPlayer.StopAllSounds | synthplayer.py:108-115 | appends the full note-off sweep |
| RowContainer.RowStep | instrument_row_container.py:88-91 | one more block appends its marked arpeggio and adds its duration |
| RowContainer.RowTiming | instrument_row_container.py:85-92 | a row's track has non-negative deltas and lasts exactly the row's play time |
| RowContainer.MarkersAppend | instrument_row_container.py:90 | joining tracks joins their markers |
| RowContainer.MarkersNone | instrument_row_container.py:89-90 | a track without marker messages has no markers |
| RowContainer.Labels | arp_widget.py:203 | one label per block |
| RowContainer.LeadingMarker | arp_widget.py:201-205 | a block's track carries exactly its own label |
| RowContainer.RowMarkers | instrument_row_container.py:85-92 | a row's track carries the markers "<row>#0", "<row>#1", ..., once each, in block order |
| RowContainer.LabelsDistinct | instrument_row_container.py:85-92 | a row's markers are pairwise different |
| RowContainer.LabelsAt | arp_widget.py:203 | the i-th label is "<row>#i" |
| RowContainer.InstrumentRowContainer.constructor | instrument_row_container.py:12-42 | volume 64, unmuted, one default block, and the first entry's program and bank sent to the synth; the synth records that bank for the row, and its interrupt flag and marker handler stay |
| RowContainer.InstrumentRowContainer.ChangeInstrument | instrument_row_container.py:69-80 | dict preset: its program and bank (default 0); int preset: that program, bank 0; anything else: 0, 0; always forwarded, with the row's bank recorded; volume, mute and the synth's interrupt flag and marker handler stay |
| RowContainer.SetVelocities | instrument_row_container.py:65-66 | every block's velocity becomes the slider's value; ids and repetitions stay |
| RowContainer.PropagateVelocities | instrument_row_container.py:67 | through the volume signal every arpeggiator takes its block's velocity, and nothing else in its settings changes |
| RowContainer.InstrumentRowContainer.UpdateArpVolumes | instrument_row_container.py:63-67 | every block and every arpeggiator takes the slider's volume; nothing else changes |
| RowContainer.InstrumentRowContainer.GetPlayTime | instrument_row_container.py:82-83 | the sum of block play times is >= 0, and > 0 iff there is a block |
| RowContainer.CollectArpeggios | instrument_row_container.py:86-92 | the loop over blocks whose ids are their positions returns every block's marked arpeggio once, in block order, and the sum of their durations |
| RowContainer.InstrumentRowContainer.GetAllArpeggios | instrument_row_container.py:85-92 | every block's marked arpeggio once, in block order, and the sum of their durations; nothing changes |
| Playback.RowOnItsChannel | playback_thread.py:23-40 | row i's events on channel i are its own track in order; a muted row has none; all fall in [0, play time] |
| Playback.PrefixDeltaSum | synthplayer.py:56-58 | a prefix of a track with non-negative deltas lasts no negative time |
| Playback.PlaybackThread.constructor | playback_thread.py:9-14 | a new thread is not running |
| Playback.PlaybackThread.BuildTracks | playback_thread.py:23-36 | one track per row, in row order: empty when muted, else the row's arpeggios |
| Playback.PlaybackThread.RunIteration | playback_thread.py:20-40 | the tracks of one pass; `play_midi` is called on them only while running, leaving the interrupt flag raised only if it was raised and nothing was merged; banks and marker handler stay |
| Playback.PlaybackThread.Stop | playback_thread.py:45-48 | not running, synth flag raised, full note-off sweep sent; banks and marker handler stay |
| SpinBoxes.Lower | custom_widgets.py:31 | `lower` maps A-Z to a-z and leaves other characters alone |
| SpinBoxes.LowerText | custom_widgets.py:31 | `text.lower()` lowers each character and keeps the length |
| SpinBoxes.LowerIsLetter | custom_widgets.py:31 | a character lowers to a given letter iff it is that letter in either case |
| SpinBoxes.MuteTextCases | custom_widgets.py:31 | text reads as "mute" iff it is those four letters in any case |
| SpinBoxes.NumberIsNotMute | custom_widgets.py:28 | no decimal text reads as "mute" |
| SpinBoxes.TextIsMuteIffSentinel | custom_widgets.py:27-28 | the box shows "mute" exactly for the sentinel |
| SpinBoxes.RoundTrip | custom_widgets.py:27-31 | `valueFromText(textFromValue(v)) == v` for every v |
| SpinBoxes.BoxesRoundTrip | custom_widgets.py:22-47 | the round trip over [-25, 24] with sentinel -25 and over [47, 72] with sentinel 47 |
| SpinBoxes.AnyCaseReadsSentinel | custom_widgets.py:30-31 | "mute" in any case reads as the sentinel |
| SpinBoxes.ValidateSpec | custom_widgets.py:33-36 | any-case "mute" is Acceptable with text and cursor unchanged; other text gets the base validation |
| SpinBoxes.ValidateNumber | custom_widgets.py:33-36 | a decimal number always gets the base validation |
| SaveLoad.JsonSuffixSpec | save_load.py:15-16 | the name ends in ".json"; ".json" is appended iff it was missing; a second pass changes nothing |
| SaveLoad.SaveFileNameSpec | save_load.py:8-16 | a cancelled dialog saves nothing; a chosen name is kept as the prefix of a ".json" name |
| SaveLoad.ModeRoundTrip | save_load.py:38 | UP, DOWN, RANDOM and None read back as themselves |
| SaveLoad.ModeFromNameSpec | save_load.py:105 | exactly the member names load as modes; anything else loads as None |
| SaveLoad.BlockRecords | save_load.py:31-48 | one entry per block, in block order |
| SaveLoad.RowRecords | save_load.py:23-50 | one entry per row, in row order |
| SaveLoad.SaveProject | save_load.py:18-50 | the document holds the tempo, and per row its mute, volume, instrument and every block's 13 settings, in order |
| SaveLoad.FirstWithProgram | save_load.py:87-91 | the first entry with the program; none exists when the search fails |
| SaveLoad.BlockLoadableSpec | save_load.py:99-127 | a block entry is loadable exactly when the editor can be built from its loaded settings (a rate the slider offers, three entries per list); the chord shortcuts can then read them |
| SaveLoad.LoadedBlocks | save_load.py:98-127 | one loaded block per entry |
| SaveLoad.AddedIndices | save_load.py:75-79 | only entries below the count are loaded |
| SaveLoad.LoadedRows | save_load.py:75-79 | one row per successfully added entry |
| SaveLoad.LoadedTempo | save_load.py:70 | the tempo a load sets lies in the tempo box's range 20..300: the document's tempo (60 when missing) when inside it, the nearer bound otherwise |
| SaveLoad.Workspace.LoadProject | save_load.py:70-127 | the intended load (see Left out): tempo from the document (default 60) clamped by the tempo box; old rows deleted; one loaded row per entry whose add succeeded |
| SaveLoad.LoadedInstrument | save_load.py:84-93 | a loaded row plays its saved program whenever the box offers it |
| SaveLoad.UnknownInstrument | save_load.py:87-93 | a program the box lacks selects entry 0 |
| SaveLoad.EmptyBlockIsDefault | save_load.py:98-123 | a block entry with no keys loads as a default block (rate 1.0, note length 0.2, ground 60, no mode, [0,0,0], all flags false) at the row's volume |
| SaveLoad.LoadedBlockShape | save_load.py:123-127 | every loaded block has the row's volume and chord flags that show its variants |
| SaveLoad.LoadedRowVolumes | save_load.py:81-124 | a loaded row keeps its entry's volume (as the slider takes it) on every block, one block per entry |
| SaveLoad.AddedIndicesSpec | save_load.py:75-79 | rows are made for exactly the entries whose add succeeded, each once, in order |
| SaveLoad.AllAdded | save_load.py:75-79 | when every add succeeds, entry i makes row i |
| SaveLoad.LoadedRowsAllAdded | save_load.py:75-79 | when every add succeeds, row i is entry i loaded |
| SaveLoad.BlockRoundTrip | save_load.py:31-127 | a saved block at the row's volume, with chord flags shown, reloads as itself |
| SaveLoad.BlockReloads | save_load.py:31-127 | any saved block reloads with its settings, at the row's volume, with chords re-derived |
| SaveLoad.RowRoundTrip | save_load.py:23-127 | a saved row reloads with its mute, volume, instrument and blocks in order |
| SaveLoad.ProjectRoundTrip | save_load.py:18-127 | a saved project, whose tempo is a value of the tempo box, reloads with its tempo and its rows in order |
| SaveLoad.AsWrittenLosesBlocks | save_load.py:99-109 | as written, the load stops with `TypeError` at the first saved row that has a block, though the intended load restores that row |
| SaveLoad.AsWrittenNewRow | save_load.py:99-109 | the row a new project starts with, saved, fails to load as written |

## Left out

- Qt plumbing is not modelled: layouts, styles, button colours, `blockSignals`, flash
  timers and dialogs. A signal is modelled only where it changes state, as the call it
  makes.
- fluidsynth is not modelled. The synth is an ordered log of the calls it receives. Loading
  the soundfont and reading its presets (`load_soundfont`, `extract_presets`) are out.
  `play_note` is out too: it is a noteon, a sleep and a noteoff.
- Wall-clock timing is left out: the `time.sleep` waits of `play_midi`. Only the order of
  dispatch is modelled.
- Threading is left out. `run`'s `while self.running` loop is one iteration
  (`RunIteration`). A concurrent `interrupt` is the parameter `interruptAt`, the event
  index before which the flag goes up.
- Randomness is a parameter. `random.shuffle` is a Fisher-Yates shuffle over a list of
  draws, and its only promise is a permutation.
- JSON text and files are not modelled. Opening, reading and writing files, the
  missing-file message and the dialogs are I/O. A document is the record tree `json.load`
  gives.
- Floating point is not modelled. Durations are exact reals. Rounding of spin-box values
  and text formatting are UI.
- Python's `int()` also accepts surrounding whitespace and `_` between digits. `Decimal.ParseInt`
  does not model this, and neither spin box ever shows such text.
- `str.lower` is modelled for ASCII letters only.
- The spin box's base validation (`QSpinBox.validate`) is a function parameter.
- The "unknown message type" print branch of `play_midi` causes no synth call. Every
  message the model can build has a known type.
- The main window's `add_instrument`, `del_instrument` and `update_loop_length` are not
  part of this model. Whether an add succeeds is the parameter `addOk`.
- Version drift between files is kept as written, file by file.
  - The arpeggiator has all 13 fields, although arp.py:25 takes 10.
  - `ArpeggiatorBlockWidget.__init__` (arp_widget.py:38-56) has no `repetitions`
    parameter. As written, every `add_block` call (instrument_arp_row.py:33-39) and every
    `add_arpeggiator_block` call (instrument_widget.py:117) raises `TypeError`. The model
    gives each block an explicit `repetitions` number instead.
  - The row id in a block's marker is a parameter, because the block's parent chain
    (`self._parent.row_container.id`, arp_widget.py:203) is not modelled.
    `InstrumentRowWidget` builds its blocks without a parent (instrument_widget.py:117), so
    as written its blocks have no row id to read. In the model,
    `InstrumentRowWidget.GetNextArpeggio` supplies its own id.
- The volume slider's `valueChanged` signal on load is covered by the final velocity, which
  is the row's volume. Which signal sets it is not modelled.
- Repetitions are neither saved nor loaded by save_load.py. A loaded block has one
  repetition in the intended model, but `RowState` does not record it.
- Playback.PlaybackThread.BuildTracks: a non-muted row's track is computed with
  `RowTrack`, the function `GetAllArpeggios` is proved to return, rather than by calling
  the method inside the loop.
- Playback.PlaybackThread.RunIteration: requires at most as many rows as synth channels
  (`max_rows`). The main window keeps to that bound, and the model does not check it.
- SaveLoad.Workspace.LoadProject: requires every instrument-box entry to be a dictionary.
  `itemData(i).get` raises on any other entry, and the entries come from `extract_presets`.
- SaveLoad.Workspace.LoadProject: requires every block entry to hold a rate the rate slider
  offers and three entries in each variant and chord list. The editor built from it raises
  `ValueError` or `IndexError` otherwise, and that error path is not modelled.
- SaveLoad.Workspace.LoadProject: the tempo box is a `QSpinBox` and holds whole numbers.
  The model clamps a loaded tempo to 20..300 but keeps a fractional tempo as it is.
- Arp.Arpeggiator.GetArpeggio: a note outside 0..127 is put in the track, where mido's
  `Message` raises `ValueError`. Such a note comes from a muted offset (-25) on a ground note
  below 25, as the Findings row for arp.py:61-66 shows. It also comes from a ground note or
  offset outside the widgets' ranges, as a hand-edited document can give. The model also
  requires at least as many slot flags as offsets (`Playable`). A hand-edited document can
  pass the load with four offsets and three flags, because `set_variants` then leaves the
  lists as they are. `get_arpeggio` would then raise `IndexError` at arp.py:62. That path is
  not modelled.
- Arp.Arpeggiator.NotesArpeggio: the same out-of-range notes are emitted as messages rather
  than raising `ValueError`.
- InstrumentRow.InstrumentRowWidget.GetNextArpeggio: requires a non-empty queue. Once the
  last block of a row is removed the queue is empty, and `self.arp_queue[self.arp_queue_idx]`
  raises `IndexError`. That error path is not modelled.
- SaveLoad.Workspace.LoadProject: models the intended load, where each block entry is added
  with its settings. As written, save_load.py:99 calls `add_block` with keywords it does not
  accept. The load then stops with `TypeError` at the first row that has a block, and later
  rows and blocks are never created. `SaveLoad.AsWrittenLosesBlocks` and
  `SaveLoad.AsWrittenNewRow` model that path. See the Findings row for save_load.py:99-109.
- SaveLoad.Workspace.LoadProject: rows are modelled as the values a save keeps
  (`RowState`), not as `InstrumentRowContainer` objects.

## Findings

| source | as written | input that shows it | evidently intended | confidence | as-written member | corrected member |
|---|---|---|---|---|---|---|
| arp.py:105 | `total_time` adds `(60/bpm)*rate` per note, so it is N·(60/bpm)·rate | rate 2, 60 bpm, one note: total time 2.0, but the track lasts 0.5 s | one full note at the block's rate, (60/bpm)/rate. This is what the track lasts and what `get_play_time` returns | not executed | Arp.TotalTimeMismatch | ArpWidget.BlockTiming |
| arp.py:61-66 | the comment says an offset of -25 means silence, and the offset box shows -25 as "mute", but the code tests for -99, so a muted variant plays the note ground+(-25) | ground note 24, slot 1 active with offset -25 ("mute"): the note is -1, which mido refuses | an offset of -25 adds the silent note 0 | not executed | Arp.MutedVariantFinding | Arp.NoteSetInRange |
| save_load.py:99-109 | `add_block` is called with the block's settings as keyword arguments, but `add_block(self, repetitions)` accepts none of them, so the load stops with `TypeError` at the first row with a block, and the rows after it are never created | the row a new project starts with (one default block), saved and then loaded | add a block (one repetition) with the saved settings | not executed | SaveLoad.AsWrittenLosesBlocks | SaveLoad.RowRoundTrip |
