/**
  save_load.py: a project is saved as a JSON document holding the tempo and, per instrument
  row, its mute box, volume, instrument program and the settings of each arpeggiator block;
  loading replaces every row by rows rebuilt from such a document, with a default for each
  missing key. The JSON text itself is not modelled: a document is the tree `json.load` gives,
  with a missing key as `None`.
 */
module SaveLoad {
  import opened Opt
  import opened Arp
  import opened ArpWidget
  import opened ArpRow
  import opened RowContainer
  import Synth

  // ---------------------------------------------------------------------------------------
  // File names
  // ---------------------------------------------------------------------------------------

  const JsonSuffix: string := ".json"

  predicate EndsWith(s: string, suffix: string) {
    |suffix| <= |s| && s[|s| - |suffix|..] == suffix
  }

  /** `if not filename.endswith(".json"): filename += ".json"`. */
  function WithJsonSuffix(filename: string): string {
    if EndsWith(filename, JsonSuffix) then filename else filename + JsonSuffix
  }

  /** The file a save goes to: none when the dialog was cancelled (an empty name). */
  function SaveFileName(chosen: string): Option<string> {
    if chosen == "" then None else Some(WithJsonSuffix(chosen))
  }

  /**
    The saved name always ends in ".json"; it is the chosen name exactly when that already
    ends so, and the chosen name with ".json" appended otherwise; so a second pass is a no-op.
   */
  lemma JsonSuffixSpec(filename: string)
    ensures EndsWith(WithJsonSuffix(filename), JsonSuffix)
    ensures WithJsonSuffix(filename) == filename <==> EndsWith(filename, JsonSuffix)
    ensures !EndsWith(filename, JsonSuffix) ==> WithJsonSuffix(filename) == filename + JsonSuffix
    ensures WithJsonSuffix(WithJsonSuffix(filename)) == WithJsonSuffix(filename)
  {
    var r := WithJsonSuffix(filename);
    if !EndsWith(filename, JsonSuffix) {
      assert r[|r| - |JsonSuffix|..] == JsonSuffix;
      assert |r| != |filename|;
    }
  }

  /** A cancelled dialog saves nothing; any chosen name is saved under a ".json" name. */
  lemma SaveFileNameSpec(chosen: string)
    ensures SaveFileName(chosen).None? <==> chosen == ""
    ensures SaveFileName(chosen).Some? ==>
      EndsWith(SaveFileName(chosen).value, JsonSuffix) && SaveFileName(chosen).value[..|chosen|] == chosen
  {
    JsonSuffixSpec(chosen);
  }

  // ---------------------------------------------------------------------------------------
  // Mode names
  // ---------------------------------------------------------------------------------------

  /** `arp.mode.name if arp.mode else None`. */
  function ModeName(m: Option<Mode>): Option<string> {
    match m
    case None => None
    case Some(Up) => Some("UP")
    case Some(Down) => Some("DOWN")
    case Some(Random) => Some("RANDOM")
  }

  /** `Mode[name] if name in Mode.__members__ else None`. */
  function ModeFromName(name: Option<string>): Option<Mode> {
    if name == Some("UP") then Some(Up)
    else if name == Some("DOWN") then Some(Down)
    else if name == Some("RANDOM") then Some(Random)
    else None
  }

  /** Every mode, and no mode, reads back as itself. */
  lemma ModeRoundTrip(m: Option<Mode>)
    ensures ModeFromName(ModeName(m)) == m
  {
  }

  /** Exactly the three member names are recognised, and each is the name of what it gives. */
  lemma ModeFromNameSpec(name: Option<string>)
    ensures ModeFromName(name).Some? <==> name.Some? && name.value in ["UP", "DOWN", "RANDOM"]
    ensures ModeFromName(name).Some? ==> ModeName(ModeFromName(name)) == name
  {
  }

  // ---------------------------------------------------------------------------------------
  // The document
  // ---------------------------------------------------------------------------------------

  /** One entry of a row's "arpeggiators" list. */
  datatype BlockData = BlockData(
    rate: Option<real>,
    noteLength: Option<real>,
    groundNote: Option<int>,
    muteGroundNote: Option<bool>,
    mode: Option<string>,
    mute: Option<bool>,
    velocity: Option<int>,
    variantsActive: Option<seq<bool>>,
    variants: Option<seq<int>>,
    chordsActive: Option<seq<bool>>,
    vibrato: Option<bool>,
    reverb: Option<bool>,
    chorus: Option<bool>)

  /** One entry of the "instruments" list. */
  datatype RowData = RowData(
    mute: Option<bool>,
    volume: Option<int>,
    instrument: Option<int>,
    arpeggiators: Option<seq<BlockData>>)

  /** The whole document. */
  datatype ProjectData = ProjectData(bpm: Option<real>, instruments: Option<seq<RowData>>)

  /** `dict.get(key, default)`. */
  function Get<T>(o: Option<T>, default: T): T {
    if o.Some? then o.value else default
  }

  /** What a row contributes to a save and gets back from a load. */
  datatype RowState = RowState(mute: bool, volume: int, instrument: int, blocks: seq<Config>)

  /** The saved state of a live row. */
  function RowStateOf(row: InstrumentRowContainer): RowState
    reads row, row.arpPanel, Editors(row.arpPanel.arpBlocks)
  {
    RowState(row.mute, row.volume, row.instrument, row.BlockConfigs())
  }

  // ---------------------------------------------------------------------------------------
  // Saving
  // ---------------------------------------------------------------------------------------

  /** The entry written for a block: every key present, the mode by its name. */
  function BlockRecord(s: Config): BlockData {
    BlockData(Some(s.rate), Some(s.noteLength), Some(s.groundNote), Some(s.muteGroundNote),
              ModeName(s.mode), Some(s.mute), Some(s.velocity), Some(s.variantsActive),
              Some(s.variants), Some(s.chordsActive), Some(s.vibrato), Some(s.reverb), Some(s.chorus))
  }

  /** The entries of a row's blocks, in block order. */
  function BlockRecords(configs: seq<Config>): (r: seq<BlockData>)
    ensures |r| == |configs|
    ensures forall i :: 0 <= i < |configs| ==> r[i] == BlockRecord(configs[i])
  {
    if configs == [] then []
    else BlockRecords(configs[..|configs| - 1]) + [BlockRecord(configs[|configs| - 1])]
  }

  /** The entry written for a row. */
  function RowRecord(r: RowState): RowData {
    RowData(Some(r.mute), Some(r.volume), Some(r.instrument), Some(BlockRecords(r.blocks)))
  }

  /** The entries of the rows, in row order. */
  function RowRecords(rows: seq<RowState>): (r: seq<RowData>)
    ensures |r| == |rows|
    ensures forall i :: 0 <= i < |rows| ==> r[i] == RowRecord(rows[i])
  {
    if rows == [] then [] else RowRecords(rows[..|rows| - 1]) + [RowRecord(rows[|rows| - 1])]
  }

  /**
    The document `save_project` builds: the tempo, and one entry per row in row order, each
    holding the row's settings and one entry per block in block order.
   */
  method SaveProject(bpm: real, rows: seq<InstrumentRowContainer>) returns (data: ProjectData)
    ensures data.bpm == Some(bpm) && data.instruments.Some?
    ensures |data.instruments.value| == |rows|
    ensures forall i :: 0 <= i < |rows| ==> data.instruments.value[i] == RowRecord(RowStateOf(rows[i]))
  {
    var instruments: seq<RowData> := [];
    var i := 0;
    while i < |rows|
      invariant 0 <= i <= |rows| && |instruments| == i
      invariant forall k :: 0 <= k < i ==> instruments[k] == RowRecord(RowStateOf(rows[k]))
    {
      var row := rows[i];
      var blocks := row.arpPanel.arpBlocks;
      var records: seq<BlockData> := [];
      var j := 0;
      while j < |blocks|
        invariant 0 <= j <= |blocks| && |records| == j
        invariant forall k :: 0 <= k < j ==> records[k] == BlockRecord(blocks[k].Settings())
      {
        var arp := blocks[j].arpWidget.arp;
        records := records + [BlockData(
          Some(arp.rate), Some(arp.noteLength), Some(arp.groundNote), Some(arp.muteGroundNote),
          ModeName(arp.mode), Some(arp.mute), Some(arp.velocity), Some(arp.variantsActive),
          Some(arp.variants), Some(arp.chordsActive), Some(arp.vibrato), Some(arp.reverb),
          Some(arp.chorus))];
        j := j + 1;
      }
      assert records == BlockRecords(row.BlockConfigs());
      instruments := instruments + [RowData(Some(row.mute), Some(row.volume), Some(row.instrument), Some(records))];
      i := i + 1;
    }
    data := ProjectData(Some(bpm), Some(instruments));
  }

  // ---------------------------------------------------------------------------------------
  // Loading
  // ---------------------------------------------------------------------------------------

  /** `itemData(i).get("program") == target`, for the dictionary entries a load needs. */
  predicate HasProgram(p: Preset, target: int) {
    p.DictPreset? && p.program == target
  }

  /** Looking a program up calls `.get` on every entry it passes, so they must be dictionaries. */
  predicate AllDictPresets(presets: seq<Preset>) {
    forall i :: 0 <= i < |presets| ==> presets[i].DictPreset?
  }

  /** The index of the first entry with the program, if any. */
  function FirstWithProgram(presets: seq<Preset>, target: int): (r: Option<nat>)
    ensures r.Some? ==> r.value < |presets| && HasProgram(presets[r.value], target)
    ensures r.Some? ==> forall j :: 0 <= j < r.value ==> !HasProgram(presets[j], target)
    ensures r.None? ==> forall j :: 0 <= j < |presets| ==> !HasProgram(presets[j], target)
  {
    if presets == [] then None
    else if HasProgram(presets[0], target) then Some(0)
    else
      var rest := FirstWithProgram(presets[1..], target);
      if rest.Some? then Some(rest.value + 1) else None
  }

  /** The `next(..., 0)` of a load: the first entry with the program, else the first entry. */
  function PresetIndex(presets: seq<Preset>, target: int): nat {
    Get(FirstWithProgram(presets, target), 0)
  }

  /**
    The settings `add_block` and the assignments after it give a loaded block, before the row's
    volume and the chord flags are applied: each key's value, or its default.
   */
  function LoadedSettings(b: BlockData): Config {
    Config(Get(b.rate, 1.0), Get(b.noteLength, 0.2), Get(b.groundNote, 60),
           Get(b.muteGroundNote, false), ModeFromName(b.mode), Get(b.mute, false),
           Get(b.vibrato, false), Get(b.reverb, false), Get(b.chorus, false),
           Get(b.velocity, 100),
           Get(b.variantsActive, [false, false, false]), Get(b.chordsActive, [false, false, false]),
           Get(b.variants, [0, 0, 0]))
  }

  /**
    What the editor built from a loaded block's settings reads without raising: a rate the rate
    slider offers, and three entries in each of the offset, slot-flag and chord-flag lists.
   */
  predicate BlockLoadable(b: BlockData) {
    && Get(b.rate, 1.0) in RateValues
    && |Get(b.variants, [0, 0, 0])| >= 3
    && |Get(b.variantsActive, [false, false, false])| >= 3
    && |Get(b.chordsActive, [false, false, false])| >= 3
  }

  /**
    Exactly the entries whose settings the editor can be built from; the chord shortcuts can
    then read them.
   */
  lemma BlockLoadableSpec(b: BlockData)
    ensures BlockLoadable(b) <==> Buildable(LoadedSettings(b))
    ensures BlockLoadable(b) ==> ChordReady(LoadedSettings(b))
  {
  }

  predicate RowLoadable(r: RowData) {
    forall i :: 0 <= i < |Get(r.arpeggiators, [])| ==> BlockLoadable(Get(r.arpeggiators, [])[i])
  }

  predicate ProjectLoadable(data: ProjectData) {
    forall i :: 0 <= i < |Get(data.instruments, [])| ==> RowLoadable(Get(data.instruments, [])[i])
  }

  /**
    A loaded block: its settings, with the velocity replaced by the row's volume
    (`update_arp_volumes`), the variants loaded again (`set_variants`) and the chord flags
    re-derived (`update_chord_button_states`).
   */
  function LoadedBlock(b: BlockData, volume: int): Config
    requires BlockLoadable(b)
  {
    var s := LoadedSettings(b).(velocity := volume);
    Rederive(SetVariantsSpec(s, s.variantsActive, s.variants))
  }

  /** The blocks of a loaded row, in the order of their entries. */
  function LoadedBlocks(bs: seq<BlockData>, volume: int): (r: seq<Config>)
    requires forall i :: 0 <= i < |bs| ==> BlockLoadable(bs[i])
    ensures |r| == |bs|
  {
    seq(|bs|, i requires 0 <= i < |bs| => LoadedBlock(bs[i], volume))
  }

  /**
    A loaded row: the mute box and volume from the entry (the volume clamped to the slider's range 0..127), the instrument selected by its
    program's first entry in the box (the first entry when there is none), and its blocks in
    place of the new row's default block.
   */
  function LoadRow(r: RowData, presets: seq<Preset>): RowState
    requires RowLoadable(r)
  {
    var volume := Synth.Clamp(Get(r.volume, 64));
    RowState(Get(r.mute, false), volume,
             PresetProgram(ItemData(presets, PresetIndex(presets, Get(r.instrument, 0)))),
             LoadedBlocks(Get(r.arpeggiators, []), volume))
  }

  /** `add_instrument` succeeded for the `i`-th entry (the outcomes beyond the list succeed). */
  predicate Added(addOk: seq<bool>, i: nat) {
    i >= |addOk| || addOk[i]
  }

  /** The entries before `n` whose row could be added, in entry order. */
  function AddedIndices(addOk: seq<bool>, n: nat): (r: seq<nat>)
    ensures forall k :: 0 <= k < |r| ==> r[k] < n
  {
    if n == 0 then [] else AddedIndices(addOk, n - 1) + (if Added(addOk, n - 1) then [n - 1] else [])
  }

  /** The rows a load ends with: one per entry whose row could be added, in entry order. */
  function LoadedRows(entries: seq<RowData>, presets: seq<Preset>, addOk: seq<bool>): (r: seq<RowState>)
    requires forall i :: 0 <= i < |entries| ==> RowLoadable(entries[i])
    ensures |r| == |AddedIndices(addOk, |entries|)|
  {
    var added := AddedIndices(addOk, |entries|);
    seq(|added|, k requires 0 <= k < |added| => LoadRow(entries[added[k]], presets))
  }

  /** The tempo spin box's range, `setRange(20, 300)`. */
  const MinTempo: real := 20.0
  const MaxTempo: real := 300.0

  /**
    The tempo a load sets: the document's (60 when missing), written through the tempo spin
    box, which clamps it into its range.
   */
  function LoadedTempo(data: ProjectData): (r: real)
    ensures MinTempo <= r <= MaxTempo
    ensures data.bpm.None? ==> r == 60.0
    ensures data.bpm.Some? && MinTempo <= data.bpm.value <= MaxTempo ==> r == data.bpm.value
    ensures data.bpm.Some? && data.bpm.value < MinTempo ==> r == MinTempo
    ensures data.bpm.Some? && data.bpm.value > MaxTempo ==> r == MaxTempo
  {
    var v := Get(data.bpm, 60.0);
    if v < MinTempo then MinTempo else if v > MaxTempo then MaxTempo else v
  }

  /**
    The main window's state a load replaces: the tempo and the rows (each by what a save
    keeps of it).
   */
  class Workspace {
    var bpm: real
    var rows: seq<RowState>

    constructor (bpm: real, rows: seq<RowState>)
      ensures this.bpm == bpm && this.rows == rows
    {
      this.bpm := bpm;
      this.rows := rows;
    }

    /**
      `load_project` on a document already read: the tempo (60 when missing, clamped by the
      tempo box), every existing
      row deleted, then one loaded row per entry whose `add_instrument` succeeded (`addOk`).
     */
    method LoadProject(data: ProjectData, presets: seq<Preset>, addOk: seq<bool>)
      requires AllDictPresets(presets) && ProjectLoadable(data)
      modifies this
      ensures bpm == LoadedTempo(data)
      ensures rows == LoadedRows(Get(data.instruments, []), presets, addOk)
    {
      var v := Get(data.bpm, 60.0);
      bpm := if v < MinTempo then MinTempo else if v > MaxTempo then MaxTempo else v;
      while rows != []
        invariant bpm == LoadedTempo(data)
        decreases |rows|
      {
        rows := rows[1..];
      }
      var entries := Get(data.instruments, []);
      var i := 0;
      while i < |entries|
        invariant 0 <= i <= |entries| && bpm == LoadedTempo(data)
        invariant |rows| == |AddedIndices(addOk, i)|
        invariant forall k :: 0 <= k < |rows| ==> rows[k] == LoadRow(entries[AddedIndices(addOk, i)[k]], presets)
      {
        if Added(addOk, i) {
          rows := rows + [LoadRow(entries[i], presets)];
        }
        i := i + 1;
      }
    }
  }

  // ---------------------------------------------------------------------------------------
  // Properties of a load
  // ---------------------------------------------------------------------------------------

  /** The instrument a loaded row selects is its program, whenever the box offers it. */
  lemma LoadedInstrument(r: RowData, presets: seq<Preset>, k: nat)
    requires RowLoadable(r)
    requires k < |presets| && HasProgram(presets[k], Get(r.instrument, 0))
    ensures LoadRow(r, presets).instrument == Get(r.instrument, 0)
  {
  }

  /** A program the box does not offer selects the first entry. */
  lemma UnknownInstrument(r: RowData, presets: seq<Preset>)
    requires RowLoadable(r)
    requires forall j :: 0 <= j < |presets| ==> !HasProgram(presets[j], Get(r.instrument, 0))
    ensures LoadRow(r, presets).instrument == PresetProgram(ItemData(presets, 0))
  {
  }

  /** An entry with no keys loads as a new block at the row's volume. */
  lemma EmptyBlockIsDefault(volume: int)
    ensures var b := BlockData(None, None, None, None, None, None, None, None, None, None, None, None, None);
      BlockLoadable(b) && LoadedBlock(b, volume) == DefaultConfig.(velocity := volume)
  {
    var b := BlockData(None, None, None, None, None, None, None, None, None, None, None, None, None);
    var s := LoadedSettings(b).(velocity := volume);
    assert s == DefaultConfig.(velocity := volume);
    assert ActiveOffsets(s.variants, s.variantsActive) == {};
    assert Rederive(s) == s;
    SetVariantsSame(s);
  }

  /** Every loaded block has the row's volume and chord flags that show its variants. */
  lemma LoadedBlockShape(b: BlockData, volume: int)
    requires BlockLoadable(b)
    ensures LoadedBlock(b, volume).velocity == volume
    ensures ChordReady(LoadedBlock(b, volume)) && ChordsShown(LoadedBlock(b, volume))
  {
  }

  /** Every loaded row has its entry's volume on every block, in the entry's block order. */
  lemma LoadedRowVolumes(r: RowData, presets: seq<Preset>)
    requires RowLoadable(r)
    ensures var row := LoadRow(r, presets);
      && row.volume == Synth.Clamp(Get(r.volume, 64))
      && |row.blocks| == |Get(r.arpeggiators, [])|
      && forall i :: 0 <= i < |row.blocks| ==> row.blocks[i].velocity == row.volume
  {
    var row := LoadRow(r, presets);
    forall i | 0 <= i < |row.blocks|
      ensures row.blocks[i].velocity == row.volume
    {
      LoadedBlockShape(Get(r.arpeggiators, [])[i], row.volume);
    }
  }

  /**
    The rows kept are exactly the entries whose add succeeded, each once and in entry order,
    so there are never more rows than entries.
   */
  lemma {:induction false} AddedIndicesSpec(addOk: seq<bool>, n: nat)
    ensures |AddedIndices(addOk, n)| <= n
    ensures forall k, l :: 0 <= k < l < |AddedIndices(addOk, n)| ==> AddedIndices(addOk, n)[k] < AddedIndices(addOk, n)[l]
    ensures forall i :: 0 <= i < n ==> (i in AddedIndices(addOk, n) <==> Added(addOk, i))
  {
    if n > 0 {
      AddedIndicesSpec(addOk, n - 1);
    }
  }

  /** When every add succeeds, the `i`-th row is the `i`-th entry loaded. */
  lemma {:induction false} AllAdded(addOk: seq<bool>, n: nat)
    requires forall i :: 0 <= i < n ==> Added(addOk, i)
    ensures |AddedIndices(addOk, n)| == n
    ensures forall k :: 0 <= k < n ==> AddedIndices(addOk, n)[k] == k
  {
    if n > 0 {
      AllAdded(addOk, n - 1);
    }
  }

  /** A load in which every add succeeds has one row per entry, each that entry loaded. */
  lemma LoadedRowsAllAdded(entries: seq<RowData>, presets: seq<Preset>, addOk: seq<bool>)
    requires forall i :: 0 <= i < |entries| ==> RowLoadable(entries[i])
    requires forall i :: 0 <= i < |entries| ==> Added(addOk, i)
    ensures |LoadedRows(entries, presets, addOk)| == |entries|
    ensures forall i :: 0 <= i < |entries| ==> LoadedRows(entries, presets, addOk)[i] == LoadRow(entries[i], presets)
  {
    AllAdded(addOk, |entries|);
  }

  // ---------------------------------------------------------------------------------------
  // Saving then loading
  // ---------------------------------------------------------------------------------------

  /**
    What a load gives back unchanged: every block at the row's volume, with three variant
    slots and three chord flags that show them.
   */
  predicate BlockSettled(s: Config, volume: int) {
    && s.velocity == volume
    && s.rate in RateValues
    && |s.variantsActive| == 3 && |s.variants| == 3 && |s.chordsActive| == 3
    && ChordsShown(s)
  }

  /**
    A row that reloads as itself: a volume the slider can show, settled blocks, and an
    instrument the box offers.
   */
  predicate RowSettled(r: RowState, presets: seq<Preset>) {
    && 0 <= r.volume <= 127
    && (forall i :: 0 <= i < |r.blocks| ==> BlockSettled(r.blocks[i], r.volume))
    && exists k :: 0 <= k < |presets| && HasProgram(presets[k], r.instrument)
  }

  /** A saved block reloads as itself, once it is settled. */
  lemma BlockRoundTrip(s: Config, volume: int)
    requires BlockSettled(s, volume)
    ensures BlockLoadable(BlockRecord(s)) && LoadedBlock(BlockRecord(s), volume) == s
  {
    ModeRoundTrip(s.mode);
    assert LoadedSettings(BlockRecord(s)) == s;
    SetVariantsSame(s);
    RederiveShown(s);
  }

  /** Any saved block reloads with its settings, the row's volume and re-derived chord flags. */
  lemma BlockReloads(s: Config, volume: int)
    requires Buildable(s) && |s.variantsActive| == 3 && |s.variants| == 3
    ensures BlockLoadable(BlockRecord(s))
    ensures LoadedBlock(BlockRecord(s), volume) == Rederive(s.(velocity := volume))
  {
    ModeRoundTrip(s.mode);
    assert LoadedSettings(BlockRecord(s)) == s;
    var t := s.(velocity := volume);
    SetVariantsSame(t);
    RederiveIdempotent(t);
  }

  /** A saved row reloads as itself: settings, instrument, and its blocks in order. */
  lemma RowRoundTrip(r: RowState, presets: seq<Preset>)
    requires RowSettled(r, presets)
    ensures RowLoadable(RowRecord(r)) && LoadRow(RowRecord(r), presets) == r
  {
    var bs := BlockRecords(r.blocks);
    forall i | 0 <= i < |bs|
      ensures BlockLoadable(bs[i]) && LoadedBlock(bs[i], r.volume) == r.blocks[i]
    {
      BlockRoundTrip(r.blocks[i], r.volume);
    }
    var k :| 0 <= k < |presets| && HasProgram(presets[k], r.instrument);
    LoadedInstrument(RowRecord(r), presets, k);
    assert LoadedBlocks(bs, r.volume) == r.blocks;
  }

  /**
    A saved project reloads with its tempo and its rows in order, when every row is added. The
    saved tempo is the tempo box's value, so it lies in the box's range.
   */
  lemma ProjectRoundTrip(bpm: real, rows: seq<RowState>, presets: seq<Preset>)
    requires MinTempo <= bpm <= MaxTempo
    requires forall i :: 0 <= i < |rows| ==> RowSettled(rows[i], presets)
    ensures var data := ProjectData(Some(bpm), Some(RowRecords(rows)));
      && ProjectLoadable(data)
      && LoadedTempo(data) == bpm
      && LoadedRows(Get(data.instruments, []), presets, []) == rows
  {
    var entries := RowRecords(rows);
    forall i | 0 <= i < |rows|
      ensures RowLoadable(entries[i]) && LoadRow(entries[i], presets) == rows[i]
    {
      RowRoundTrip(rows[i], presets);
    }
    LoadedRowsAllAdded(entries, presets, []);
  }

  // ---------------------------------------------------------------------------------------
  // The block call as written
  // ---------------------------------------------------------------------------------------

  /**
    The row load as save_load.py writes it: `add_block` takes only `repetitions`, so passing it
    the block's settings as keywords raises `TypeError` at the first entry of "arpeggiators";
    a row with no entries loads.
   */
  function LoadRowAsWritten(r: RowData, presets: seq<Preset>): Option<RowState>
    requires RowLoadable(r)
  {
    if Get(r.arpeggiators, []) != [] then None else Some(LoadRow(r, presets))
  }

  /** Any saved row with a block fails to load as written, though it reloads as intended. */
  lemma AsWrittenLosesBlocks(r: RowState, presets: seq<Preset>)
    requires RowSettled(r, presets) && r.blocks != []
    ensures RowLoadable(RowRecord(r))
    ensures LoadRowAsWritten(RowRecord(r), presets) == None
    ensures LoadRow(RowRecord(r), presets) == r
  {
    RowRoundTrip(r, presets);
  }

  /** The row a new project starts with, saved and loaded again. */
  lemma AsWrittenNewRow()
    ensures var r := RowState(false, 64, 0, [DefaultConfig]);
      && RowLoadable(RowRecord(r))
      && LoadRowAsWritten(RowRecord(r), [DictPreset(0, Some(0))]) == None
      && LoadRow(RowRecord(r), [DictPreset(0, Some(0))]) == r
  {
    var r := RowState(false, 64, 0, [DefaultConfig]);
    var presets := [DictPreset(0, Some(0))];
    assert ActiveOffsets(DefaultConfig.variants, DefaultConfig.variantsActive) == {};
    assert BlockSettled(DefaultConfig, 64);
    assert HasProgram(presets[0], 0);
    AsWrittenLosesBlocks(r, presets);
  }
}
