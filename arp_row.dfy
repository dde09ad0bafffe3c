/**
  The block strip of an instrument row (instrument_arp_row.py): the blocks in play order, the
  repetition queue of block indices, and the queue cursor.
 */
module ArpRow {
  import opened Arp
  import opened ArpWidget
  import opened Queue

  /** The repetition counts of the blocks, in order. */
  function Repetitions(blocks: seq<ArpeggiatorBlockWidget>): (r: seq<nat>)
    reads blocks
    ensures |r| == |blocks| && forall i :: 0 <= i < |blocks| ==> r[i] == blocks[i].repetitions
  {
    seq(|blocks|, i reads blocks requires 0 <= i < |blocks| => blocks[i].repetitions)
  }

  /** Different blocks own different arpeggiators (hence are different blocks). */
  predicate SeparateArps(blocks: seq<ArpeggiatorBlockWidget>) {
    forall i, j :: 0 <= i < j < |blocks| ==> blocks[i].arpWidget.arp != blocks[j].arpWidget.arp
  }

  /**
    What a row's block strip keeps: blocks with their own arpeggiators, each block's id its
    position, every queue entry naming a block, and a cursor that is 0 or inside the queue.
   */
  predicate StripValid(blocks: seq<ArpeggiatorBlockWidget>, queue: seq<int>, cursor: int)
    reads blocks
  {
    && SeparateArps(blocks)
    && Distinct(blocks)
    && (forall i :: 0 <= i < |blocks| ==> blocks[i].id == i)
    && EntriesBelow(queue, |blocks|)
    && 0 <= cursor && (cursor == 0 || cursor < |queue|)
  }

  /** The editors and arpeggiators behind the blocks: what reading their settings depends on. */
  function Editors(blocks: seq<ArpeggiatorBlockWidget>): set<object> {
    (set b | b in blocks :: b.arpWidget) + (set b | b in blocks :: b.arpWidget.arp)
  }

  /** The settings of the blocks, in block order. */
  function Configs(blocks: seq<ArpeggiatorBlockWidget>): (r: seq<Config>)
    reads Editors(blocks)
    ensures |r| == |blocks| && forall i :: 0 <= i < |blocks| ==> r[i] == blocks[i].Settings()
  {
    if blocks == [] then [] else Configs(blocks[..|blocks| - 1]) + [blocks[|blocks| - 1].Settings()]
  }

  predicate PositiveRates(configs: seq<Config>) {
    forall i :: 0 <= i < |configs| ==> configs[i].rate > 0.0
  }

  /** A row's play time: the sum of its blocks' play times (each block once, whatever its repetitions). */
  function TotalPlayTime(configs: seq<Config>, bpm: real): real
    requires bpm > 0.0 && PositiveRates(configs)
  {
    if configs == [] then 0.0
    else TotalPlayTime(configs[..|configs| - 1], bpm) + PlayTime(configs[|configs| - 1], bpm)
  }

  /** Adding up the play times one block further. */
  lemma TotalPlayTimeStep(configs: seq<Config>, bpm: real, i: nat)
    requires bpm > 0.0 && PositiveRates(configs) && i < |configs|
    ensures TotalPlayTime(configs[..i + 1], bpm) == TotalPlayTime(configs[..i], bpm) + PlayTime(configs[i], bpm)
  {
    assert configs[..i + 1][..i] == configs[..i];
  }

  /** A row's play time is positive exactly when it has a block. */
  lemma {:induction false} TotalPlayTimeSign(configs: seq<Config>, bpm: real)
    requires bpm > 0.0 && PositiveRates(configs)
    ensures TotalPlayTime(configs, bpm) >= 0.0
    ensures TotalPlayTime(configs, bpm) > 0.0 <==> configs != []
    decreases |configs|
  {
    if configs != [] {
      TotalPlayTimeSign(configs[..|configs| - 1], bpm);
    }
  }

  /** `InstrumentArpPanel`. */
  class InstrumentArpPanel {
    var arpBlocks: seq<ArpeggiatorBlockWidget>
    var arpQueue: seq<int>
    var arpQueueIdx: int

    /** What every operation keeps. */
    predicate Valid()
      reads this, arpBlocks
    {
      StripValid(arpBlocks, arpQueue, arpQueueIdx)
    }

    /** A new strip holds one default block, queued once. */
    constructor (velocity: int)
      ensures Valid() && |arpBlocks| == 1 && arpQueue == [0] && arpQueueIdx == 0
      ensures fresh(arpBlocks[0]) && arpBlocks[0].repetitions == 1 && arpBlocks[0].velocity == velocity
      ensures arpBlocks[0].Settings() == DefaultConfig.(velocity := velocity)
    {
      arpBlocks := [];
      arpQueue := [];
      arpQueueIdx := 0;
      new;
      AddBlock(1, velocity);
    }

    /**
      `add_block(repetitions)`: a default block whose id is its position, at the velocity of
      the row, queued `repetitions` times after the existing entries; the cursor stays.
     */
    method AddBlock(repetitions: nat, velocity: int)
      requires Valid()
      modifies this
      ensures Valid()
      ensures |arpBlocks| == |old(arpBlocks)| + 1 && arpBlocks[..|old(arpBlocks)|] == old(arpBlocks)
      ensures var b := arpBlocks[|old(arpBlocks)|];
        && fresh(b) && fresh(b.arpWidget) && fresh(b.arpWidget.arp)
        && b.id == |old(arpBlocks)| && b.velocity == velocity && b.repetitions == repetitions
        && b.Settings() == DefaultConfig.(velocity := velocity)
      ensures arpQueue == old(arpQueue) + Repeat(|old(arpBlocks)|, repetitions)
      ensures arpQueueIdx == old(arpQueueIdx)
    {
      var blockId := |arpBlocks|;
      var block := new ArpeggiatorBlockWidget(blockId, DefaultConfig.(velocity := velocity), repetitions);
      block.velocity := velocity;
      arpBlocks := arpBlocks + [block];
      var k := 0;
      while k < repetitions
        modifies this
        invariant 0 <= k <= repetitions
        invariant arpBlocks == old(arpBlocks) + [block]
        invariant arpQueue == old(arpQueue) + Repeat(blockId, k)
        invariant arpQueueIdx == old(arpQueueIdx)
      {
        arpQueue := arpQueue + [blockId];
        k := k + 1;
      }
      assert arpBlocks[..blockId] == old(arpBlocks);
      RepeatAt(blockId, repetitions);
    }

    /** `_rebuild_queue`: every block's index, once per repetition, in block order; cursor 0. */
    method RebuildQueue()
      modifies this
      ensures arpBlocks == old(arpBlocks)
      ensures arpQueue == QueueOf(Repetitions(arpBlocks), |arpBlocks|) && arpQueueIdx == 0
    {
      arpQueue := [];
      var i := 0;
      while i < |arpBlocks|
        modifies this
        invariant 0 <= i <= |arpBlocks| && arpBlocks == old(arpBlocks)
        invariant arpQueue == QueueOf(Repetitions(arpBlocks), i)
      {
        arpQueue := arpQueue + Repeat(i, arpBlocks[i].repetitions);
        i := i + 1;
      }
      arpQueueIdx := 0;
    }

    /** The renumbering loop of `_rebuild_layout`: every block's id becomes its position. */
    method RebuildLayout()
      requires Distinct(arpBlocks)
      modifies arpBlocks
      ensures forall i :: 0 <= i < |arpBlocks| ==> arpBlocks[i].id == i
      ensures forall b :: b in arpBlocks ==> b.velocity == old(b.velocity) && b.repetitions == old(b.repetitions)
    {
      var i := 0;
      while i < |arpBlocks|
        invariant 0 <= i <= |arpBlocks|
        invariant forall j :: 0 <= j < i ==> arpBlocks[j].id == j
        invariant forall b :: b in arpBlocks ==> b.velocity == old(b.velocity) && b.repetitions == old(b.repetitions)
      {
        arpBlocks[i].id := i;
        i := i + 1;
      }
    }

    /**
      `move_block_left(block)`: swap with the predecessor when there is one, then rebuild the
      queue and the ids; the first block stays and nothing changes.
     */
    method MoveBlockLeft(block: ArpeggiatorBlockWidget)
      requires Valid() && block in arpBlocks
      modifies this, arpBlocks
      ensures Valid()
      ensures arpBlocks == MoveLeft(old(arpBlocks), block)
      ensures forall b :: b in arpBlocks ==> b.velocity == old(b.velocity) && b.repetitions == old(b.repetitions)
      ensures IndexOf(old(arpBlocks), block) > 0 ==>
        arpQueue == QueueOf(Repetitions(arpBlocks), |arpBlocks|) && arpQueueIdx == 0
      ensures IndexOf(old(arpBlocks), block) == 0 ==>
        arpQueue == old(arpQueue) && arpQueueIdx == old(arpQueueIdx)
    {
      var idx := IndexOf(arpBlocks, block);
      if idx > 0 {
        arpBlocks := arpBlocks[idx := arpBlocks[idx - 1]][idx - 1 := arpBlocks[idx]];
        assert arpBlocks == SwapDown(old(arpBlocks), idx);
        MovesPermute(old(arpBlocks), block);
        Rebuild();
      }
    }

    /**
      `move_block_right(block)`: swap with the successor when there is one, then rebuild the
      queue and the ids; the last block stays and nothing changes.
     */
    method MoveBlockRight(block: ArpeggiatorBlockWidget)
      requires Valid() && block in arpBlocks
      modifies this, arpBlocks
      ensures Valid()
      ensures arpBlocks == MoveRight(old(arpBlocks), block)
      ensures forall b :: b in arpBlocks ==> b.velocity == old(b.velocity) && b.repetitions == old(b.repetitions)
      ensures IndexOf(old(arpBlocks), block) < |old(arpBlocks)| - 1 ==>
        arpQueue == QueueOf(Repetitions(arpBlocks), |arpBlocks|) && arpQueueIdx == 0
      ensures IndexOf(old(arpBlocks), block) == |old(arpBlocks)| - 1 ==>
        arpQueue == old(arpQueue) && arpQueueIdx == old(arpQueueIdx)
    {
      var idx := IndexOf(arpBlocks, block);
      if idx < |arpBlocks| - 1 {
        arpBlocks := arpBlocks[idx := arpBlocks[idx + 1]][idx + 1 := arpBlocks[idx]];
        assert arpBlocks == SwapDown(old(arpBlocks), idx + 1);
        MovesPermute(old(arpBlocks), block);
        Rebuild();
      }
    }

    /** The common tail of both moves: rebuild the queue, then the ids. */
    method Rebuild()
      requires SeparateArps(arpBlocks) && Distinct(arpBlocks)
      modifies this, arpBlocks
      ensures Valid() && arpBlocks == old(arpBlocks)
      ensures forall b :: b in arpBlocks ==> b.velocity == old(b.velocity) && b.repetitions == old(b.repetitions)
      ensures arpQueue == QueueOf(Repetitions(arpBlocks), |arpBlocks|) && arpQueueIdx == 0
    {
      RebuildQueue();
      ghost var reps := Repetitions(arpBlocks);
      RebuildLayout();
      assert Repetitions(arpBlocks) == reps;
      QueueOfOrdered(reps, |arpBlocks|);
    }

    /**
      `remove_block(block)`: a block of the strip leaves it, the others are renumbered, the
      queue loses the block's entries and shifts the ones above, and a cursor past the end
      goes back to 0. A block that is not in the strip changes nothing.
     */
    method RemoveBlock(block: ArpeggiatorBlockWidget)
      requires Valid()
      modifies this, arpBlocks
      ensures Valid()
      ensures forall b :: b in old(arpBlocks) ==> b.velocity == old(b.velocity) && b.repetitions == old(b.repetitions)
      ensures block !in old(arpBlocks) ==>
        arpBlocks == old(arpBlocks) && arpQueue == old(arpQueue) && arpQueueIdx == old(arpQueueIdx)
      ensures block in old(arpBlocks) ==>
        var r := IndexOf(old(arpBlocks), block);
        && arpBlocks == RemoveAt(old(arpBlocks), r)
        && arpQueue == RemapQueue(old(arpQueue), r)
        && arpQueueIdx == if old(arpQueueIdx) >= |arpQueue| then 0 else old(arpQueueIdx)
    {
      if block in arpBlocks {
        var blockId := IndexOf(arpBlocks, block);
        arpBlocks := arpBlocks[..blockId] + arpBlocks[blockId + 1..];
        assert arpBlocks == RemoveAt(old(arpBlocks), blockId);
        RebuildLayout();
        RemapBounds(arpQueue, blockId, |old(arpBlocks)|);
        arpQueue := RemapQueue(arpQueue, blockId);
        if arpQueueIdx >= |arpQueue| {
          arpQueueIdx := 0;
        }
      }
    }
  }
}
