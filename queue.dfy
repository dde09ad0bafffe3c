/**
  The list operations behind a row's blocks and its repetition queue (instrument_arp_row.py,
  instrument_widget.py): the queue is a list of block indices, each block's index appearing
  once per repetition; moves swap neighbouring blocks; a removal renumbers the queue.
 */
module Queue {

  /** `[x] * n`. */
  function Repeat(x: int, n: nat): (r: seq<int>)
    ensures |r| == n
  {
    if n == 0 then [] else Repeat(x, n - 1) + [x]
  }

  lemma {:induction false} RepeatAt(x: int, n: nat)
    ensures forall k :: 0 <= k < n ==> Repeat(x, n)[k] == x
  {
    if n > 0 {
      RepeatAt(x, n - 1);
    }
  }

  lemma {:induction false} RepeatCount(x: int, n: nat, y: int)
    ensures multiset(Repeat(x, n))[y] == if y == x then n else 0
  {
    if n > 0 {
      RepeatCount(x, n - 1, y);
    }
  }

  function Sum(reps: seq<nat>, n: nat): nat
    requires n <= |reps|
  {
    if n == 0 then 0 else Sum(reps, n - 1) + reps[n - 1]
  }

  /** The queue `_rebuild_queue` builds from the first `n` blocks: index i, repetitions_i times. */
  function QueueOf(reps: seq<nat>, n: nat): (q: seq<int>)
    requires n <= |reps|
  {
    if n == 0 then [] else QueueOf(reps, n - 1) + Repeat(n - 1, reps[n - 1])
  }

  /** Every queue entry names a block, and the entries follow the block order. */
  lemma {:induction false} QueueOfOrdered(reps: seq<nat>, n: nat)
    requires n <= |reps|
    ensures |QueueOf(reps, n)| == Sum(reps, n)
    ensures forall k :: 0 <= k < |QueueOf(reps, n)| ==> 0 <= QueueOf(reps, n)[k] < n
    ensures forall k, l :: 0 <= k <= l < |QueueOf(reps, n)| ==> QueueOf(reps, n)[k] <= QueueOf(reps, n)[l]
  {
    if n > 0 {
      QueueOfOrdered(reps, n - 1);
      RepeatAt(n - 1, reps[n - 1]);
    }
  }

  /** How often `x` occurs in `s`. */
  function Count(s: seq<int>, x: int): nat {
    if s == [] then 0 else Count(s[..|s| - 1], x) + (if s[|s| - 1] == x then 1 else 0)
  }

  lemma {:induction false} CountAppend(a: seq<int>, b: seq<int>, x: int)
    ensures Count(a + b, x) == Count(a, x) + Count(b, x)
    decreases |b|
  {
    if b == [] {
      assert a + b == a;
    } else {
      var b' := b[..|b| - 1];
      assert (a + b)[..|a + b| - 1] == a + b';
      CountAppend(a, b', x);
    }
  }

  lemma {:induction false} CountIsMultiplicity(s: seq<int>, x: int)
    ensures multiset(s)[x] == Count(s, x)
    decreases |s|
  {
    if s != [] {
      var s' := s[..|s| - 1];
      assert s == s' + [s[|s| - 1]];
      CountIsMultiplicity(s', x);
    }
  }

  lemma {:induction false} RepeatCountOf(x: int, n: nat, y: int)
    ensures Count(Repeat(x, n), y) == if y == x then n else 0
  {
    if n > 0 {
      RepeatCountOf(x, n - 1, y);
      assert Repeat(x, n)[..n - 1] == Repeat(x, n - 1);
    }
  }

  lemma {:induction false} QueueOfCountFrom(reps: seq<nat>, n: nat, i: int)
    requires n <= |reps|
    ensures Count(QueueOf(reps, n), i) == if 0 <= i < n then reps[i] else 0
  {
    if n > 0 {
      var front, last := QueueOf(reps, n - 1), Repeat(n - 1, reps[n - 1]);
      var before := if 0 <= i < n - 1 then reps[i] else 0;
      var added := if i == n - 1 then reps[n - 1] else 0;
      assert Count(front, i) == before by {
        QueueOfCountFrom(reps, n - 1, i);
      }
      assert Count(last, i) == added by {
        RepeatCountOf(n - 1, reps[n - 1], i);
      }
      assert QueueOf(reps, n) == front + last;
      CountAppend(front, last, i);
    }
  }

  /** Block i appears in the queue exactly repetitions_i times, and nothing else appears. */
  lemma QueueOfCount(reps: seq<nat>, n: nat, i: int)
    requires n <= |reps|
    ensures multiset(QueueOf(reps, n))[i] == if 0 <= i < n then reps[i] else 0
  {
    QueueOfCountFrom(reps, n, i);
    CountIsMultiplicity(QueueOf(reps, n), i);
  }

  // ---------------------------------------------------------------------------------------
  // Positions and moves
  // ---------------------------------------------------------------------------------------

  predicate Distinct<T(==)>(s: seq<T>) {
    forall i, j :: 0 <= i < j < |s| ==> s[i] != s[j]
  }

  /** `list.index(x)`: the first position of `x`. */
  function IndexOf<T(==)>(s: seq<T>, x: T): (i: nat)
    requires x in s
    ensures i < |s| && s[i] == x
    ensures forall j :: 0 <= j < i ==> s[j] != x
  {
    if s[0] == x then 0
    else
      assert x in s[1..];
      1 + IndexOf(s[1..], x)
  }

  /** In a list without repetitions the position of an element is the only one holding it. */
  lemma IndexOfDistinct<T>(s: seq<T>, i: nat)
    requires Distinct(s) && i < |s|
    ensures IndexOf(s, s[i]) == i
  {
  }

  /** The two neighbours at `i - 1` and `i` exchanged. */
  function SwapDown<T>(s: seq<T>, i: nat): (r: seq<T>)
    requires 0 < i < |s|
    ensures |r| == |s| && r[i - 1] == s[i] && r[i] == s[i - 1]
    ensures forall k :: 0 <= k < |s| && k != i - 1 && k != i ==> r[k] == s[k]
  {
    s[i := s[i - 1]][i - 1 := s[i]]
  }

  /** `move_block_left`: swap with the predecessor, if there is one. */
  function MoveLeft<T(==)>(s: seq<T>, x: T): seq<T>
    requires x in s
  {
    var i := IndexOf(s, x);
    if i > 0 then SwapDown(s, i) else s
  }

  /** `move_block_right`: swap with the successor, if there is one. */
  function MoveRight<T(==)>(s: seq<T>, x: T): seq<T>
    requires x in s
  {
    var i := IndexOf(s, x);
    if i < |s| - 1 then SwapDown(s, i + 1) else s
  }

  /** A move only reorders: same elements, same length, still without repetitions. */
  lemma MovesPermute<T>(s: seq<T>, x: T)
    requires x in s && Distinct(s)
    ensures multiset(MoveLeft(s, x)) == multiset(s) && Distinct(MoveLeft(s, x))
    ensures multiset(MoveRight(s, x)) == multiset(s) && Distinct(MoveRight(s, x))
  {
    var i := IndexOf(s, x);
    if i > 0 {
      SwapPermutes(s, i);
      SwapKeepsDistinct(s, i);
    }
    if i < |s| - 1 {
      SwapPermutes(s, i + 1);
      SwapKeepsDistinct(s, i + 1);
    }
  }

  lemma SwapKeepsDistinct<T>(s: seq<T>, i: nat)
    requires 0 < i < |s| && Distinct(s)
    ensures Distinct(SwapDown(s, i))
  {
    var r := SwapDown(s, i);
    forall a, b | 0 <= a < b < |r|
      ensures r[a] != r[b]
    {
      var a' := if a == i - 1 then i else if a == i then i - 1 else a;
      var b' := if b == i - 1 then i else if b == i then i - 1 else b;
      assert r[a] == s[a'] && r[b] == s[b'] && a' != b';
    }
  }

  lemma SwapPermutes<T>(s: seq<T>, i: nat)
    requires 0 < i < |s|
    ensures multiset(SwapDown(s, i)) == multiset(s)
  {
    var r := SwapDown(s, i);
    assert s == s[..i - 1] + [s[i - 1], s[i]] + s[i + 1..];
    assert r == s[..i - 1] + [s[i], s[i - 1]] + s[i + 1..];
  }

  /** Moving a block left and then right (when it could move left) restores the order. */
  lemma MoveLeftThenRight<T>(s: seq<T>, x: T)
    requires x in s && Distinct(s) && IndexOf(s, x) > 0
    ensures x in MoveLeft(s, x) && MoveRight(MoveLeft(s, x), x) == s
  {
    var i := IndexOf(s, x);
    var t := MoveLeft(s, x);
    assert t[i - 1] == x;
    MovesPermute(s, x);
    IndexOfDistinct(t, i - 1);
    assert SwapDown(t, i) == s;
  }

  /** Moving a block right and then left (when it could move right) restores the order. */
  lemma MoveRightThenLeft<T>(s: seq<T>, x: T)
    requires x in s && Distinct(s) && IndexOf(s, x) < |s| - 1
    ensures x in MoveRight(s, x) && MoveLeft(MoveRight(s, x), x) == s
  {
    var i := IndexOf(s, x);
    var t := MoveRight(s, x);
    assert t[i + 1] == x;
    MovesPermute(s, x);
    IndexOfDistinct(t, i + 1);
    assert SwapDown(t, i + 1) == s;
  }

  // ---------------------------------------------------------------------------------------
  // Removal
  // ---------------------------------------------------------------------------------------

  /** `list.remove` of the element at position `r`. */
  function RemoveAt<T>(s: seq<T>, r: nat): (t: seq<T>)
    requires r < |s|
    ensures |t| == |s| - 1
    ensures forall k :: 0 <= k < |t| ==> t[k] == if k < r then s[k] else s[k + 1]
  {
    s[..r] + s[r + 1..]
  }

  /** Where a queue entry goes when block `r` is removed: gone if it is `r`, shifted down if above. */
  function Renumber(e: int, r: int): seq<int> {
    if e == r then [] else if e < r then [e] else [e - 1]
  }

  /** The queue comprehension of `remove_block`. */
  function RemapQueue(q: seq<int>, r: int): seq<int> {
    if q == [] then [] else RemapQueue(q[..|q| - 1], r) + Renumber(q[|q| - 1], r)
  }

  predicate EntriesBelow(q: seq<int>, n: int) {
    forall k :: 0 <= k < |q| ==> 0 <= q[k] < n
  }

  /** The blocks a queue plays, in order. */
  function Denoted<T>(blocks: seq<T>, q: seq<int>): (d: seq<T>)
    requires EntriesBelow(q, |blocks|)
    ensures |d| == |q|
  {
    if q == [] then [] else Denoted(blocks, q[..|q| - 1]) + [blocks[q[|q| - 1]]]
  }

  /** `s` without any occurrence of `x`, order kept. */
  function Without<T(==)>(s: seq<T>, x: T): seq<T> {
    if s == [] then [] else Without(s[..|s| - 1], x) + (if s[|s| - 1] == x then [] else [s[|s| - 1]])
  }

  /** Renumbering keeps every entry naming a block. */
  lemma {:induction false} RemapBounds(q: seq<int>, r: int, n: int)
    requires EntriesBelow(q, n) && 0 <= r < n
    ensures EntriesBelow(RemapQueue(q, r), n - 1)
    decreases |q|
  {
    if q != [] {
      assert EntriesBelow(q[..|q| - 1], n);
      RemapBounds(q[..|q| - 1], r, n);
    }
  }

  lemma RenumberDenotes<T>(blocks: seq<T>, e: nat, r: nat)
    requires Distinct(blocks) && e < |blocks| && r < |blocks|
    ensures EntriesBelow(Renumber(e, r), |blocks| - 1)
    ensures Denoted(RemoveAt(blocks, r), Renumber(e, r)) == if blocks[e] == blocks[r] then [] else [blocks[e]]
  {
  }

  /**
    After removing block `r`, the renumbered queue plays exactly the blocks the old queue
    played, in the same order, less every turn of the removed block.
   */
  lemma {:induction false} RemapDenotes<T>(blocks: seq<T>, q: seq<int>, r: nat)
    requires Distinct(blocks) && r < |blocks| && EntriesBelow(q, |blocks|)
    ensures EntriesBelow(RemapQueue(q, r), |blocks| - 1)
    ensures Denoted(RemoveAt(blocks, r), RemapQueue(q, r)) == Without(Denoted(blocks, q), blocks[r])
    decreases |q|
  {
    RemapBounds(q, r, |blocks|);
    if q != [] {
      var front, e := q[..|q| - 1], q[|q| - 1];
      var nb := RemoveAt(blocks, r);
      assert EntriesBelow(front, |blocks|);
      RemapDenotes(blocks, front, r);
      var head, tail := RemapQueue(front, r), Renumber(e, r);
      assert RemapQueue(q, r) == head + tail;
      DenotedAppend(nb, head, tail);
      RenumberDenotes(blocks, e, r);
      var d := Denoted(blocks, q);
      assert d[..|d| - 1] == Denoted(blocks, front);
      assert d[|d| - 1] == blocks[e];
    }
  }

  lemma {:induction false} DenotedAppend<T>(blocks: seq<T>, a: seq<int>, b: seq<int>)
    requires EntriesBelow(a + b, |blocks|)
    ensures EntriesBelow(a, |blocks|) && EntriesBelow(b, |blocks|)
    ensures Denoted(blocks, a + b) == Denoted(blocks, a) + Denoted(blocks, b)
    decreases |b|
  {
    assert forall k :: 0 <= k < |a| ==> (a + b)[k] == a[k];
    assert forall k :: 0 <= k < |b| ==> (a + b)[|a| + k] == b[k];
    if b != [] {
      assert (a + b)[..|a + b| - 1] == a + b[..|b| - 1];
      DenotedAppend(blocks, a, b[..|b| - 1]);
    } else {
      assert a + b == a;
    }
  }

  // ---------------------------------------------------------------------------------------
  // The cursor
  // ---------------------------------------------------------------------------------------

  /** The cursor step of `get_next_arpeggio`: one on, back to 0 at the end of the queue. */
  function NextCursor(idx: nat, len: nat): (r: nat)
    ensures len > 0 ==> r < len
  {
    if idx + 1 >= len then 0 else idx + 1
  }

  /** The cursor after `k` steps. */
  function CursorAfter(idx: nat, len: nat, k: nat): nat {
    if k == 0 then idx else NextCursor(CursorAfter(idx, len, k - 1), len)
  }

  /**
    From a valid cursor, `k` steps move it `k` places on, wrapping once past the end: over
    one round the cursor visits every position in cyclic order.
   */
  lemma {:induction false} CursorCycles(idx: nat, len: nat, k: nat)
    requires idx < len && k <= len
    ensures CursorAfter(idx, len, k) == if idx + k < len then idx + k else idx + k - len
  {
    if k > 0 {
      CursorCycles(idx, len, k - 1);
    }
  }

  /** `len(queue)` steps bring the cursor back where it started. */
  lemma CursorReturns(idx: nat, len: nat)
    requires idx < len
    ensures CursorAfter(idx, len, len) == idx
  {
    CursorCycles(idx, len, len);
  }
}
