/**
 `clearAll()` and `flushAll()` as written: a for-each loop over the live entry set of
 the `HashMap` that holds the pending workers, calling `clear` (resp. `flush`) on each
 key. Both calls remove the key from that same map while the loop runs.

 The map's iterator is fail-fast. `hasNext()` only asks whether a next entry was found
 when the previous one was handed out. `next()` compares the map's modification count
 with the one the iterator saw at creation and throws `ConcurrentModificationException`
 when they differ. Each removal bumps the count by one.
 */
module LiveIteration {
  import opened Registry
  import opened Bulk

  datatype BulkOp = ClearOp | FlushOp

  datatype Termination = Completed | ConcurrentModification

  /** The per-key operation the loop body calls. */
  function Apply(op: BulkOp, s: State, k: Key): (t: State)
    requires Inv(s)
    ensures Inv(t)
    ensures t.runnables == s.runnables - {k}
  {
    match op
    case ClearOp => Clear(s, k)
    case FlushOp => Flush(s, k)
  }

  /** What the snapshot variant does for the same keys. */
  function Each(op: BulkOp, s: State, keys: seq<Key>): (t: State)
    requires Inv(s)
    ensures Inv(t)
  {
    match op
    case ClearOp => ClearEach(s, keys)
    case FlushOp => FlushEach(s, keys)
  }

  /**
   The loop from entry `i` of `order` on, where `order` is the order in which the
   iterator yields the entries that were in the map when it was created; `expected`
   is the count it saw then and `modCount` the map's count now.
   */
  function LiveLoop(op: BulkOp, s: State, order: seq<Key>, i: nat, expected: nat, modCount: nat)
    : (r: (State, Termination))
    requires Inv(s) && i <= |order|
    ensures Inv(r.0)
    decreases |order| - i
  {
    if i == |order| then (s, Completed)
    else if modCount != expected then (s, ConcurrentModification)
    else
      var removes := order[i] in s.runnables;
      LiveLoop(op, Apply(op, s, order[i]), order, i + 1, expected, if removes then modCount + 1 else modCount)
  }

  /** The whole loop, started on a fresh iterator. */
  function AsWritten(op: BulkOp, s: State, order: seq<Key>): (r: (State, Termination))
    requires Inv(s)
    ensures Inv(r.0)
  {
    LiveLoop(op, s, order, 0, 0, 0)
  }

  /**
   With two or more pending keys the loop handles the first key, then the iterator
   throws: the remaining keys stay registered and keep their delayed messages.
   */
  lemma AsWrittenThrows(op: BulkOp, s: State, order: seq<Key>)
    requires Inv(s) && IsSnapshot(order, s.runnables) && |order| >= 2
    ensures AsWritten(op, s, order).1 == ConcurrentModification
    ensures AsWritten(op, s, order).0 == Apply(op, s, order[0])
    ensures forall j :: 1 <= j < |order| ==> order[j] in AsWritten(op, s, order).0.runnables
    ensures forall j :: 1 <= j < |order| ==>
      AsWritten(op, s, order).0.runnables[order[j]] == s.runnables[order[j]]
  {
    assert order[0] in s.runnables;
    var u := Apply(op, s, order[0]);
    assert LiveLoop(op, u, order, 1, 0, 1) == (u, ConcurrentModification);
    forall j | 1 <= j < |order|
      ensures order[j] in u.runnables && u.runnables[order[j]] == s.runnables[order[j]]
    {
      assert order[j] != order[0];
      assert order[j] in s.runnables;
    }
  }

  /** With at most one pending key the loop completes and agrees with the snapshot variant. */
  lemma AsWrittenSmall(op: BulkOp, s: State, order: seq<Key>)
    requires Inv(s) && IsSnapshot(order, s.runnables) && |order| <= 1
    ensures AsWritten(op, s, order).1 == Completed
    ensures AsWritten(op, s, order).0 == Each(op, s, order)
  {
    if |order| == 1 {
      assert order[..0] == [];
      var u := Apply(op, s, order[0]);
      assert LiveLoop(op, u, order, 1, 0, 1) == (u, Completed);
      match op
      case ClearOp =>
        assert ClearEach(s, order) == Clear(ClearEach(s, []), order[0]);
      case FlushOp =>
        assert FlushEach(s, order) == Flush(FlushEach(s, []), order[0]);
    }
  }
}
