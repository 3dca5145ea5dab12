/**
 Scenarios on a fresh debouncer: the unit tests' expectations, and the two
 sequences in which a delayed message left behind by `flush` misbehaves.
 "Running the UI thread's tasks" is firing the queued delayed messages.
 */
module Scenarios {
  import opened Registry
  import opened Bulk

  /** A debouncer just created, with nothing pending and nothing queued. */
  ghost predicate Fresh(s: State)
  {
    Inv(s) && s.initialized && s.runnables == map[] && s.queues.delayed == map[]
  }

  /**
   The delay must be set before the instance exists: the first call creates the
   instance with that delay, `getInstance()` then returns it unchanged, and a second
   call is refused and changes nothing.
   */
  lemma DelayMustBeSetBeforeGetInstance()
    ensures var r := SetDefaultDelayTime(Initial(), 1000);
      && r.1 == Ok
      && r.0.defaultDelay == 1000
      && r.0.runnables == map[]
      && r.0.queues.delayed == map[]
      && GetInstance(r.0) == r.0
      && SetDefaultDelayTime(GetInstance(r.0), 50) == (r.0, IllegalArgument)
  {
  }

  /** `k` is the only pending key, held by `w`, and `w`'s message is the only one queued. */
  ghost predicate SolePending(s: State, k: Key, w: Worker)
  {
    && (forall k' :: k' in s.runnables <==> k' == k)
    && k in s.runnables && s.runnables[k] == w
    && (forall i :: i in s.queues.delayed <==> i == w.id)
  }

  /** The first submission on a fresh debouncer. */
  lemma SubmitFirst(s: State, k: Key, a: Action)
    requires Fresh(s)
    ensures var t := Debounce(s, k, a, s.defaultDelay, MainHandler);
      && SolePending(t, k, Worker(s.nextId, k, a, MainHandler))
      && t.queues.posted == s.queues.posted
      && t.defaultDelay == s.defaultDelay
  {
  }

  /** Re-submitting the only pending key replaces its worker and its queued message. */
  lemma Resubmit(s: State, k: Key, w: Worker, a: Action)
    requires Inv(s) && s.initialized && SolePending(s, k, w)
    ensures var t := Debounce(s, k, a, s.defaultDelay, MainHandler);
      && SolePending(t, k, Worker(s.nextId, k, a, MainHandler))
      && t.queues.posted == s.queues.posted
      && t.defaultDelay == s.defaultDelay
  {
  }

  /** Firing the only queued message empties the map and the queue and posts its action. */
  lemma FireSole(s: State, k: Key, w: Worker)
    requires Inv(s) && SolePending(s, k, w)
    ensures Fire(s, w.id).runnables == map[]
    ensures Fire(s, w.id).queues.delayed == map[]
    ensures Fire(s, w.id).queues.posted == s.queues.posted + [Post(w.handler, w.runnable)]
  {
    assert Registered(s, k);
    var t := Fire(s, w.id);
    assert t.runnables.Keys == {};
    assert t.queues.delayed.Keys == {};
  }

  /** One submission is pending until its delayed message fires; then the map and the queue
      are empty and the action has been posted once on the main handler. */
  lemma TaskRemovedAfterFinished(s: State, k: Key, a: Action)
    requires Fresh(s)
    ensures var t := Debounce(s, k, a, s.defaultDelay, MainHandler);
      && |t.runnables| == 1
      && SolePending(t, k, Worker(s.nextId, k, a, MainHandler))
      && Fire(t, s.nextId).runnables == map[]
      && Fire(t, s.nextId).queues.delayed == map[]
      && Fire(t, s.nextId).queues.posted == s.queues.posted + [Post(MainHandler, a)]
  {
    DebounceSize(s, k, a, s.defaultDelay, MainHandler);
    SubmitFirst(s, k, a);
    FireSole(Debounce(s, k, a, s.defaultDelay, MainHandler), k, Worker(s.nextId, k, a, MainHandler));
  }

  /** Submitting three distinct keys registers three workers with consecutive identities,
      each with its delayed message queued, and posts nothing. */
  lemma ThreeSubmitted(s: State, k1: Key, k2: Key, k3: Key, a1: Action, a2: Action, a3: Action,
                       s1: State, s2: State, s3: State)
    requires Fresh(s) && k1 != k2 && k1 != k3 && k2 != k3
    requires s1 == Debounce(s, k1, a1, s.defaultDelay, MainHandler)
    requires s2 == Debounce(s1, k2, a2, s.defaultDelay, MainHandler)
    requires s3 == Debounce(s2, k3, a3, s.defaultDelay, MainHandler)
    ensures forall k :: k in s3.runnables <==> k == k1 || k == k2 || k == k3
    ensures s3.runnables[k1] == Worker(s.nextId, k1, a1, MainHandler)
    ensures s3.runnables[k2] == Worker(s.nextId + 1, k2, a2, MainHandler)
    ensures s3.runnables[k3] == Worker(s.nextId + 2, k3, a3, MainHandler)
    ensures |s3.runnables| == 3
    ensures s1.nextId == s.nextId + 1 && s2.nextId == s.nextId + 2
    ensures s.nextId in s3.queues.delayed && s1.nextId in s3.queues.delayed && s2.nextId in s3.queues.delayed
    ensures s3.queues.posted == s.queues.posted
  {
    SubmitStep(s, k1, a1, s.defaultDelay);
    SubmitStep(s1, k2, a2, s.defaultDelay);
    SubmitStep(s2, k3, a3, s.defaultDelay);
    assert s2.nextId in s3.queues.delayed && s1.nextId in s3.queues.delayed && s.nextId in s3.queues.delayed;
    assert s3.runnables[k1] == Worker(s.nextId, k1, a1, MainHandler);
    assert s3.runnables[k2] == Worker(s.nextId + 1, k2, a2, MainHandler);
    assert |s.runnables| == 0;
  }

  /** One submission of a key not yet pending, on the main handler. */
  lemma SubmitStep(s: State, k: Key, a: Action, d: Millis)
    requires Inv(s) && s.initialized && k !in s.runnables
    ensures var t := Debounce(s, k, a, d, MainHandler);
      && (forall k' :: k' in t.runnables <==> k' == k || k' in s.runnables)
      && (forall k' :: k' in s.runnables ==> t.runnables[k'] == s.runnables[k'])
      && t.runnables[k] == Worker(s.nextId, k, a, MainHandler)
      && |t.runnables| == |s.runnables| + 1
      && t.nextId == s.nextId + 1
      && (forall i :: i in s.queues.delayed ==> i in t.queues.delayed)
      && s.nextId in t.queues.delayed
      && t.queues.posted == s.queues.posted
  {
    DebounceSize(s, k, a, d, MainHandler);
  }

  /** From three pending keys: `flush(k3)`, `flush(k2)`, then `flushAll()` over the one key left. */
  lemma FlushTwoThenAll(s3: State, w1: Worker, w2: Worker, w3: Worker, s4: State, s5: State)
    requires Inv(s3) && w1.key != w2.key && w1.key != w3.key && w2.key != w3.key
    requires forall k :: k in s3.runnables <==> k == w1.key || k == w2.key || k == w3.key
    requires s3.runnables[w1.key] == w1 && s3.runnables[w2.key] == w2 && s3.runnables[w3.key] == w3
    requires |s3.runnables| == 3
    requires s4 == Flush(s3, w3.key) && s5 == Flush(s4, w2.key)
    ensures |s4.runnables| == 2 && |s5.runnables| == 1
    ensures w1.key in s5.runnables && s5.runnables[w1.key] == w1
    ensures Inv(s5) && IsSnapshot([w1.key], s5.runnables)
    ensures FlushEach(s5, [w1.key]).runnables == map[]
    ensures FlushEach(s5, [w1.key]).queues.posted == s3.queues.posted
      + [Post(w3.handler, w3.runnable), Post(w2.handler, w2.runnable), Post(w1.handler, w1.runnable)]
    ensures FlushEach(s5, [w1.key]).queues.delayed == s3.queues.delayed
  {
    var p1, p2, p3 := Post(w1.handler, w1.runnable), Post(w2.handler, w2.runnable), Post(w3.handler, w3.runnable);
    assert w3.key in s3.runnables && w2.key in s4.runnables;
    assert s5.queues.posted == s3.queues.posted + [p3] + [p2];
    assert forall k :: k in s5.runnables <==> k == w1.key;
    assert IsSnapshot([w1.key], s5.runnables);
    FlushAllPostsEachOnce(s5, [w1.key]);
    assert PostsOf(s5.runnables, [w1.key]) == [p1] by {
      assert [w1.key][..0] == [];
    }
    AppendAssoc(s3.queues.posted + [p3], [p2], [p1]);
    AppendAssoc(s3.queues.posted, [p3], [p2, p1]);
  }

  /**
   Three keys are pending; each `flush` removes one, and `flushAll()` removes the last.
   Every flushed action has been posted once, in flush order, and all three delayed
   messages are still queued afterwards.
   */
  lemma PendingTasksMatchNotExecuted(s: State, k1: Key, k2: Key, k3: Key, a1: Action, a2: Action, a3: Action,
                                     s1: State, s2: State, s3: State, s4: State, s5: State)
    requires Fresh(s) && k1 != k2 && k1 != k3 && k2 != k3
    requires s1 == Debounce(s, k1, a1, s.defaultDelay, MainHandler)
    requires s2 == Debounce(s1, k2, a2, s.defaultDelay, MainHandler)
    requires s3 == Debounce(s2, k3, a3, s.defaultDelay, MainHandler)
    requires s4 == Flush(s3, k3) && s5 == Flush(s4, k2)
    ensures |s3.runnables| == 3 && |s4.runnables| == 2 && |s5.runnables| == 1
    ensures k1 in s5.runnables && s5.runnables[k1] == Worker(s.nextId, k1, a1, MainHandler)
    ensures Inv(s5) && IsSnapshot([k1], s5.runnables)
    ensures FlushEach(s5, [k1]).runnables == map[]
    ensures FlushEach(s5, [k1]).queues.posted
         == s.queues.posted + [Post(MainHandler, a3), Post(MainHandler, a2), Post(MainHandler, a1)]
    ensures s.nextId in FlushEach(s5, [k1]).queues.delayed
    ensures s1.nextId in FlushEach(s5, [k1]).queues.delayed
    ensures s2.nextId in FlushEach(s5, [k1]).queues.delayed
  {
    ThreeSubmitted(s, k1, k2, k3, a1, a2, a3, s1, s2, s3);
    var n := s.nextId;
    FlushTwoThenAll(s3, Worker(n, k1, a1, MainHandler), Worker(n + 1, k2, a2, MainHandler), Worker(n + 2, k3, a3, MainHandler),
      s4, s5);
  }

  /** `flush` posts the action at once and empties the map. */
  lemma FlushExecutesAndRemoves(s: State, k: Key, a: Action)
    requires Fresh(s)
    ensures var t := Debounce(s, k, a, s.defaultDelay, MainHandler);
      && |t.runnables| == 1
      && t.queues.posted == s.queues.posted
      && |Flush(t, k).runnables| == 0
      && Flush(t, k).queues.posted == s.queues.posted + [Post(MainHandler, a)]
  {
    DebounceSize(s, k, a, s.defaultDelay, MainHandler);
  }

  /** `clear` empties the map, posts nothing, and leaves nothing queued that could run later. */
  lemma ClearRemovesWithoutExecuting(s: State, k: Key, a: Action)
    requires Fresh(s)
    ensures var t := Debounce(s, k, a, s.defaultDelay, MainHandler);
      && |t.runnables| == 1
      && |Clear(t, k).runnables| == 0
      && Clear(t, k).queues.posted == s.queues.posted
      && Clear(t, k).queues.delayed == map[]
  {
    DebounceSize(s, k, a, s.defaultDelay, MainHandler);
    SubmitFirst(s, k, a);
    var t := Debounce(s, k, a, s.defaultDelay, MainHandler);
    assert Clear(t, k).queues.delayed.Keys == {};
  }

  /** Three submissions under one key leave exactly one queued message, the last one;
      firing it posts only the last action. */
  lemma LastSubmissionRuns(s: State, k: Key, a1: Action, a2: Action, a3: Action, s1: State, s2: State, s3: State)
    requires Fresh(s)
    requires s1 == Debounce(s, k, a1, s.defaultDelay, MainHandler)
    requires s2 == Debounce(s1, k, a2, s.defaultDelay, MainHandler)
    requires s3 == Debounce(s2, k, a3, s.defaultDelay, MainHandler)
    ensures SolePending(s3, k, Worker(s.nextId + 2, k, a3, MainHandler))
    ensures Fire(s3, s.nextId + 2).queues.delayed == map[]
    ensures Fire(s3, s.nextId + 2).runnables == map[]
    ensures Fire(s3, s.nextId + 2).queues.posted == s.queues.posted + [Post(MainHandler, a3)]
  {
    var n := s.nextId;
    SubmitFirst(s, k, a1);
    Resubmit(s1, k, Worker(n, k, a1, MainHandler), a2);
    Resubmit(s2, k, Worker(n + 1, k, a2, MainHandler), a3);
    FireSole(s3, k, Worker(n + 2, k, a3, MainHandler));
  }

  /**
   `flush(k)` followed by the natural timeout of the same worker posts the action twice:
   the flush does not remove the worker's delayed message.
   */
  lemma FlushThenFireRunsTwice(s: State, k: Key)
    requires Inv(s) && k in s.runnables
    ensures var w := s.runnables[k];
      var t := Flush(s, k);
      && w.id in t.queues.delayed
      && Fire(t, w.id).queues.posted
         == s.queues.posted + [Post(w.handler, w.runnable), Post(w.handler, w.runnable)]
  {
  }

  /** Debounce, flush and debounce again on a key not pending: both workers' messages are queued. */
  lemma FlushThenResubmit(s: State, k: Key, a1: Action, a2: Action, d: Millis, s1: State, s2: State, s3: State)
    requires Inv(s) && s.initialized && k !in s.runnables
    requires s1 == Debounce(s, k, a1, d, MainHandler) && s2 == Flush(s1, k) && s3 == Debounce(s2, k, a2, d, MainHandler)
    ensures s.nextId in s3.queues.delayed && s3.queues.delayed[s.nextId].worker == Worker(s.nextId, k, a1, MainHandler)
    ensures s1.nextId == s.nextId + 1 && s1.nextId in s3.queues.delayed
    ensures s3.queues.delayed[s1.nextId].worker == Worker(s1.nextId, k, a2, MainHandler)
    ensures k in s3.runnables && s3.runnables[k] == Worker(s1.nextId, k, a2, MainHandler)
    ensures s3.queues.posted == s.queues.posted + [Post(MainHandler, a1)]
  {
    assert k !in s2.runnables && s2.nextId == s.nextId + 1;
    assert s2.queues.delayed[s.nextId] == s1.queues.delayed[s.nextId];
  }

  /**
   A stale message `stale` for `k` fires while the newer worker `cur` of `k` is registered:
   it drops `cur` from the map without cancelling `cur`'s message, which fires later.
   */
  lemma StaleFire(s: State, k: Key, stale: nat, cur: nat)
    requires Inv(s) && k in s.runnables && s.runnables[k].id == cur && stale != cur
    requires stale in s.queues.delayed && s.queues.delayed[stale].worker.key == k
    ensures var s4 := Fire(s, stale);
      && k !in s4.runnables
      && cur in s4.queues.delayed
      && Clear(s4, k) == s4
      && var w1, w2 := s.queues.delayed[stale].worker, s.runnables[k];
         Fire(s4, cur).queues.posted == s.queues.posted + [Post(w1.handler, w1.runnable)] + [Post(w2.handler, w2.runnable)]
  {
    assert Registered(s, k);
    var s4 := Fire(s, stale);
    assert s.queues.delayed[cur].worker == s.runnables[k];
    assert s4.queues.delayed[cur] == s.queues.delayed[cur];
  }

  /**
   A stale delayed message removes a newer worker of the same key: after debounce, flush
   and debounce again, the first worker's timeout drops the second worker from the map
   while its message stays queued. `clear(k)` then finds nothing to cancel, and the
   second action still runs when its message fires.
   */
  lemma StaleFireDefeatsClear(s: State, k: Key, a1: Action, a2: Action, d: Millis, s1: State, s2: State, s3: State)
    requires Inv(s) && s.initialized && k !in s.runnables
    requires s1 == Debounce(s, k, a1, d, MainHandler) && s2 == Flush(s1, k) && s3 == Debounce(s2, k, a2, d, MainHandler)
    ensures s.nextId in s3.queues.delayed
    ensures var s4 := Fire(s3, s.nextId);
      && k !in s4.runnables
      && s1.nextId in s4.queues.delayed
      && Clear(s4, k) == s4
      && Fire(s4, s1.nextId).queues.posted == s.queues.posted
           + [Post(MainHandler, a1), Post(MainHandler, a1), Post(MainHandler, a2)]
  {
    FlushThenResubmit(s, k, a1, a2, d, s1, s2, s3);
    var p1, p2 := Post(MainHandler, a1), Post(MainHandler, a2);
    StaleFire(s3, k, s.nextId, s1.nextId);
    assert s3.queues.posted + [p1] + [p2] == s.queues.posted + [p1, p1, p2];
  }
}
