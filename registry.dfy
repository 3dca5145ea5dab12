/**
 The keyed debounce registry as a state machine over values.

 `State` holds what the Java `Debouncer` keeps (the `instance` flag, the default
 delay, the `runnables` map from key to `Worker`) together with the part of the
 Android `Handler`s that the registry touches: the delayed messages that are
 still queued and the log of runnables handed to `Handler.post`. Each function
 below is one public operation; the class in module Debouncing is proved to
 perform exactly these transitions.
 */
module Registry {

  /** A caller-chosen key; `@NonNull`, so never null. */
  type Key = string

  /** A caller's `Runnable`, known only by its identity. */
  type Action = nat

  /** An Android `Handler`, known only by its identity. */
  type HandlerId = nat

  /** A Java `long` number of milliseconds. */
  newtype Millis = x: int | -0x8000_0000_0000_0000 <= x < 0x8000_0000_0000_0000

  /** `DEFAULT_DELAY_MILLIS`. */
  const DefaultDelayMillis: Millis := 250

  /** The handler on the main looper that the constructor creates. */
  const MainHandler: HandlerId := 0

  /** A `Worker` object; `id` stands for its object identity, which
      `removeCallbacks` compares. */
  datatype Worker = Worker(id: nat, key: Key, runnable: Action, handler: HandlerId)

  /** A delayed message queued by `handler.postDelayed(worker, delay)`. */
  datatype Message = Message(handler: HandlerId, worker: Worker, delay: Millis)

  /** A runnable handed to `handler.post`, i.e. an execution of the action. */
  datatype Post = Post(handler: HandlerId, action: Action)

  /** The handlers' queues: delayed messages by worker id, and every immediate post so far. */
  datatype Queues = Queues(delayed: map<nat, Message>, posted: seq<Post>)

  // ---------------------------------------------------------------------
  // The three Handler primitives the registry uses, and the looper's dequeue.

  function PostDelayed(q: Queues, h: HandlerId, w: Worker, delay: Millis): (r: Queues)
    requires w.id !in q.delayed
    ensures r.delayed.Keys == q.delayed.Keys + {w.id}
    ensures r.delayed[w.id] == Message(h, w, delay)
    ensures forall i :: i in q.delayed && i != w.id ==> r.delayed[i] == q.delayed[i]
    ensures r.posted == q.posted
  {
    q.(delayed := q.delayed[w.id := Message(h, w, delay)])
  }

  /** `h.removeCallbacks(w)`: drops every message of `h` whose callback is `w`. */
  function RemoveCallbacks(q: Queues, h: HandlerId, w: Worker): (r: Queues)
    ensures forall i :: i in r.delayed <==> i in q.delayed && !(q.delayed[i].handler == h && q.delayed[i].worker == w)
    ensures forall i :: i in r.delayed ==> r.delayed[i] == q.delayed[i]
    ensures r.posted == q.posted
  {
    q.(delayed := map i | i in q.delayed && !(q.delayed[i].handler == h && q.delayed[i].worker == w) :: q.delayed[i])
  }

  function PostNow(q: Queues, h: HandlerId, a: Action): (r: Queues)
    ensures r.posted == q.posted + [Post(h, a)]
    ensures r.delayed == q.delayed
  {
    q.(posted := q.posted + [Post(h, a)])
  }

  /** The looper takes the delayed message of worker `id` off the queue to run it. */
  function Dequeue(q: Queues, id: nat): (r: Queues)
    ensures r.delayed == q.delayed - {id}
    ensures r.posted == q.posted
  {
    q.(delayed := q.delayed - {id})
  }

  // ---------------------------------------------------------------------
  // Registry state and its invariant.

  /** `initialized` is `instance != null`; `nextId` is the identity the next `new Worker` gets. */
  datatype State = State(
    initialized: bool,
    defaultDelay: Millis,
    runnables: map<Key, Worker>,
    queues: Queues,
    nextId: nat)

  /** Before `getInstance()`: no instance, nothing queued. */
  function Initial(): (s: State)
    ensures Inv(s) && !s.initialized
  {
    State(false, DefaultDelayMillis, map[], Queues(map[], []), 0)
  }

  /** The worker under `k` carries `k` and its delayed message is still queued. */
  ghost predicate Registered(s: State, k: Key)
    requires k in s.runnables
  {
    var w := s.runnables[k];
    && w.key == k
    && w.id in s.queues.delayed
    && s.queues.delayed[w.id].worker == w
  }

  /** A queued message is keyed by its worker's identity, was posted on that
      worker's handler, and that identity has been handed out. */
  ghost predicate WellQueued(s: State, i: nat)
    requires i in s.queues.delayed
  {
    var m := s.queues.delayed[i];
    && m.worker.id == i
    && m.handler == m.worker.handler
    && i < s.nextId
  }

  ghost predicate Inv(s: State)
  {
    && (forall k {:trigger Registered(s, k)} :: k in s.runnables ==> Registered(s, k))
    && (forall i {:trigger WellQueued(s, i)} :: i in s.queues.delayed ==> WellQueued(s, i))
    && (!s.initialized ==> s.runnables == map[] && s.defaultDelay == DefaultDelayMillis && s.queues == Queues(map[], []))
  }

  /** Identities of the workers currently in the map. */
  ghost function WorkerIds(m: map<Key, Worker>): set<nat>
  {
    set k | k in m :: m[k].id
  }

  /** Ids of the queued delayed messages whose worker belongs to key `k`. */
  ghost function PendingFor(s: State, k: Key): set<nat>
  {
    set i | i in s.queues.delayed && s.queues.delayed[i].worker.key == k
  }

  /** The only delayed message queued for `k` is that of the worker in the map (if any). */
  ghost predicate Settled(s: State, k: Key)
  {
    PendingFor(s, k) == if k in s.runnables then {s.runnables[k].id} else {}
  }

  /** Every key starts settled: nothing is queued for it. */
  lemma InitialSettled()
    ensures forall k :: Settled(Initial(), k)
  {
  }

  // ---------------------------------------------------------------------
  // Operations.

  /** `getInstance()`: creates the instance (empty map, default delay 250) the first time. */
  function GetInstance(s: State): (t: State)
    requires Inv(s)
    ensures Inv(t) && t.initialized
    ensures t.runnables == s.runnables && t.queues == s.queues && t.defaultDelay == s.defaultDelay
    ensures !s.initialized ==> t.runnables == map[] && t.defaultDelay == DefaultDelayMillis
    ensures s.initialized ==> t == s
  {
    s.(initialized := true)
  }

  datatype Status = Ok | IllegalArgument

  /** `setDefaultDelayTime(d)`: refused once the instance exists; otherwise creates it with delay `d`. */
  function SetDefaultDelayTime(s: State, d: Millis): (r: (State, Status))
    requires Inv(s)
    ensures Inv(r.0) && r.0.initialized
    ensures r.1 == Ok <==> !s.initialized
    ensures r.1 == Ok ==> r.0.defaultDelay == d && r.0.runnables == map[] && r.0.queues == s.queues
    ensures r.1 == IllegalArgument ==> r.0 == s
  {
    if s.initialized then (s, IllegalArgument)
    else (GetInstance(s).(defaultDelay := d), Ok)
  }

  /** `clear(k)`: cancels the worker's delayed message and forgets the key, without running anything. */
  function Clear(s: State, k: Key): (t: State)
    requires Inv(s)
    ensures Inv(t)
    ensures t.runnables == s.runnables - {k}
    ensures t.queues.posted == s.queues.posted
    ensures k in s.runnables ==> t.queues.delayed == s.queues.delayed - {s.runnables[k].id}
    ensures k !in s.runnables ==> t == s
    ensures |t.runnables| == if k in s.runnables then |s.runnables| - 1 else |s.runnables|
    ensures t.initialized == s.initialized && t.defaultDelay == s.defaultDelay && t.nextId == s.nextId
  {
    if k in s.runnables then
      var w := s.runnables[k];
      var q := RemoveCallbacks(s.queues, w.handler, w);
      CancelRegistered(s, k);
      var t := s.(runnables := s.runnables - {k}, queues := q);
      forall k' | k' in t.runnables ensures t.runnables[k'].id in t.queues.delayed {
        DistinctIds(s, k, k');
        assert Registered(s, k');
      }
      InvAfterRemoval(s, t);
      assert t.runnables.Keys == s.runnables.Keys - {k};
      t
    else
      s
  }

  /** `removeCallbacks` on the worker registered under `k` cancels exactly that worker's message. */
  lemma CancelRegistered(s: State, k: Key)
    requires Inv(s) && k in s.runnables
    ensures var w := s.runnables[k];
      RemoveCallbacks(s.queues, w.handler, w).delayed == s.queues.delayed - {w.id}
  {
    var w := s.runnables[k];
    var q := RemoveCallbacks(s.queues, w.handler, w);
    assert Registered(s, k);
    forall i | i in s.queues.delayed ensures i in q.delayed <==> i != w.id {
      assert WellQueued(s, i);
    }
    assert q.delayed == s.queues.delayed - {w.id};
  }

  /** Workers registered under different keys are different objects. */
  lemma DistinctIds(s: State, k: Key, k': Key)
    requires Inv(s) && k in s.runnables && k' in s.runnables && k != k'
    ensures s.runnables[k].id != s.runnables[k'].id
  {
    assert Registered(s, k) && Registered(s, k');
  }

  /** Dropping keys and queued messages keeps the invariant, as long as every
      remaining key still has its message. */
  lemma InvAfterRemoval(s: State, t: State)
    requires Inv(s)
    requires t.initialized == s.initialized && t.defaultDelay == s.defaultDelay && t.nextId == s.nextId
    requires forall k :: k in t.runnables ==> k in s.runnables && t.runnables[k] == s.runnables[k]
    requires forall i :: i in t.queues.delayed ==> i in s.queues.delayed && t.queues.delayed[i] == s.queues.delayed[i]
    requires forall k :: k in t.runnables ==> t.runnables[k].id in t.queues.delayed
    requires !s.initialized ==> t.queues.posted == s.queues.posted
    ensures Inv(t)
  {
    forall k | k in t.runnables ensures Registered(t, k) {
      assert Registered(s, k);
    }
    forall i | i in t.queues.delayed ensures WellQueued(t, i) {
      assert WellQueued(s, i);
    }
    if !s.initialized {
      assert t.runnables.Keys == {} && t.queues.delayed.Keys == {};
    }
  }

  /** `debounce(k, a, d, h)`: replaces any worker of `k` by a fresh one whose delayed message is queued on `h`. */
  function Debounce(s: State, k: Key, a: Action, d: Millis, h: HandlerId): (t: State)
    requires Inv(s) && s.initialized
    ensures Inv(t) && t.initialized && t.defaultDelay == s.defaultDelay && t.nextId == s.nextId + 1
    ensures t.runnables == s.runnables[k := Worker(s.nextId, k, a, h)]
    ensures t.queues.delayed ==
      (if k in s.runnables then s.queues.delayed - {s.runnables[k].id} else s.queues.delayed)
        [s.nextId := Message(h, Worker(s.nextId, k, a, h), d)]
    ensures t.queues.posted == s.queues.posted
  {
    FreshWorkerId(s);
    var w := Worker(s.nextId, k, a, h);
    if k in s.runnables then
      var s1 := Clear(s, k);
      assert s1.runnables[k := w] == s.runnables[k := w];
      Insert(s1, w, d)
    else
      Insert(s, w, d)
  }

  /** The tail of `debounce`: `runnables.put(key, worker)` and `handler.postDelayed(worker, delay)`
      for a fresh worker whose key is absent. */
  function Insert(s: State, w: Worker, d: Millis): (t: State)
    requires Inv(s) && s.initialized && w.id == s.nextId && w.key !in s.runnables
    ensures Inv(t) && t.initialized && t.defaultDelay == s.defaultDelay && t.nextId == s.nextId + 1
    ensures t.runnables == s.runnables[w.key := w]
    ensures t.queues.delayed == s.queues.delayed[w.id := Message(w.handler, w, d)]
    ensures t.queues.posted == s.queues.posted
    ensures |t.runnables| == |s.runnables| + 1
  {
    FreshWorkerId(s);
    var t := s.(runnables := s.runnables[w.key := w], queues := PostDelayed(s.queues, w.handler, w, d), nextId := s.nextId + 1);
    assert forall k :: k in t.runnables ==> Registered(t, k) by {
      forall k | k in t.runnables ensures Registered(t, k) {
        if k != w.key {
          assert Registered(s, k);
        }
      }
    }
    assert forall i :: i in t.queues.delayed ==> WellQueued(t, i) by {
      forall i | i in t.queues.delayed ensures WellQueued(t, i) {
        if i != w.id {
          assert WellQueued(s, i);
        }
      }
    }
    t
  }

  /** Identities handed out so far are all below `nextId`. */
  lemma FreshWorkerId(s: State)
    requires Inv(s)
    ensures s.nextId !in s.queues.delayed && s.nextId !in WorkerIds(s.runnables)
  {
    forall i | i in s.queues.delayed ensures i != s.nextId {
      assert WellQueued(s, i);
    }
    forall k | k in s.runnables ensures s.runnables[k].id != s.nextId {
      assert Registered(s, k);
    }
  }

  /** `Worker.run()`: removes whatever the map holds under the worker's key, then posts its action. */
  function Run(s: State, w: Worker): (t: State)
    ensures t.runnables == s.runnables - {w.key}
    ensures t.queues.posted == s.queues.posted + [Post(w.handler, w.runnable)]
    ensures t.queues.delayed == s.queues.delayed
    ensures t.initialized == s.initialized && t.defaultDelay == s.defaultDelay && t.nextId == s.nextId
  {
    s.(runnables := s.runnables - {w.key}, queues := PostNow(s.queues, w.handler, w.runnable))
  }

  /** Once the instance exists, running any worker keeps the invariant: it only drops a
      key and appends a post. */
  lemma RunKeepsInv(s: State, w: Worker)
    requires Inv(s) && s.initialized
    ensures Inv(Run(s, w))
  {
    var t := Run(s, w);
    forall k' | k' in t.runnables ensures t.runnables[k'].id in t.queues.delayed {
      assert Registered(s, k');
    }
    InvAfterRemoval(s, t);
  }

  /** `flush(k)`: runs the worker now. Its delayed message stays queued. */
  function Flush(s: State, k: Key): (t: State)
    requires Inv(s)
    ensures Inv(t)
    ensures t.runnables == s.runnables - {k}
    ensures k in s.runnables ==>
      t.queues.posted == s.queues.posted + [Post(s.runnables[k].handler, s.runnables[k].runnable)]
    ensures k !in s.runnables ==> t == s
    ensures t.queues.delayed == s.queues.delayed
    ensures k in s.runnables ==>
      s.runnables[k].id in t.queues.delayed && t.queues.delayed[s.runnables[k].id].worker == s.runnables[k]
    ensures |t.runnables| == if k in s.runnables then |s.runnables| - 1 else |s.runnables|
    ensures t.initialized == s.initialized && t.defaultDelay == s.defaultDelay && t.nextId == s.nextId
  {
    if k in s.runnables then
      var t := Run(s, s.runnables[k]);
      assert Registered(s, k);
      forall k' | k' in t.runnables ensures t.runnables[k'].id in t.queues.delayed {
        assert Registered(s, k');
      }
      InvAfterRemoval(s, t);
      assert t.runnables.Keys == s.runnables.Keys - {k};
      t
    else
      s
  }

  /** The handler delivers the delayed message of worker `id`, which runs `Worker.run()`. */
  function Fire(s: State, id: nat): (t: State)
    requires Inv(s) && id in s.queues.delayed
    ensures Inv(t)
    ensures var w := s.queues.delayed[id].worker;
      && t.runnables == s.runnables - {w.key}
      && t.queues.posted == s.queues.posted + [Post(w.handler, w.runnable)]
    ensures t.queues.delayed == s.queues.delayed - {id}
    ensures t.initialized == s.initialized && t.defaultDelay == s.defaultDelay && t.nextId == s.nextId
  {
    var w := s.queues.delayed[id].worker;
    var t := Run(s.(queues := Dequeue(s.queues, id)), w);
    forall k' | k' in t.runnables ensures t.runnables[k'].id in t.queues.delayed {
      assert Registered(s, k');
    }
    InvAfterRemoval(s, t);
    t
  }

  // ---------------------------------------------------------------------
  // Per-key lifecycle: at most one delayed message per key, unless a flush left one behind.

  /** How `clear(k)` changes the queued messages of any key `k'`. */
  lemma ClearPending(s: State, k: Key, k': Key)
    requires Inv(s) && k in s.runnables
    ensures PendingFor(Clear(s, k), k') == PendingFor(s, k') - {s.runnables[k].id}
  {
  }

  /** How inserting worker `w` changes the queued messages of any key `k'`. */
  lemma InsertPending(s: State, w: Worker, d: Millis, k': Key)
    requires Inv(s) && s.initialized && w.id == s.nextId && w.key !in s.runnables
    ensures w.key == k' ==> PendingFor(Insert(s, w, d), k') == PendingFor(s, k') + {w.id}
    ensures w.key != k' ==> PendingFor(Insert(s, w, d), k') == PendingFor(s, k')
  {
    FreshWorkerId(s);
  }

  /** How `debounce(k, ...)` changes the queued messages of any key `k'`. */
  lemma DebouncePending(s: State, k: Key, a: Action, d: Millis, h: HandlerId, k': Key)
    requires Inv(s) && s.initialized
    ensures var t := Debounce(s, k, a, d, h);
      && (k' == k && k in s.runnables ==> PendingFor(t, k) == PendingFor(s, k) - {s.runnables[k].id} + {s.nextId})
      && (k' == k && k !in s.runnables ==> PendingFor(t, k) == PendingFor(s, k) + {s.nextId})
      && (k' != k ==> PendingFor(t, k') == PendingFor(s, k'))
  {
    FreshWorkerId(s);
    var w := Worker(s.nextId, k, a, h);
    if k in s.runnables {
      var s1 := Clear(s, k);
      assert Debounce(s, k, a, d, h) == Insert(s1, w, d);
      ClearPending(s, k, k');
      InsertPending(s1, w, d, k');
      if k' != k {
        assert Registered(s, k);
        assert s.runnables[k].id !in PendingFor(s, k');
      }
    } else {
      InsertPending(s, w, d, k');
    }
  }

  /** Re-submitting a key cancels the previous worker: afterwards the only queued
      message for `k` is the new worker's, carrying the last action and delay. */
  lemma DebounceLastWriteWins(s: State, k: Key, a: Action, d: Millis, h: HandlerId)
    requires Inv(s) && s.initialized && Settled(s, k)
    ensures var t := Debounce(s, k, a, d, h);
      && Settled(t, k)
      && PendingFor(t, k) == {s.nextId}
      && t.queues.delayed[s.nextId].worker.runnable == a
      && t.queues.delayed[s.nextId].delay == d
  {
    DebouncePending(s, k, a, d, h, k);
    var t := Debounce(s, k, a, d, h);
    if k in s.runnables {
      OnlyNew(PendingFor(t, k), PendingFor(s, k), {s.runnables[k].id}, s.nextId);
    } else {
      OnlyNew(PendingFor(t, k), PendingFor(s, k), {}, s.nextId);
    }
    assert t.runnables[k].id == s.nextId;
  }

  lemma OnlyNew(after: set<nat>, before: set<nat>, gone: set<nat>, n: nat)
    requires before == gone && after == before - gone + {n}
    ensures after == {n}
  {
  }

  /** The map grows by one exactly when the key was not pending: re-submission never grows it. */
  lemma DebounceSize(s: State, k: Key, a: Action, d: Millis, h: HandlerId)
    requires Inv(s) && s.initialized
    ensures |Debounce(s, k, a, d, h).runnables| == if k in s.runnables then |s.runnables| else |s.runnables| + 1
  {
    var s1 := if k in s.runnables then Clear(s, k) else s;
    assert |s1.runnables| == if k in s.runnables then |s.runnables| - 1 else |s.runnables|;
    assert Debounce(s, k, a, d, h).runnables == s1.runnables[k := Worker(s.nextId, k, a, h)];
  }

  /** Other keys keep their queued messages, and stay settled, when `k` is debounced. */
  lemma DebounceOtherKeys(s: State, k: Key, a: Action, d: Millis, h: HandlerId, k': Key)
    requires Inv(s) && s.initialized && k' != k
    ensures var t := Debounce(s, k, a, d, h);
      && PendingFor(t, k') == PendingFor(s, k')
      && (Settled(s, k') ==> Settled(t, k'))
  {
    DebouncePending(s, k, a, d, h, k');
  }

  /** `clear(k)` leaves no queued message for `k` when the key was settled: its action can no longer run. */
  lemma ClearCancels(s: State, k: Key)
    requires Inv(s) && Settled(s, k)
    ensures var t := Clear(s, k);
      && PendingFor(t, k) == {}
      && Settled(t, k)
      && t.queues.posted == s.queues.posted
  {
    if k in s.runnables {
      ClearPending(s, k, k);
    }
  }

  /** Firing the registered worker of `k` ends its lifecycle: `k` is absent and nothing more is queued for it. */
  lemma FireSettles(s: State, k: Key)
    requires Inv(s) && Settled(s, k) && k in s.runnables
    ensures var t := Fire(s, s.runnables[k].id);
      && k !in t.runnables
      && PendingFor(t, k) == {}
      && Settled(t, k)
      && t.queues.posted == s.queues.posted + [Post(s.runnables[k].handler, s.runnables[k].runnable)]
  {
    assert Registered(s, k);
    var t := Fire(s, s.runnables[k].id);
    assert PendingFor(t, k) == PendingFor(s, k) - {s.runnables[k].id};
  }

  /** `flush(k)` removes the key but leaves the worker's delayed message queued: `k` is no longer settled. */
  lemma FlushLeavesDelayedPost(s: State, k: Key)
    requires Inv(s) && k in s.runnables
    ensures var t := Flush(s, k);
      && k !in t.runnables
      && s.runnables[k].id in PendingFor(t, k)
      && !Settled(t, k)
  {
    var t := Flush(s, k);
    assert Registered(s, k);
    assert s.runnables[k].id in PendingFor(t, k);
  }

  // ---------------------------------------------------------------------
  // Histories without `flush` keep every key settled.

  /** Every key has at most the queued message of its mapped worker. */
  ghost predicate AllSettled(s: State)
  {
    forall k :: Settled(s, k)
  }

  /** `clear(k)` leaves every other settled key settled. */
  lemma ClearOtherKeys(s: State, k: Key, k': Key)
    requires Inv(s) && k != k' && Settled(s, k')
    ensures Settled(Clear(s, k), k')
  {
    if k in s.runnables {
      ClearPending(s, k, k');
      assert Registered(s, k);
    }
  }

  /** Delivering a message of another key leaves `k'` settled. */
  lemma FireOtherKeys(s: State, id: nat, k': Key)
    requires Inv(s) && id in s.queues.delayed && s.queues.delayed[id].worker.key != k' && Settled(s, k')
    ensures Settled(Fire(s, id), k')
  {
    var t := Fire(s, id);
    assert PendingFor(t, k') == PendingFor(s, k');
  }

  /** `debounce` keeps every key settled. */
  lemma DebounceKeepsSettled(s: State, k: Key, a: Action, d: Millis, h: HandlerId)
    requires Inv(s) && s.initialized && AllSettled(s)
    ensures AllSettled(Debounce(s, k, a, d, h))
  {
    forall k' ensures Settled(Debounce(s, k, a, d, h), k') {
      if k' == k {
        DebounceLastWriteWins(s, k, a, d, h);
      } else {
        DebounceOtherKeys(s, k, a, d, h, k');
      }
    }
  }

  /** `clear` keeps every key settled. */
  lemma ClearKeepsSettled(s: State, k: Key)
    requires Inv(s) && AllSettled(s)
    ensures AllSettled(Clear(s, k))
  {
    forall k' ensures Settled(Clear(s, k), k') {
      if k' == k {
        ClearCancels(s, k);
      } else {
        ClearOtherKeys(s, k, k');
      }
    }
  }

  /** When every key is settled, each queued message belongs to the worker mapped under its key. */
  lemma QueuedIsRegistered(s: State, id: nat)
    requires Inv(s) && AllSettled(s) && id in s.queues.delayed
    ensures var k := s.queues.delayed[id].worker.key;
      k in s.runnables && s.runnables[k].id == id
  {
    var k := s.queues.delayed[id].worker.key;
    assert id in PendingFor(s, k);
    assert Settled(s, k);
  }

  /** Delivering any queued message keeps every key settled. */
  lemma FireKeepsSettled(s: State, id: nat)
    requires Inv(s) && AllSettled(s) && id in s.queues.delayed
    ensures AllSettled(Fire(s, id))
  {
    var k := s.queues.delayed[id].worker.key;
    QueuedIsRegistered(s, id);
    forall k' ensures Settled(Fire(s, id), k') {
      if k' == k {
        FireSettles(s, k);
      } else {
        FireOtherKeys(s, id, k');
      }
    }
  }
}
