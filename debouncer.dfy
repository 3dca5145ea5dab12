/**
 The `Debouncer` class itself: the singleton's fields updated in place.

 One object stands for the class's storage: `initialized` is the static
 `instance != null`, the other fields are the instance's fields, and `queues` is the
 state of the Android handlers the instance posts to. `nextWorkerId` hands out the
 identities of new `Worker` objects. The constructor yields `Registry.Initial()`.
 `GetInstance`, `SetDefaultDelayTime`, `Debounce`, `Clear`, `Run`, `Flush` and `Fire`
 are proved to perform exactly the `Registry` function of the same name, and the three
 shorter `debounce` overloads perform `Registry.Debounce` with their defaults filled
 in; so the lemmas proved in Registry hold of the class. `ClearAll` and `FlushAll` have
 no single `Registry` function: their own postconditions state their effect, proved
 from the `Bulk` lemmas.
 */
module Debouncing {
  import opened Registry
  import opened Bulk

  class Debouncer {
    var initialized: bool
    var defaultDelayTimeMillis: Millis
    var runnables: map<Key, Worker>
    var queues: Queues
    var nextWorkerId: nat

    /** The fields as a registry state. */
    ghost function Model(): State
      reads this
    {
      State(initialized, defaultDelayTimeMillis, runnables, queues, nextWorkerId)
    }

    ghost predicate Valid()
      reads this
    {
      Inv(Model())
    }

    /** The class as loaded: no instance yet, default delay 250, nothing queued. */
    constructor ()
      ensures Valid() && Model() == Initial()
    {
      initialized := false;
      defaultDelayTimeMillis := DefaultDelayMillis;
      runnables := map[];
      queues := Queues(map[], []);
      nextWorkerId := 0;
    }

    /** `getInstance()`. */
    method GetInstance()
      requires Valid()
      modifies this
      ensures Valid() && initialized
      ensures Model() == Registry.GetInstance(old(Model()))
    {
      if !initialized {
        runnables := map[];
        initialized := true;
      }
    }

    /** `setDefaultDelayTime(d)`; `IllegalArgument` stands for the exception. */
    method SetDefaultDelayTime(d: Millis) returns (status: Status)
      requires Valid()
      modifies this
      ensures Valid() && initialized
      ensures (Model(), status) == Registry.SetDefaultDelayTime(old(Model()), d)
    {
      if initialized {
        status := IllegalArgument;
      } else {
        GetInstance();
        defaultDelayTimeMillis := d;
        status := Ok;
      }
    }

    /** `debounce(key, runnable, delayMillis, handler)`. */
    method Debounce(key: Key, runnable: Action, delayMillis: Millis, handler: HandlerId)
      requires Valid() && initialized
      modifies this
      ensures Model() == Registry.Debounce(old(Model()), key, runnable, delayMillis, handler)
      ensures Valid()
    {
      ghost var s0 := Model();
      if key in runnables {
        Clear(key);
      }
      ghost var s1 := Model();
      assert s1 == if key in s0.runnables then Registry.Clear(s0, key) else s0;
      FreshWorkerId(s1);
      var worker := Worker(nextWorkerId, key, runnable, handler);
      assert Registry.Debounce(s0, key, runnable, delayMillis, handler) == Insert(s1, worker, delayMillis);
      runnables := runnables[key := worker];
      queues := PostDelayed(queues, handler, worker, delayMillis);
      nextWorkerId := nextWorkerId + 1;
    }

    /** `debounce(key, runnable, delayMillis)`: on the main handler. */
    method DebounceWithDelay(key: Key, runnable: Action, delayMillis: Millis)
      requires Valid() && initialized
      modifies this
      ensures Model() == Registry.Debounce(old(Model()), key, runnable, delayMillis, MainHandler)
      ensures Valid()
    {
      Debounce(key, runnable, delayMillis, MainHandler);
    }

    /** `debounce(key, runnable)`: the default delay, on the main handler. */
    method DebounceDefault(key: Key, runnable: Action)
      requires Valid() && initialized
      modifies this
      ensures Model() == Registry.Debounce(old(Model()), key, runnable, old(defaultDelayTimeMillis), MainHandler)
      ensures Valid()
    {
      Debounce(key, runnable, defaultDelayTimeMillis, MainHandler);
    }

    /** `debounce(key, runnable, handler)`: the default delay, on `handler`. */
    method DebounceOnHandler(key: Key, runnable: Action, handler: HandlerId)
      requires Valid() && initialized
      modifies this
      ensures Model() == Registry.Debounce(old(Model()), key, runnable, old(defaultDelayTimeMillis), handler)
      ensures Valid()
    {
      Debounce(key, runnable, defaultDelayTimeMillis, handler);
    }

    /** `clear(key)`. */
    method Clear(key: Key)
      requires Valid()
      modifies this
      ensures Model() == Registry.Clear(old(Model()), key)
      ensures Valid()
    {
      if key in runnables {
        var worker := runnables[key];
        queues := RemoveCallbacks(queues, worker.handler, worker);
        runnables := runnables - {key};
      }
    }

    /** `Worker.run()` for `worker`, while the instance exists. */
    method Run(worker: Worker)
      requires Valid() && initialized
      modifies this
      ensures Model() == Registry.Run(old(Model()), worker)
      ensures Valid()
    {
      RunKeepsInv(Model(), worker);
      runnables := runnables - {worker.key};
      queues := PostNow(queues, worker.handler, worker.runnable);
    }

    /** `flush(key)`. */
    method Flush(key: Key)
      requires Valid()
      modifies this
      ensures Model() == Registry.Flush(old(Model()), key)
      ensures Valid()
    {
      if key in runnables {
        var worker := runnables[key];
        Run(worker);
      }
    }

    /** The handler's looper delivers the delayed message of worker `id`. */
    method Fire(id: nat)
      requires Valid() && id in queues.delayed
      modifies this
      ensures Model() == Registry.Fire(old(Model()), id)
      ensures Valid()
    {
      var worker := queues.delayed[id].worker;
      queues := Dequeue(queues, id);
      runnables := runnables - {worker.key};
      queues := PostNow(queues, worker.handler, worker.runnable);
    }

    /**
     `clearAll()` over a snapshot of the keys: the map ends empty, the delayed message of
     every worker it held is cancelled, and nothing runs.
     */
    method ClearAll()
      requires Valid()
      modifies this
      ensures Valid()
      ensures runnables == map[]
      ensures queues.delayed == old(queues.delayed) - WorkerIds(old(runnables))
      ensures queues.posted == old(queues.posted)
      ensures initialized == old(initialized) && defaultDelayTimeMillis == old(defaultDelayTimeMillis)
      ensures nextWorkerId == old(nextWorkerId)
    {
      ghost var s := Model();
      var keys := SnapshotKeys(runnables);
      ClearAllEmpties(s, keys);
      for i := 0 to |keys|
        invariant Model() == ClearEach(s, keys[..i])
        invariant Valid()
      {
        ClearEachNext(s, keys, i);
        Clear(keys[i]);
      }
      assert keys[..|keys|] == keys;
    }

    /**
     `flushAll()` over a snapshot of the keys, taken in `order`: the map ends empty, the
     action of every worker it held is posted once, in `order`, and the delayed messages
     stay queued.
     */
    method FlushAll() returns (order: seq<Key>)
      requires Valid()
      modifies this
      ensures Valid()
      ensures IsSnapshot(order, old(runnables))
      ensures runnables == map[]
      ensures queues.posted == old(queues.posted) + PostsOf(old(runnables), order)
      ensures queues.delayed == old(queues.delayed)
      ensures initialized == old(initialized) && defaultDelayTimeMillis == old(defaultDelayTimeMillis)
      ensures nextWorkerId == old(nextWorkerId)
    {
      ghost var s := Model();
      order := SnapshotKeys(runnables);
      FlushAllPostsEachOnce(s, order);
      for i := 0 to |order|
        invariant Model() == FlushEach(s, order[..i])
        invariant Valid()
      {
        FlushEachNext(s, order, i);
        Flush(order[i]);
      }
      assert order[..|order|] == order;
    }
  }
}
