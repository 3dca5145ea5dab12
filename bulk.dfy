/**
 `clearAll()` and `flushAll()` with snapshot semantics: the keys present at the
 call are copied into a sequence first, and `clear` (resp. `flush`) is applied to
 each of them in that order. Which order the map yields is unspecified, so the
 snapshot is a parameter of the functions and a result of `SnapshotKeys`.
 */
module Bulk {
  import opened Registry

  ghost predicate Distinct(keys: seq<Key>)
  {
    forall i, j :: 0 <= i < j < |keys| ==> keys[i] != keys[j]
  }

  /** `keys` lists every key of `m` exactly once. */
  ghost predicate IsSnapshot(keys: seq<Key>, m: map<Key, Worker>)
  {
    Distinct(keys) && forall k :: k in keys <==> k in m
  }

  ghost function KeySet(keys: seq<Key>): set<Key>
  {
    set k | k in keys
  }

  /** Identities of the workers that `keys` select from `m`. */
  ghost function IdsOf(m: map<Key, Worker>, keys: seq<Key>): set<nat>
  {
    set k | k in keys && k in m :: m[k].id
  }

  /** Copies the key set of the map into a sequence, one key at a time. */
  method SnapshotKeys(m: map<Key, Worker>) returns (keys: seq<Key>)
    ensures IsSnapshot(keys, m)
  {
    keys := [];
    var rest := m.Keys;
    while rest != {}
      invariant rest <= m.Keys
      invariant Distinct(keys)
      invariant forall k :: k in keys <==> k in m && k !in rest
      decreases rest
    {
      var k :| k in rest;
      keys := keys + [k];
      rest := rest - {k};
    }
  }

  /** `clear` applied to each key of `keys`, first to last. */
  function ClearEach(s: State, keys: seq<Key>): (t: State)
    requires Inv(s)
    ensures Inv(t)
    ensures t.queues.posted == s.queues.posted
    ensures t.initialized == s.initialized && t.defaultDelay == s.defaultDelay && t.nextId == s.nextId
    decreases |keys|
  {
    if keys == [] then s
    else Clear(ClearEach(s, keys[..|keys| - 1]), keys[|keys| - 1])
  }

  /** The actions `flush` posts for `keys`, in order. */
  function PostsOf(m: map<Key, Worker>, keys: seq<Key>): (r: seq<Post>)
    requires forall k :: k in keys ==> k in m
    ensures |r| == |keys|
    decreases |keys|
  {
    if keys == [] then []
    else PostsOf(m, keys[..|keys| - 1]) + [Post(m[keys[|keys| - 1]].handler, m[keys[|keys| - 1]].runnable)]
  }

  /** The `i`-th post is the action of the worker registered under the `i`-th key. */
  lemma {:induction false} PostsOfAt(m: map<Key, Worker>, keys: seq<Key>, i: nat)
    requires (forall k :: k in keys ==> k in m) && i < |keys|
    ensures PostsOf(m, keys)[i] == Post(m[keys[i]].handler, m[keys[i]].runnable)
    decreases |keys|
  {
    var front := keys[..|keys| - 1];
    if i < |keys| - 1 {
      PostsOfAt(m, front, i);
    }
  }

  /** `flush` applied to each key of `keys`, first to last. */
  function FlushEach(s: State, keys: seq<Key>): (t: State)
    requires Inv(s)
    ensures Inv(t)
    ensures t.queues.delayed == s.queues.delayed
    ensures t.initialized == s.initialized && t.defaultDelay == s.defaultDelay && t.nextId == s.nextId
    decreases |keys|
  {
    if keys == [] then s
    else Flush(FlushEach(s, keys[..|keys| - 1]), keys[|keys| - 1])
  }

  /** Removing one more key from a map that already lost a set of keys. */
  lemma MinusStep<K, V>(m: map<K, V>, gone: set<K>, u: map<K, V>, k: K)
    requires u == m - gone
    ensures u - {k} == m - (gone + {k})
  {
    assert (u - {k}).Keys == (m - (gone + {k})).Keys;
  }

  /** One more key of the sequence selects one more worker identity. */
  lemma IdsOfStep(m: map<Key, Worker>, front: seq<Key>, k: Key)
    requires k in m
    ensures IdsOf(m, front + [k]) == IdsOf(m, front) + {m[k].id}
  {
    assert forall k' :: k' in front + [k] <==> k' in front || k' == k;
  }

  /** One more key of the sequence adds one element to its key set. */
  lemma KeySetStep(front: seq<Key>, k: Key)
    ensures KeySet(front + [k]) == KeySet(front) + {k}
  {
    assert forall k' :: k' in front + [k] <==> k' in front || k' == k;
  }

  /** Clearing any list of keys keeps every key settled. */
  lemma {:induction false} ClearEachKeepsSettled(s: State, keys: seq<Key>)
    requires Inv(s) && AllSettled(s)
    ensures AllSettled(ClearEach(s, keys))
    decreases |keys|
  {
    if keys != [] {
      var front := keys[..|keys| - 1];
      ClearEachKeepsSettled(s, front);
      ClearKeepsSettled(ClearEach(s, front), keys[|keys| - 1]);
    }
  }

  /** One more key of a prefix of `keys` is one more `clear`. */
  lemma ClearEachNext(s: State, keys: seq<Key>, i: nat)
    requires Inv(s) && i < |keys|
    ensures ClearEach(s, keys[..i + 1]) == Clear(ClearEach(s, keys[..i]), keys[i])
  {
    assert keys[..i + 1][..i] == keys[..i];
  }

  /** One more key of a prefix of `keys` is one more `flush`. */
  lemma FlushEachNext(s: State, keys: seq<Key>, i: nat)
    requires Inv(s) && i < |keys|
    ensures FlushEach(s, keys[..i + 1]) == Flush(FlushEach(s, keys[..i]), keys[i])
  {
    assert keys[..i + 1][..i] == keys[..i];
  }

  /** Unfolds `ClearEach` at its last key. */
  lemma ClearEachSnoc(s: State, front: seq<Key>, k: Key)
    requires Inv(s) && k in ClearEach(s, front).runnables
    ensures ClearEach(s, front + [k]).runnables == ClearEach(s, front).runnables - {k}
    ensures ClearEach(s, front + [k]).queues.delayed
         == ClearEach(s, front).queues.delayed - {ClearEach(s, front).runnables[k].id}
  {
    assert (front + [k])[..|front|] == front;
  }

  /** The inductive step of `ClearEachEffect`: one more distinct pending key. */
  lemma ClearEachStep(s: State, front: seq<Key>, k: Key)
    requires Inv(s) && k in s.runnables && k !in KeySet(front)
    requires ClearEach(s, front).runnables == s.runnables - KeySet(front)
    requires ClearEach(s, front).queues.delayed == s.queues.delayed - IdsOf(s.runnables, front)
    ensures ClearEach(s, front + [k]).runnables == s.runnables - KeySet(front + [k])
    ensures ClearEach(s, front + [k]).queues.delayed == s.queues.delayed - IdsOf(s.runnables, front + [k])
  {
    var u := ClearEach(s, front);
    assert u.runnables[k] == s.runnables[k];
    KeySetStep(front, k);
    IdsOfStep(s.runnables, front, k);
    MinusStep(s.runnables, KeySet(front), u.runnables, k);
    MinusStep(s.queues.delayed, IdsOf(s.runnables, front), u.queues.delayed, s.runnables[k].id);
    ClearEachSnoc(s, front, k);
  }

  /** Clearing distinct pending keys removes exactly those keys and exactly their workers' delayed messages. */
  lemma {:induction false} ClearEachEffect(s: State, keys: seq<Key>)
    requires Inv(s) && Distinct(keys)
    requires forall k :: k in keys ==> k in s.runnables
    ensures ClearEach(s, keys).runnables == s.runnables - KeySet(keys)
    ensures ClearEach(s, keys).queues.delayed == s.queues.delayed - IdsOf(s.runnables, keys)
    decreases |keys|
  {
    if keys == [] {
      assert KeySet(keys) == {} && IdsOf(s.runnables, keys) == {};
      assert s.runnables - {} == s.runnables;
      assert s.queues.delayed - {} == s.queues.delayed;
    } else {
      var front, k := keys[..|keys| - 1], keys[|keys| - 1];
      assert keys == front + [k];
      ClearEachEffect(s, front);
      assert k !in KeySet(front);
      ClearEachStep(s, front, k);
    }
  }

  /** Unfolds `FlushEach` at its last key. */
  lemma FlushEachSnoc(s: State, front: seq<Key>, k: Key)
    requires Inv(s) && k in FlushEach(s, front).runnables
    ensures FlushEach(s, front + [k]).runnables == FlushEach(s, front).runnables - {k}
    ensures FlushEach(s, front + [k]).queues.posted
         == FlushEach(s, front).queues.posted
          + [Post(FlushEach(s, front).runnables[k].handler, FlushEach(s, front).runnables[k].runnable)]
  {
    assert (front + [k])[..|front|] == front;
  }

  lemma AppendAssoc<T>(a: seq<T>, b: seq<T>, c: seq<T>)
    ensures a + b + c == a + (b + c)
  {
  }

  /** Unfolds `PostsOf` at its last key. */
  lemma PostsOfStep(m: map<Key, Worker>, front: seq<Key>, k: Key)
    requires k in m && forall k' :: k' in front ==> k' in m
    ensures PostsOf(m, front + [k]) == PostsOf(m, front) + [Post(m[k].handler, m[k].runnable)]
  {
    assert (front + [k])[..|front|] == front;
  }

  /** The inductive step of `FlushEachEffect`: one more distinct pending key. */
  lemma FlushEachStep(s: State, front: seq<Key>, k: Key)
    requires Inv(s) && k in s.runnables && k !in KeySet(front)
    requires forall k' :: k' in front ==> k' in s.runnables
    requires FlushEach(s, front).runnables == s.runnables - KeySet(front)
    requires FlushEach(s, front).queues.posted == s.queues.posted + PostsOf(s.runnables, front)
    ensures FlushEach(s, front + [k]).runnables == s.runnables - KeySet(front + [k])
    ensures FlushEach(s, front + [k]).queues.posted == s.queues.posted + PostsOf(s.runnables, front + [k])
  {
    var u := FlushEach(s, front);
    assert u.runnables[k] == s.runnables[k];
    KeySetStep(front, k);
    MinusStep(s.runnables, KeySet(front), u.runnables, k);
    FlushEachSnoc(s, front, k);
    var p := Post(s.runnables[k].handler, s.runnables[k].runnable);
    PostsOfStep(s.runnables, front, k);
    AppendAssoc(s.queues.posted, PostsOf(s.runnables, front), [p]);
  }

  /** Flushing distinct pending keys removes exactly those keys, posts each one's action once
      in snapshot order, and leaves every delayed message queued. */
  lemma {:induction false} FlushEachEffect(s: State, keys: seq<Key>)
    requires Inv(s) && Distinct(keys)
    requires forall k :: k in keys ==> k in s.runnables
    ensures FlushEach(s, keys).runnables == s.runnables - KeySet(keys)
    ensures FlushEach(s, keys).queues.posted == s.queues.posted + PostsOf(s.runnables, keys)
    decreases |keys|
  {
    if keys == [] {
      assert KeySet(keys) == {};
      assert s.runnables - {} == s.runnables;
      assert s.queues.posted + [] == s.queues.posted;
    } else {
      var front, k := keys[..|keys| - 1], keys[|keys| - 1];
      assert keys == front + [k];
      FlushEachEffect(s, front);
      assert k !in KeySet(front);
      FlushEachStep(s, front, k);
    }
  }

  /** A sequence without repetitions has as many distinct elements as entries. */
  lemma {:induction false} DistinctCard(keys: seq<Key>)
    requires Distinct(keys)
    ensures |KeySet(keys)| == |keys|
    decreases |keys|
  {
    if keys != [] {
      var front := keys[..|keys| - 1];
      DistinctCard(front);
      assert KeySet(keys) == KeySet(front) + {keys[|keys| - 1]};
      assert keys[|keys| - 1] !in KeySet(front);
    }
  }

  /** A snapshot names exactly the keys of its map, once each. */
  lemma SnapshotCovers(keys: seq<Key>, m: map<Key, Worker>)
    requires IsSnapshot(keys, m)
    ensures KeySet(keys) == m.Keys && m - KeySet(keys) == map[]
    ensures |keys| == |m|
    ensures IdsOf(m, keys) == WorkerIds(m)
  {
    assert KeySet(keys) == m.Keys;
    DistinctCard(keys);
    assert IdsOf(m, keys) == WorkerIds(m);
  }

  /** `clearAll()`: the map ends empty, every worker it held loses its delayed message,
      and no action is posted. */
  lemma ClearAllEmpties(s: State, keys: seq<Key>)
    requires Inv(s) && IsSnapshot(keys, s.runnables)
    ensures ClearEach(s, keys).runnables == map[]
    ensures ClearEach(s, keys).queues.delayed == s.queues.delayed - WorkerIds(s.runnables)
    ensures forall k :: k in s.runnables ==> s.runnables[k].id !in ClearEach(s, keys).queues.delayed
    ensures ClearEach(s, keys).queues.posted == s.queues.posted
  {
    ClearEachEffect(s, keys);
    SnapshotCovers(keys, s.runnables);
  }

  /** Every key of the snapshot has its worker's action at its own position in `PostsOf`. */
  lemma PostsCoverKeys(m: map<Key, Worker>, keys: seq<Key>)
    requires IsSnapshot(keys, m)
    ensures forall k :: k in m ==>
      (exists i :: 0 <= i < |keys| && keys[i] == k && PostsOf(m, keys)[i] == Post(m[k].handler, m[k].runnable))
  {
    forall k | k in m
      ensures exists i :: (0 <= i < |keys| && keys[i] == k && PostsOf(m, keys)[i] == Post(m[k].handler, m[k].runnable))
    {
      var i :| 0 <= i < |keys| && keys[i] == k;
      PostsOfAt(m, keys, i);
    }
  }

  /** `flushAll()`: the map ends empty, one action is posted per key present at the call,
      each key's worker action at that key's position in the snapshot, and every delayed
      message stays queued. */
  lemma FlushAllPostsEachOnce(s: State, keys: seq<Key>)
    requires Inv(s) && IsSnapshot(keys, s.runnables)
    ensures FlushEach(s, keys).runnables == map[]
    ensures FlushEach(s, keys).queues.posted == s.queues.posted + PostsOf(s.runnables, keys)
    ensures |PostsOf(s.runnables, keys)| == |s.runnables|
    ensures forall k :: k in s.runnables ==>
      (exists i :: 0 <= i < |keys| && keys[i] == k &&
        PostsOf(s.runnables, keys)[i] == Post(s.runnables[k].handler, s.runnables[k].runnable))
    ensures FlushEach(s, keys).queues.delayed == s.queues.delayed
  {
    FlushEachEffect(s, keys);
    SnapshotCovers(keys, s.runnables);
    PostsCoverKeys(s.runnables, keys);
  }
}
