/** Counting the tasks held in a sequence of queues or buffers. */
module Pools {
  import opened Common

  /** All tasks in all queues, with multiplicity. */
  ghost function Pool<T>(qs: seq<seq<T>>): multiset<T> {
    if qs == [] then multiset{}
    else Pool(qs[..|qs| - 1]) + multiset(qs[|qs| - 1])
  }

  ghost function Bag<T>(o: Option<T>): multiset<T> {
    match o
    case None => multiset{}
    case Some(x) => multiset{x}
  }

  lemma Regroup<T>(a: multiset<T>, b: multiset<T>, c: multiset<T>)
    ensures (a + b) + c == a + (b + c)
    ensures a + (b + c) == (a + c) + b
  {
  }

  lemma SumBoth<T>(a: multiset<T>, b: multiset<T>, c: multiset<T>, d: multiset<T>, e: multiset<T>)
    requires a + b == c + d
    ensures (a + e) + b == (c + e) + d
  {
    assert (a + e) + b == (a + b) + e;
    assert (c + e) + d == (c + d) + e;
  }

  lemma Cancel<T>(a: multiset<T>, b: multiset<T>, c: multiset<T>)
    requires a + c == b + c
    ensures a == b
  {
    forall x
      ensures a[x] == b[x]
    {
      assert (a + c)[x] == (b + c)[x];
    }
  }

  /** Moving `taken` out of a pool and putting `kept` of it back leaves the pool short of `gone`. */
  lemma TakeAndKeep<T>(pool: multiset<T>, robbed: multiset<T>, after: multiset<T>, queue: multiset<T>,
                       left: multiset<T>, taken: multiset<T>, kept: multiset<T>, gone: multiset<T>)
    requires robbed + queue == pool + left && left + taken == queue
    requires after == robbed + kept && taken == gone + kept
    ensures after + gone == pool
  {
    assert after + gone == robbed + taken;
    assert robbed + taken + left == robbed + queue;
    Cancel(after + gone, pool, left);
  }

  lemma {:induction false} PoolUpdate<T>(qs: seq<seq<T>>, i: nat, q: seq<T>)
    requires i < |qs|
    ensures Pool(qs[i := q]) + multiset(qs[i]) == Pool(qs) + multiset(q)
  {
    var last := |qs| - 1;
    if i == last {
      assert qs[i := q][..last] == qs[..last];
    } else {
      PoolUpdate(qs[..last], i, q);
      assert qs[i := q][..last] == qs[..last][i := q];
      SumBoth(Pool(qs[..last][i := q]), multiset(qs[i]), Pool(qs[..last]), multiset(q), multiset(qs[last]));
    }
  }

  /** The same, for one task. */
  lemma PoolUpdateAt<T>(qs: seq<seq<T>>, i: nat, q: seq<T>, x: T)
    requires i < |qs|
    ensures Pool(qs[i := q])[x] + multiset(qs[i])[x] == Pool(qs)[x] + multiset(q)[x]
  {
    PoolUpdate(qs, i, q);
    assert (Pool(qs[i := q]) + multiset(qs[i]))[x] == (Pool(qs) + multiset(q))[x];
  }

  lemma {:induction false} PoolContains<T>(qs: seq<seq<T>>, i: nat)
    requires i < |qs|
    ensures multiset(qs[i]) <= Pool(qs)
  {
    if i < |qs| - 1 {
      PoolContains(qs[..|qs| - 1], i);
    }
  }

  /** If no task occurs twice in the pool, two queues share no task. */
  lemma {:induction false} PoolCountsBoth<T>(qs: seq<seq<T>>, i: nat, j: nat, x: T)
    requires i < j < |qs| && x in qs[i] && x in qs[j]
    ensures Pool(qs)[x] >= 2
  {
    var last := |qs| - 1;
    if j == last {
      PoolContains(qs[..last], i);
      assert x in multiset(qs[i]) && x in multiset(qs[j]);
      assert Pool(qs[..last])[x] >= multiset(qs[i])[x];
    } else {
      PoolCountsBoth(qs[..last], i, j, x);
    }
  }

  lemma {:induction false} EmptyPool<T>(qs: seq<seq<T>>)
    requires forall i :: 0 <= i < |qs| ==> qs[i] == []
    ensures Pool(qs) == multiset{}
  {
    if qs != [] {
      EmptyPool(qs[..|qs| - 1]);
    }
  }
}
