/**
 * One core's run queue: tasks are pushed at the back, popped from the front, and
 * stolen from the back, half of the queue at a time.
 *
 * The functions say what each operation does to the queue as a value; the class
 * does it in place, together with the `len` counter kept beside the queue.
 */
module RunQueues {
  import opened Common

  function Reversed<T>(s: seq<T>): (r: seq<T>)
    ensures |r| == |s|
    ensures forall i :: 0 <= i < |s| ==> r[i] == s[|s| - 1 - i]
  {
    if s == [] then [] else [s[|s| - 1]] + Reversed(s[..|s| - 1])
  }

  lemma {:induction false} ReversedKeepsElements<T>(s: seq<T>)
    ensures multiset(Reversed(s)) == multiset(s)
  {
    if s != [] {
      ReversedKeepsElements(s[..|s| - 1]);
      assert s == s[..|s| - 1] + [s[|s| - 1]];
    }
  }

  /** How many tasks a thief takes from a queue of n. */
  function StealCount(n: nat): nat {
    n / 2
  }

  /** What a steal takes, in the order it is taken: newest task first. */
  function Stolen<T>(q: seq<T>): seq<T> {
    Reversed(q[|q| - StealCount(|q|)..])
  }

  function LeftBehind<T>(q: seq<T>): seq<T> {
    q[..|q| - StealCount(|q|)]
  }

  lemma StealSplits<T>(q: seq<T>)
    ensures multiset(LeftBehind(q)) + multiset(Stolen(q)) == multiset(q)
    ensures q != [] ==> LeftBehind(q) != []
    ensures Stolen(q) != [] ==> Stolen(q)[0] == q[|q| - 1]
  {
    ReversedKeepsElements(q[|q| - StealCount(|q|)..]);
    assert q == LeftBehind(q) + q[|q| - StealCount(|q|)..];
  }

  /** Taking one more task from the back extends what has been stolen so far. */
  lemma StealOneMore<T>(q: seq<T>, taken: nat)
    requires taken < |q|
    ensures Reversed(q[|q| - taken - 1..]) == Reversed(q[|q| - taken..]) + [q[|q| - taken - 1]]
  {
  }

  datatype TaskState = Ready | Running | Blocked | Dead

  /** A task is owned by exactly one queue or caller, so it is modelled as a value. */
  datatype Task = Task(id: nat, affinity: Option<nat>, state: TaskState)

  class RunQueue {
    const coreId: nat
    var queue: seq<Task>
    var len: int

    /** The counter agrees with the queue; in particular no decrement has gone below zero. */
    predicate Valid()
      reads this
    {
      len == |queue|
    }

    constructor (coreId: nat)
      ensures this.coreId == coreId && Valid() && queue == []
    {
      this.coreId, queue, len := coreId, [], 0;
    }

    method Push(task: Task)
      requires Valid()
      modifies this
      ensures Valid() && queue == old(queue) + [task]
    {
      queue := queue + [task];
      len := len + 1;
    }

    method Pop() returns (task: Option<Task>)
      requires Valid()
      modifies this
      ensures Valid()
      ensures old(queue) == [] ==> task == None && queue == []
      ensures old(queue) != [] ==> task.Some? && [task.value] + queue == old(queue)
    {
      if queue != [] {
        task := Some(queue[0]);
        queue := queue[1..];
        len := len - 1;
      } else {
        task := None;
      }
    }

    method StealHalf() returns (stolen: seq<Task>)
      requires Valid()
      modifies this
      ensures Valid()
      ensures stolen == Stolen(old(queue)) && queue == LeftBehind(old(queue))
    {
      var count := |queue| / 2;
      stolen := [];
      if count == 0 {
        return;
      }
      for i := 0 to count
        invariant |stolen| == i && len == |queue| + i
        invariant queue == old(queue)[..|old(queue)| - i]
        invariant stolen == Reversed(old(queue)[|old(queue)| - i..])
      {
        StealOneMore(old(queue), i);
        if queue != [] {
          stolen := stolen + [queue[|queue| - 1]];
          queue := queue[..|queue| - 1];
        }
      }
      len := len - |stolen|;
    }

    method Len() returns (n: int)
      requires Valid()
      ensures n == |queue|
    {
      n := len;
    }
  }
}
