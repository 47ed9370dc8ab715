/**
 * The scheduler, run by one caller at a time: placement on the least loaded core,
 * and stealing half of the busiest other core's queue when one's own is empty.
 *
 * The functions describe each operation on the cores' queues as a value, a
 * sequence of sequences; the class runs the loops over RunQueue objects.
 */
module Schedulers {
  import opened Common
  import opened Pools
  import opened RunQueues

  // -------------------------------------------------------------------------
  // The operations on values
  // -------------------------------------------------------------------------

  /** The scan of `least_loaded_core`: the lowest index with the least load below u64::MAX. */
  function LeastLoadedUpTo<T>(qs: seq<seq<T>>, n: nat): (core: Option<nat>)
    requires n <= |qs|
    ensures core.Some? ==> core.value < n && |qs[core.value]| < U64_MAX
  {
    if n == 0 then None
    else
      var best := LeastLoadedUpTo(qs, n - 1);
      var bar := if best.Some? then |qs[best.value]| else U64_MAX;
      if |qs[n - 1]| < bar then Some(n - 1) else best
  }

  function LeastLoaded<T>(qs: seq<seq<T>>): nat {
    var best := LeastLoadedUpTo(qs, |qs|);
    if best.Some? then best.value else 0
  }

  /** The scan of `busiest_core`: the lowest index with the greatest load above one, other than `thief`. */
  function BusiestUpTo<T>(qs: seq<seq<T>>, thief: nat, n: nat): (victim: Option<nat>)
    requires n <= |qs|
    ensures victim.Some? ==> victim.value < n && victim.value != thief && |qs[victim.value]| > 1
  {
    if n == 0 then None
    else
      var best := BusiestUpTo(qs, thief, n - 1);
      var bar := if best.Some? then |qs[best.value]| else 1;
      if n - 1 != thief && |qs[n - 1]| > bar then Some(n - 1) else best
  }

  function Busiest<T>(qs: seq<seq<T>>, thief: nat): Option<nat> {
    BusiestUpTo(qs, thief, |qs|)
  }

  function AfterPush<T>(qs: seq<seq<T>>, core: nat, task: T): seq<seq<T>>
    requires core < |qs|
  {
    qs[core := qs[core] + [task]]
  }

  /** The queues after `schedule(c)`. */
  function AfterSchedule<T>(qs: seq<seq<T>>, c: nat): (qs': seq<seq<T>>)
    requires c < |qs|
    ensures |qs'| == |qs|
  {
    if qs[c] != [] then qs[c := qs[c][1..]]
    else
      match Busiest(qs, c)
      case None => qs
      case Some(v) => qs[v := LeftBehind(qs[v])][c := Stolen(qs[v])[1..]]
  }

  /** The task `schedule(c)` returns. */
  function Dispatched<T>(qs: seq<seq<T>>, c: nat): Option<T>
    requires c < |qs|
  {
    if qs[c] != [] then Some(qs[c][0])
    else
      match Busiest(qs, c)
      case None => None
      case Some(v) => Some(Stolen(qs[v])[0])
  }

  function TotalLength<T>(qs: seq<seq<T>>): nat {
    if qs == [] then 0 else TotalLength(qs[..|qs| - 1]) + |qs[|qs| - 1]|
  }

  /** The number of queued tasks, all queues taken together. */
  lemma {:induction false} TotalLengthCountsTasks<T>(qs: seq<seq<T>>)
    ensures TotalLength(qs) == |Pool(qs)|
  {
    if qs != [] {
      TotalLengthCountsTasks(qs[..|qs| - 1]);
    }
  }

  // -------------------------------------------------------------------------
  // The class
  // -------------------------------------------------------------------------

  class Scheduler {
    var runQueues: seq<RunQueue>

    predicate Valid()
      reads this, runQueues
    {
      && (forall i :: 0 <= i < |runQueues| ==> runQueues[i].Valid())
      && (forall i, j :: 0 <= i < j < |runQueues| ==> runQueues[i] != runQueues[j])
    }

    /** The queues as values. */
    ghost function Queues(): (qs: seq<seq<Task>>)
      reads this, runQueues
      ensures |qs| == |runQueues|
    {
      seq(|runQueues|, i requires 0 <= i < |runQueues| reads this, runQueues => runQueues[i].queue)
    }

    constructor (numCores: nat)
      ensures Valid() && fresh(runQueues)
      ensures Queues() == seq(numCores, _ => [])
    {
      runQueues := [];
      new;
      for i := 0 to numCores
        invariant |runQueues| == i && Valid() && fresh(runQueues)
        invariant forall j :: 0 <= j < i ==> runQueues[j].queue == []
      {
        var rq := new RunQueue(i);
        runQueues := runQueues + [rq];
      }
    }

    /** `run_queues[core].push(task)`, which panics if there is no such core. */
    method PushTo(core: nat, task: Task) returns (r: Outcome<()>)
      requires Valid()
      modifies runQueues
      ensures Valid()
      ensures r.Panicked? <==> core >= |runQueues|
      ensures Queues() == if core < |runQueues| then AfterPush(old(Queues()), core, task) else old(Queues())
    {
      if core >= |runQueues| {
        return Panicked;
      }
      runQueues[core].Push(task);
      r := Returned(());
    }

    method Spawn(task: Task) returns (r: Outcome<()>)
      requires Valid()
      modifies runQueues
      ensures Valid()
      ensures var core := if task.affinity.Some? then task.affinity.value else LeastLoaded(old(Queues()));
        && (r.Panicked? <==> core >= |runQueues|)
        && Queues() == if core < |runQueues| then AfterPush(old(Queues()), core, task) else old(Queues())
    {
      var core: nat;
      if task.affinity.Some? {
        core := task.affinity.value;
      } else {
        core := LeastLoadedCore();
      }
      r := PushTo(core, task);
    }

    method SpawnOnCore(core: nat, task: Task) returns (r: Outcome<()>)
      requires Valid()
      modifies runQueues
      ensures Valid()
      ensures r.Panicked? <==> core >= |runQueues|
      ensures Queues() == if core < |runQueues| then AfterPush(old(Queues()), core, task) else old(Queues())
    {
      if core >= |runQueues| {
        return Panicked;
      }
      r := PushTo(core, task);
    }

    /** `wake` and `preempt_current`: make the task ready and queue it on the given core. */
    method Requeue(core: nat, task: Task) returns (r: Outcome<()>)
      requires Valid()
      modifies runQueues
      ensures Valid()
      ensures r.Panicked? <==> core >= |runQueues|
      ensures Queues() == if core < |runQueues| then AfterPush(old(Queues()), core, task.(state := Ready))
                          else old(Queues())
    {
      r := PushTo(core, task.(state := Ready));
    }

    method LeastLoadedCore() returns (minCore: nat)
      requires Valid()
      ensures minCore == LeastLoaded(Queues())
    {
      var minLoad := U64_MAX;
      minCore := 0;
      for i := 0 to |runQueues|
        invariant var best := LeastLoadedUpTo(Queues(), i);
          if best.Some? then minCore == best.value && minLoad == |Queues()[minCore]|
          else minCore == 0 && minLoad == U64_MAX
      {
        var load := runQueues[i].Len();
        if load < minLoad {
          minLoad := load;
          minCore := i;
        }
      }
    }

    method BusiestCore(excludeCore: nat) returns (maxCore: Option<nat>)
      requires Valid()
      ensures maxCore == Busiest(Queues(), excludeCore)
    {
      var maxLoad := 1;
      maxCore := None;
      for i := 0 to |runQueues|
        invariant maxCore == BusiestUpTo(Queues(), excludeCore, i)
        invariant maxLoad == if maxCore.Some? then |Queues()[maxCore.value]| else 1
      {
        if i == excludeCore {
          continue;
        }
        var load := runQueues[i].Len();
        if load > maxLoad {
          maxLoad := load;
          maxCore := Some(i);
        }
      }
    }

    method Schedule(core: nat) returns (r: Outcome<Option<Task>>)
      requires Valid()
      modifies runQueues
      ensures Valid()
      ensures core >= |runQueues| ==> r == Panicked && Queues() == old(Queues())
      ensures core < |runQueues| ==>
        Queues() == AfterSchedule(old(Queues()), core) && r == Returned(Dispatched(old(Queues()), core))
    {
      if core >= |runQueues| {
        return Panicked;
      }
      assert Queues()[core] == runQueues[core].queue;
      var own := runQueues[core].Pop();
      if own.Some? {
        assert old(Queues())[core] == [own.value] + runQueues[core].queue;
        assert Queues() == old(Queues())[core := old(Queues())[core][1..]];
        return Returned(own);
      }
      assert Queues() == old(Queues());
      var busiest := BusiestCore(core);
      var first := None;
      if busiest.Some? {
        first := StealFrom(core, busiest.value);
      }
      r := Returned(first);
    }

    /** The stealing half of `schedule`: take from the victim, keep the first task, queue the others. */
    method StealFrom(core: nat, victim: nat) returns (first: Option<Task>)
      requires Valid()
      requires core < |runQueues| && victim < |runQueues| && core != victim && runQueues[core].queue == []
      modifies runQueues
      ensures Valid()
      ensures var taken := Stolen(old(Queues())[victim]);
        if taken == [] then first == None && Queues() == old(Queues())
        else
          && first == Some(taken[0])
          && Queues() == old(Queues())[victim := LeftBehind(old(Queues())[victim])][core := taken[1..]]
    {
      ghost var was := Queues();
      var rq := runQueues[core];
      var stolen := runQueues[victim].StealHalf();
      assert Queues() == was[victim := LeftBehind(was[victim])];
      if stolen == [] {
        assert LeftBehind(was[victim]) == was[victim];
        return None;
      }
      label robbed:
      for i := 1 to |stolen|
        invariant Valid() && rq.queue == stolen[1..i]
        invariant forall k :: 0 <= k < |runQueues| && k != core ==> runQueues[k].queue == old@robbed(runQueues[k].queue)
      {
        rq.Push(stolen[i]);
      }
      assert rq.queue == stolen[1..];
      assert Queues() == old@robbed(Queues())[core := stolen[1..]];
      first := Some(stolen[0]);
    }

    method TotalQueued() returns (total: int)
      requires Valid()
      ensures total == TotalLength(Queues()) == |Pool(Queues())|
    {
      total := 0;
      for i := 0 to |runQueues|
        invariant total == TotalLength(Queues()[..i])
      {
        var n := runQueues[i].Len();
        assert Queues()[..i + 1][..i] == Queues()[..i];
        total := total + n;
      }
      assert Queues()[..|runQueues|] == Queues();
      TotalLengthCountsTasks(Queues());
    }
  }
}
