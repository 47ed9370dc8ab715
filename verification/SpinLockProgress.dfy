/**
 * When a CPU that spins in `SpinLock::lock` can get in.  Each waiting CPU wants one
 * lock and each lock has at most one holder, so there is one chain of holders to
 * follow from it.
 */
module SpinLockProgress {
  import opened Common
  import opened SpinLocks

  /** The lock a CPU is waiting for in `lock`; `try_lock` does not wait. */
  function Wanted(c: Cpu): Option<LockId> {
    match c.op
    case Sampled(l, _, once) => if once then None else Some(l)
    case Swapping(l, _, once) => if once then None else Some(l)
    case Spinning(l, _) => Some(l)
    case _ => None
  }

  /**
   * Going from a waiting CPU to the one that holds the lock it wants, and on from there,
   * reaches in at most n links a CPU that is not waiting, or one whose lock is free.
   */
  ghost predicate Clears(s: State, id: CpuId, n: nat)
    decreases n
  {
    match Wanted(CpuOf(s, id))
    case None => true
    case Some(l) =>
      l !in s.locked || (n > 0 && exists h: CpuId :: HasGuard(CpuOf(s, h), l) && Clears(s, h, n - 1))
  }

  ghost predicate CanClear(s: State, id: CpuId) {
    exists n: nat :: Clears(s, id, n)
  }

  /** The CPU is done with its operation and holds what it held at first and a new guard of the lock. */
  predicate GotIn(s: State, s': State, id: CpuId, l: LockId) {
    var c, c' := CpuOf(s, id), CpuOf(s', id);
    && c'.op.NoOp? && |c'.guards| == |c.guards| + 1
    && c.guards <= c'.guards && c'.guards[|c.guards|].lock == l
  }

  /** The CPU still waits for the lock, holding what it held. */
  predicate StillWaits(s: State, s': State, id: CpuId, l: LockId) {
    Wanted(CpuOf(s', id)) == Some(l) && CpuOf(s', id).guards == CpuOf(s, id).guards
  }

  lemma {:induction false} RunExclusion(s: State, es: seq<Event>)
    requires ExclusionInv(s) && Exec(s, es).Some?
    ensures ExclusionInv(Exec(s, es).value)
  {
    if es != [] {
      RunExclusion(s, es[..|es| - 1]);
      StepExclusion(Exec(s, es[..|es| - 1]).value, es[|es| - 1]);
    }
  }

  lemma {:induction false} ExecConcat(s: State, a: seq<Event>, b: seq<Event>)
    requires Exec(s, a).Some?
    ensures Exec(s, a + b) == Exec(Exec(s, a).value, b)
  {
    if b == [] {
      assert a + b == a;
    } else {
      ExecConcat(s, a, b[..|b| - 1]);
      assert (a + b)[..|a + b| - 1] == a + b[..|b| - 1];
    }
  }

  /** A waiting CPU leaves `lock` by getting in, and not otherwise. */
  lemma WaiterStep(s: State, e: Event, l: LockId)
    requires Enabled(s, e) && Wanted(CpuOf(s, e.cpu)) == Some(l)
    ensures StillWaits(s, Next(s, e), e.cpu, l) || (l !in s.locked && GotIn(s, Next(s, e), e.cpu, l))
  {
  }

  lemma {:induction false} WaitsOrGotIn(s: State, es: seq<Event>, id: CpuId, l: LockId) returns (n: nat)
    requires Exec(s, es).Some? && Wanted(CpuOf(s, id)) == Some(l)
    ensures n <= |es| && Exec(s, es[..n]).Some?
    ensures GotIn(s, Exec(s, es[..n]).value, id, l) || StillWaits(s, Exec(s, es).value, id, l)
  {
    n := 0;
    if es != [] {
      var before, e := es[..|es| - 1], es[|es| - 1];
      n := WaitsOrGotIn(s, before, id, l);
      assert es[..n] == before[..n] && es[..|es|] == es;
      if !GotIn(s, Exec(s, es[..n]).value, id, l) && e.cpu == id {
        WaiterStep(Exec(s, before).value, e, l);
        n := |es|;
      }
    }
  }

  lemma TakeSwapping(s: State, id: CpuId, l: LockId) returns (es: seq<Event>)
    requires Wanted(CpuOf(s, id)) == Some(l) && l !in s.locked && CpuOf(s, id).op.Swapping?
    ensures Exec(s, es).Some? && GotIn(s, Exec(s, es).value, id, l)
  {
    es := Extend(s, [], Event(id, Swap(false)));
  }

  /** A CPU whose lock is free gets it by itself. */
  lemma TakeFree(s: State, id: CpuId, l: LockId) returns (es: seq<Event>)
    requires Wanted(CpuOf(s, id)) == Some(l) && l !in s.locked
    ensures Exec(s, es).Some? && GotIn(s, Exec(s, es).value, id, l)
  {
    if CpuOf(s, id).op.Swapping? {
      es := TakeSwapping(s, id, l);
    } else {
      var first := Extend(s, [], Event(id, if CpuOf(s, id).op.Sampled? then Cli else SpinLoad));
      var rest := TakeSwapping(Exec(s, first).value, id, l);
      ExecConcat(s, first, rest);
      es := first + rest;
    }
  }

  /** The next action of an operation that is not waiting. */
  function NextOf(op: Op): Action {
    if op.Sampled? then Cli else if op.Swapping? then Swap(false) else Restore
  }

  function ActionsLeft(op: Op): nat {
    match op
    case NoOp => 0
    case Restoring(_) => 1
    case Swapping(_, _, _) => 2
    case _ => 3
  }

  /** The CPU has not moved backwards, and no other has moved at all. */
  ghost predicate OnlyGained(s: State, s': State, h: CpuId) {
    CpuOf(s, h).guards <= CpuOf(s', h).guards && forall c: CpuId :: c != h ==> CpuOf(s', c) == CpuOf(s, c)
  }

  lemma FinishStep(s: State, h: CpuId)
    requires Wanted(CpuOf(s, h)).None? && !CpuOf(s, h).op.NoOp?
    ensures Enabled(s, Event(h, NextOf(CpuOf(s, h).op)))
    ensures var s' := Next(s, Event(h, NextOf(CpuOf(s, h).op)));
      && Wanted(CpuOf(s', h)).None? && ActionsLeft(CpuOf(s', h).op) < ActionsLeft(CpuOf(s, h).op)
      && OnlyGained(s, s', h)
  {
  }

  /** A CPU that does not wait can finish its operation by itself; it drops nothing and moves no other CPU. */
  lemma {:induction false} Finish(s: State, h: CpuId) returns (es: seq<Event>)
    requires Wanted(CpuOf(s, h)).None?
    ensures Exec(s, es).Some? && CpuOf(Exec(s, es).value, h).op.NoOp? && OnlyGained(s, Exec(s, es).value, h)
    decreases ActionsLeft(CpuOf(s, h).op)
  {
    if CpuOf(s, h).op.NoOp? {
      es := [];
    } else {
      FinishStep(s, h);
      var first := Extend(s, [], Event(h, NextOf(CpuOf(s, h).op)));
      var rest := Finish(Exec(s, first).value, h);
      ExecConcat(s, first, rest);
      es := first + rest;
    }
  }

  /** Once the holder is done with its own operation, it drops the lock and the waiter takes it. */
  lemma HandOver(s: State, id: CpuId, l: LockId, h: CpuId, j: nat) returns (es: seq<Event>)
    requires Wanted(CpuOf(s, id)) == Some(l) && h != id
    requires CpuOf(s, h).op.NoOp? && j < |CpuOf(s, h).guards| && CpuOf(s, h).guards[j].lock == l
    ensures Exec(s, es).Some? && GotIn(s, Exec(s, es).value, id, l)
  {
    var drop := Extend(s, [], Event(h, Drop(j)));
    var take := TakeFree(Exec(s, drop).value, id, l);
    ExecConcat(s, drop, take);
    es := drop + take;
  }

  lemma {:induction false} GetIn(s: State, id: CpuId, l: LockId, n: nat) returns (es: seq<Event>)
    requires Wanted(CpuOf(s, id)) == Some(l) && Clears(s, id, n)
    ensures Exec(s, es).Some? && GotIn(s, Exec(s, es).value, id, l)
    decreases n
  {
    if l !in s.locked {
      es := TakeFree(s, id, l);
    } else {
      var h: CpuId :| HasGuard(CpuOf(s, h), l) && Clears(s, h, n - 1);
      if h == id {
        es := GetIn(s, id, l, n - 1);
      } else {
        var j :| 0 <= j < |CpuOf(s, h).guards| && CpuOf(s, h).guards[j].lock == l;
        if Wanted(CpuOf(s, h)).Some? {
          es := GetIn(s, h, Wanted(CpuOf(s, h)).value, n - 1);
        } else {
          es := Finish(s, h);
        }
        var k := WaitsOrGotIn(s, es, id, l);
        if GotIn(s, Exec(s, es[..k]).value, id, l) {
          es := es[..k];
        } else {
          var rest := HandOver(Exec(s, es).value, id, l, h, j);
          ExecConcat(s, es, rest);
          es := es + rest;
        }
      }
    }
  }

  /** The CPU waits for a lock that the other holds. */
  predicate WaitsOn(s: State, c: CpuId, h: CpuId) {
    Wanted(CpuOf(s, c)).Some? && HasGuard(CpuOf(s, h), Wanted(CpuOf(s, c)).value)
  }

  ghost predicate WaitsAmong(s: State, stuck: iset<CpuId>, c: CpuId) {
    exists h: CpuId :: h in stuck && WaitsOn(s, c, h)
  }

  /** CPUs that wait for one another. */
  ghost predicate Deadlocked(s: State, stuck: iset<CpuId>) {
    forall c: CpuId {:trigger WaitsAmong(s, stuck, c)} :: c in stuck ==> WaitsAmong(s, stuck, c)
  }

  /** The CPU wants what it wanted and holds what it held. */
  predicate Unmoved(s: State, s': State, c: CpuId) {
    Wanted(CpuOf(s', c)) == Wanted(CpuOf(s, c)) && CpuOf(s', c).guards == CpuOf(s, c).guards
  }

  lemma WaitingStays(s: State, e: Event, c: CpuId, h: CpuId)
    requires ExclusionInv(s) && Enabled(s, e) && WaitsOn(s, c, h)
    ensures Unmoved(s, Next(s, e), c)
  {
    assert Held(s, Wanted(CpuOf(s, c)).value);
    if e.cpu == c {
      WaiterStep(s, e, Wanted(CpuOf(s, c)).value);
    }
  }

  lemma StuckStep(s: State, e: Event, stuck: iset<CpuId>)
    requires ExclusionInv(s) && Enabled(s, e) && Deadlocked(s, stuck)
    ensures forall c: CpuId :: c in stuck ==> Unmoved(s, Next(s, e), c)
  {
    forall c: CpuId | c in stuck
      ensures Unmoved(s, Next(s, e), c)
    {
      assert WaitsAmong(s, stuck, c);
      var h: CpuId :| h in stuck && WaitsOn(s, c, h);
      WaitingStays(s, e, c, h);
    }
  }

  lemma StuckTogether(s: State, s': State, stuck: iset<CpuId>)
    requires Deadlocked(s, stuck)
    requires forall c: CpuId :: c in stuck ==> Unmoved(s, s', c)
    ensures Deadlocked(s', stuck)
  {
    forall c: CpuId | c in stuck
      ensures WaitsAmong(s', stuck, c)
    {
      assert WaitsAmong(s, stuck, c);
      var h: CpuId :| h in stuck && WaitsOn(s, c, h);
      assert Unmoved(s, s', c) && Unmoved(s, s', h);
      assert WaitsOn(s', c, h);
    }
  }

  lemma {:induction false} StuckForever(s: State, es: seq<Event>, stuck: iset<CpuId>)
    requires ExclusionInv(s) && Exec(s, es).Some? && Deadlocked(s, stuck)
    ensures forall c: CpuId :: c in stuck ==> Unmoved(s, Exec(s, es).value, c)
  {
    if es != [] {
      var before, e := es[..|es| - 1], es[|es| - 1];
      var u := Exec(s, before).value;
      StuckForever(s, before, stuck);
      RunExclusion(s, before);
      StuckTogether(s, u, stuck);
      StuckStep(u, e, stuck);
      forall c: CpuId | c in stuck
        ensures Unmoved(s, Next(u, e), c)
      {
        assert Unmoved(s, u, c) && Unmoved(u, Next(u, e), c);
      }
    }
  }

  /** The CPUs whose chains do not clear wait for one another. */
  lemma UnclearedAreDeadlocked(s: State)
    requires ExclusionInv(s)
    ensures Deadlocked(s, iset c: CpuId | !CanClear(s, c))
  {
    var stuck := iset c: CpuId | !CanClear(s, c);
    forall c: CpuId | c in stuck
      ensures WaitsAmong(s, stuck, c)
    {
      assert !Clears(s, c, 0);
      var l := Wanted(CpuOf(s, c)).value;
      assert Held(s, l);
      var h: CpuId :| HasGuard(CpuOf(s, h), l);
      assert WaitsOn(s, c, h);
      if CanClear(s, h) {
        var n: nat :| Clears(s, h, n);
        assert Clears(s, c, n + 1);
      }
    }
  }

  /** Such a CPU never gets in. */
  lemma UnclearedNeverGetsIn(s: State, more: seq<Event>, id: CpuId)
    requires ExclusionInv(s) && Exec(s, more).Some? && !CanClear(s, id)
    ensures Unmoved(s, Exec(s, more).value, id)
  {
    UnclearedAreDeadlocked(s);
    StuckForever(s, more, iset c: CpuId | !CanClear(s, c));
  }

  /**
   * `lock` makes no promise of progress under nesting.  From any state of any run, a
   * waiting CPU can still get in if and only if its chain of holders ends at a CPU that
   * is not waiting or at a free lock; if it does not, the CPU waits in every further run.
   */
  lemma CanGetInIffChainClears(boot: bool, es: seq<Event>, id: CpuId, l: LockId)
    requires Exec(Init(boot), es).Some? && Wanted(CpuOf(Exec(Init(boot), es).value, id)) == Some(l)
    ensures var s := Exec(Init(boot), es).value;
      CanClear(s, id) <==>
        exists more: seq<Event> :: Exec(s, more).Some? && GotIn(s, Exec(s, more).value, id, l)
    ensures var s := Exec(Init(boot), es).value;
      !CanClear(s, id) ==>
        forall more: seq<Event> :: Exec(s, more).Some? ==> StillWaits(s, Exec(s, more).value, id, l)
  {
    var s := Exec(Init(boot), es).value;
    EveryRunExcludes(boot, es);
    if CanClear(s, id) {
      var n: nat :| Clears(s, id, n);
      var more := GetIn(s, id, l, n);
    } else {
      forall more: seq<Event> | Exec(s, more).Some?
        ensures StillWaits(s, Exec(s, more).value, id, l)
      {
        UnclearedNeverGetsIn(s, more, id);
      }
    }
  }

  /** A CPU that asks for a lock it holds is its own chain. */
  lemma {:induction false} OwnLockNeverClears(s: State, id: CpuId, n: nat)
    requires ExclusionInv(s) && Wanted(CpuOf(s, id)).Some?
    requires HasGuard(CpuOf(s, id), Wanted(CpuOf(s, id)).value)
    ensures !Clears(s, id, n)
  {
    assert Held(s, Wanted(CpuOf(s, id)).value);
    if n > 0 {
      OwnLockNeverClears(s, id, n - 1);
    }
  }

  /** One CPU locks lock 0 twice and waits for itself. */
  lemma RelockingBlocksForever(boot: bool) returns (es: seq<Event>)
    ensures Exec(Init(boot), es).Some? && Wanted(CpuOf(Exec(Init(boot), es).value, 0)) == Some(0)
    ensures forall more: seq<Event> :: Exec(Exec(Init(boot), es).value, more).Some? ==>
      StillWaits(Exec(Init(boot), es).value, Exec(Exec(Init(boot), es).value, more).value, 0, 0)
  {
    es := Extend(Init(boot), [], Event(0, Begin(0, false)));
    es := Extend(Init(boot), es, Event(0, Cli));
    es := Extend(Init(boot), es, Event(0, Swap(false)));
    es := Extend(Init(boot), es, Event(0, Begin(0, false)));
    EveryRunExcludes(boot, es);
    var s := Exec(Init(boot), es).value;
    assert CpuOf(s, 0).guards[0].lock == 0;
    forall n: nat
      ensures !Clears(s, 0, n)
    {
      OwnLockNeverClears(s, 0, n);
    }
    CanGetInIffChainClears(boot, es, 0, 0);
  }

  lemma {:induction false} EachOtherNeverClear(s: State, n: nat)
    requires ExclusionInv(s)
    requires Wanted(CpuOf(s, 0)) == Some(1) && Wanted(CpuOf(s, 1)) == Some(0)
    requires HasGuard(CpuOf(s, 0), 0) && HasGuard(CpuOf(s, 1), 1)
    ensures !Clears(s, 0, n) && !Clears(s, 1, n)
  {
    assert Held(s, 0) && Held(s, 1);
    if n > 0 {
      EachOtherNeverClear(s, n - 1);
    }
  }

  /** CPU 0 holds lock 0 and CPU 1 holds lock 1. */
  lemma TakeBoth(boot: bool) returns (es: seq<Event>)
    ensures Exec(Init(boot), es).Some?
    ensures var s := Exec(Init(boot), es).value;
      && CpuOf(s, 0) == Cpu(false, [Guard(0, boot)], NoOp, boot)
      && CpuOf(s, 1) == Cpu(false, [Guard(1, boot)], NoOp, boot)
  {
    es := Extend(Init(boot), [], Event(0, Begin(0, false)));
    es := Extend(Init(boot), es, Event(0, Cli));
    es := Extend(Init(boot), es, Event(0, Swap(false)));
    var s := Exec(Init(boot), es).value;
    assert CpuOf(s, 0) == Cpu(false, [Guard(0, boot)], NoOp, boot) && s.locked == {0};
    es := Extend(Init(boot), es, Event(1, Begin(1, false)));
    es := Extend(Init(boot), es, Event(1, Cli));
    es := Extend(Init(boot), es, Event(1, Swap(false)));
  }

  /** Two CPUs take locks 0 and 1 in opposite orders and wait for each other. */
  lemma OppositeOrdersBlockForever(boot: bool) returns (es: seq<Event>)
    ensures Exec(Init(boot), es).Some?
    ensures Wanted(CpuOf(Exec(Init(boot), es).value, 0)) == Some(1)
    ensures Wanted(CpuOf(Exec(Init(boot), es).value, 1)) == Some(0)
    ensures forall more: seq<Event> :: Exec(Exec(Init(boot), es).value, more).Some? ==>
      && StillWaits(Exec(Init(boot), es).value, Exec(Exec(Init(boot), es).value, more).value, 0, 1)
      && StillWaits(Exec(Init(boot), es).value, Exec(Exec(Init(boot), es).value, more).value, 1, 0)
  {
    es := TakeBoth(boot);
    es := Extend(Init(boot), es, Event(0, Begin(1, false)));
    es := Extend(Init(boot), es, Event(1, Begin(0, false)));
    EveryRunExcludes(boot, es);
    var s := Exec(Init(boot), es).value;
    assert CpuOf(s, 0).guards[0].lock == 0 && CpuOf(s, 1).guards[0].lock == 1;
    forall n: nat
      ensures !Clears(s, 0, n) && !Clears(s, 1, n)
    {
      EachOtherNeverClear(s, n);
    }
    CanGetInIffChainClears(boot, es, 0, 1);
    CanGetInIffChainClears(boot, es, 1, 0);
  }
}
