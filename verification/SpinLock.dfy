/**
 * SpinLock: a spinlock that turns interrupts off on the acquiring CPU.
 *
 * Each CPU may hold guards of several locks at once; each guard remembers the
 * interrupt flag found when its acquisition began, and its drop restores that
 * flag.  Guards may be dropped in any order.
 */
module SpinLocks {
  import opened Common

  type CpuId = nat
  type LockId = nat

  datatype Guard = Guard(lock: LockId, saved: bool)

  /** The lock operation a CPU is in the middle of. */
  datatype Op =
    | NoOp
    | Sampled(lock: LockId, was: bool, once: bool)   // flag read; interrupts not yet off
    | Swapping(lock: LockId, was: bool, once: bool)  // about to compare-exchange; once: try_lock
    | Spinning(lock: LockId, was: bool)              // inner loop of lock
    | Restoring(was: bool)                           // about to put the flag back

  /** `base` is history: the flag as the code around the lock operations last left it. */
  datatype Cpu = Cpu(interrupts: bool, guards: seq<Guard>, op: Op, base: bool)

  datatype Action =
    | SetFlag(on: bool)                    // surrounding code, holding nothing
    | Begin(lock: LockId, once: bool)
    | Cli
    | Swap(spurious: bool)
    | SpinLoad
    | Drop(index: nat)
    | Restore

  predicate CanAct(c: Cpu, a: Action) {
    match a
    case SetFlag(_) => c.op.NoOp? && c.guards == []
    case Begin(_, _) => c.op.NoOp?
    case Cli => c.op.Sampled?
    case Swap(spurious) => c.op.Swapping? && (spurious ==> !c.op.once)
    case SpinLoad => c.op.Spinning?
    case Drop(i) => c.op.NoOp? && i < |c.guards|
    case Restore => c.op.Restoring?
  }

  /** The lock an action touches. */
  function Target(c: Cpu, a: Action): Option<LockId>
    requires CanAct(c, a)
  {
    match a
    case Swap(_) => Some(c.op.lock)
    case SpinLoad => Some(c.op.lock)
    case Drop(i) => Some(c.guards[i].lock)
    case _ => None
  }

  function Without(guards: seq<Guard>, i: nat): seq<Guard>
    requires i < |guards|
  {
    guards[..i] + guards[i + 1..]
  }

  /** The effect of an action on the word of the targeted lock and on the acting CPU. */
  function Act(locked: bool, c: Cpu, a: Action): (bool, Cpu)
    requires CanAct(c, a)
  {
    match a
    case SetFlag(on) => (locked, c.(interrupts := on, base := on))
    case Begin(l, once) => (locked, c.(op := Sampled(l, c.interrupts, once)))
    case Cli => (locked, c.(interrupts := false, op := Swapping(c.op.lock, c.op.was, c.op.once)))
    case Swap(spurious) =>
      if !spurious && !locked then
        (true, c.(guards := c.guards + [Guard(c.op.lock, c.op.was)], op := NoOp))
      else if c.op.once then
        (locked, c.(op := Restoring(c.op.was)))
      else
        (locked, c.(op := Spinning(c.op.lock, c.op.was)))
    case SpinLoad =>
      (locked, if locked then c else c.(op := Swapping(c.op.lock, c.op.was, false)))
    case Drop(i) => (false, c.(guards := Without(c.guards, i), op := Restoring(c.guards[i].saved)))
    case Restore => (locked, c.(interrupts := c.interrupts || c.op.was, op := NoOp))
  }

  /** The interrupt flag of a CPU, as the lock operations read and write it. */
  class InterruptFlag {
    var enabled: bool

    constructor (enabled: bool)
      ensures this.enabled == enabled
    {
      this.enabled := enabled;
    }

    method ReadFlags(lock: LockId, once: bool, ghost c: Cpu) returns (was: bool)
      requires c.op.NoOp? && c.interrupts == enabled
      ensures Act(false, c, Begin(lock, once)).1 == c.(op := Sampled(lock, was, once))
      ensures was == enabled
    {
      was := enabled;
    }

    method ClearFlag(ghost c: Cpu)
      requires c.op.Sampled? && c.interrupts == enabled
      modifies this
      ensures Act(false, c, Cli).1
           == c.(interrupts := enabled, op := Swapping(c.op.lock, c.op.was, c.op.once))
      ensures !enabled
    {
      enabled := false;
    }

    method RestoreInterrupts(wasEnabled: bool, ghost c: Cpu)
      requires c.op == Restoring(wasEnabled) && c.interrupts == enabled
      modifies this
      ensures Act(false, c, Restore).1 == c.(interrupts := enabled, op := NoOp)
      ensures enabled == (old(enabled) || wasEnabled)
    {
      if wasEnabled {
        enabled := true;
      }
    }
  }

  /** The lock word: one method per atomic access of `lock`, `try_lock` and the drop. */
  class SpinLock {
    var locked: bool

    constructor ()
      ensures !locked
    {
      locked := false;
    }

    method CompareExchange(spurious: bool, ghost c: Cpu) returns (taken: bool)
      requires CanAct(c, Swap(spurious))
      modifies this
      ensures var (locked', c') := Act(old(locked), c, Swap(spurious));
        && locked == locked'
        && c' == if taken then c.(guards := c.guards + [Guard(c.op.lock, c.op.was)], op := NoOp)
                 else c.(op := if c.op.once then Restoring(c.op.was) else Spinning(c.op.lock, c.op.was))
      ensures taken <==> !spurious && !old(locked)
      ensures locked == (old(locked) || taken)
    {
      taken := !spurious && !locked;
      if taken {
        locked := true;
      }
    }

    method LoadRelaxed(ghost c: Cpu) returns (busy: bool)
      requires CanAct(c, SpinLoad)
      ensures (locked, if busy then c else c.(op := Swapping(c.op.lock, c.op.was, false)))
           == Act(locked, c, SpinLoad)
      ensures busy == locked
    {
      busy := locked;
    }

    method StoreUnlocked(ghost c: Cpu, ghost i: nat)
      requires CanAct(c, Drop(i))
      modifies this
      ensures Act(old(locked), c, Drop(i))
           == (locked, c.(guards := Without(c.guards, i), op := Restoring(c.guards[i].saved)))
      ensures !locked && Target(c, Drop(i)) == Some(c.guards[i].lock)
    {
      locked := false;
    }
  }

  // -------------------------------------------------------------------------
  // The machine: any number of CPUs and locks
  // -------------------------------------------------------------------------

  datatype State = State(locked: set<LockId>, cpus: map<CpuId, Cpu>, boot: bool)

  datatype Event = Event(cpu: CpuId, a: Action)

  function Init(boot: bool): State {
    State({}, map[], boot)
  }

  function CpuOf(s: State, c: CpuId): Cpu {
    if c in s.cpus then s.cpus[c] else Cpu(s.boot, [], NoOp, s.boot)
  }

  predicate Enabled(s: State, e: Event) {
    CanAct(CpuOf(s, e.cpu), e.a)
  }

  function Next(s: State, e: Event): State
    requires Enabled(s, e)
  {
    var c := CpuOf(s, e.cpu);
    match Target(c, e.a)
    case None => s.(cpus := s.cpus[e.cpu := Act(false, c, e.a).1])
    case Some(l) =>
      var (locked, c') := Act(l in s.locked, c, e.a);
      s.(locked := if locked then s.locked + {l} else s.locked - {l}, cpus := s.cpus[e.cpu := c'])
  }

  function Exec(s: State, es: seq<Event>): Option<State> {
    if es == [] then Some(s)
    else
      match Exec(s, es[..|es| - 1])
      case None => None
      case Some(u) =>
        if Enabled(u, es[|es| - 1]) then Some(Next(u, es[|es| - 1])) else None
  }

  lemma Extend(s: State, es: seq<Event>, e: Event) returns (longer: seq<Event>)
    requires Exec(s, es).Some? && Enabled(Exec(s, es).value, e)
    ensures longer == es + [e] && Exec(s, longer) == Some(Next(Exec(s, es).value, e))
  {
    longer := es + [e];
    assert longer[..|longer| - 1] == es;
  }

  // -------------------------------------------------------------------------
  // Mutual exclusion, for guards dropped in any order
  // -------------------------------------------------------------------------

  predicate HasGuard(c: Cpu, l: LockId) {
    exists i :: 0 <= i < |c.guards| && c.guards[i].lock == l
  }

  predicate NoLockTwice(c: Cpu) {
    forall i, j :: 0 <= i < j < |c.guards| ==> c.guards[i].lock != c.guards[j].lock
  }

  ghost predicate Held(s: State, l: LockId) {
    exists c :: HasGuard(CpuOf(s, c), l)
  }

  ghost predicate ExclusionInv(s: State) {
    && (forall c :: NoLockTwice(CpuOf(s, c)))
    && (forall c, d, l: LockId :: HasGuard(CpuOf(s, c), l) && HasGuard(CpuOf(s, d), l) ==> c == d)
    && (forall l: LockId :: l in s.locked <==> Held(s, l))
  }

  lemma DropKeepsLocksApart(c: Cpu, i: nat)
    requires CanAct(c, Drop(i)) && NoLockTwice(c)
    ensures NoLockTwice(Act(true, c, Drop(i)).1)
    ensures forall j :: 0 <= j < |c.guards| && j != i ==> c.guards[j].lock != c.guards[i].lock
  {
    forall j | 0 <= j < |c.guards| && j != i
      ensures c.guards[j].lock != c.guards[i].lock
    {
      assert if j < i then c.guards[j].lock != c.guards[i].lock else c.guards[i].lock != c.guards[j].lock;
    }
  }

  lemma GuardsAfterDrop(c: Cpu, i: nat)
    requires CanAct(c, Drop(i)) && NoLockTwice(c)
    ensures var c' := Act(true, c, Drop(i)).1;
      NoLockTwice(c') && forall l: LockId :: HasGuard(c', l) <==> HasGuard(c, l) && l != c.guards[i].lock
  {
    DropKeepsLocksApart(c, i);
    var c' := Act(true, c, Drop(i)).1;
    forall l: LockId | HasGuard(c, l) && l != c.guards[i].lock
      ensures HasGuard(c', l)
    {
      var j :| 0 <= j < |c.guards| && c.guards[j].lock == l;
      assert c'.guards[if j < i then j else j - 1].lock == l;
    }
    forall l: LockId | HasGuard(c', l)
      ensures HasGuard(c, l) && l != c.guards[i].lock
    {
      var j :| 0 <= j < |c'.guards| && c'.guards[j].lock == l;
      assert c.guards[if j < i then j else j + 1].lock == l;
    }
  }

  lemma GuardsAfterSwap(c: Cpu)
    requires CanAct(c, Swap(false)) && NoLockTwice(c) && !HasGuard(c, c.op.lock)
    ensures var c' := Act(false, c, Swap(false)).1;
      NoLockTwice(c') && forall l: LockId :: HasGuard(c', l) <==> HasGuard(c, l) || l == c.op.lock
  {
    var c' := Act(false, c, Swap(false)).1;
    assert c'.guards[|c.guards|].lock == c.op.lock;
    forall l: LockId | HasGuard(c, l)
      ensures HasGuard(c', l)
    {
      var j :| 0 <= j < |c.guards| && c.guards[j].lock == l;
      assert c'.guards[j].lock == l;
    }
  }

  /** The CPU's guards after the step differ from before for exactly the locks whose word the step changes. */
  ghost predicate GuardsFollow(s: State, s': State, id: CpuId) {
    && NoLockTwice(CpuOf(s', id))
    && forall l: LockId ::
         if (l in s'.locked) == (l in s.locked) then
           HasGuard(CpuOf(s', id), l) == HasGuard(CpuOf(s, id), l)
         else
           HasGuard(CpuOf(s', id), l) == (l in s'.locked) && HasGuard(CpuOf(s, id), l) == (l in s.locked)
  }

  lemma GuardsAfterRelease(s: State, e: Event)
    requires ExclusionInv(s) && Enabled(s, e) && e.a.Drop?
    ensures GuardsFollow(s, Next(s, e), e.cpu)
  {
    var c := CpuOf(s, e.cpu);
    var l := c.guards[e.a.index].lock;
    GuardsAfterDrop(c, e.a.index);
    assert HasGuard(c, l);
    assert Held(s, l);
    assert CpuOf(Next(s, e), e.cpu) == Act(true, c, e.a).1;
  }

  lemma GuardsAfterTry(s: State, e: Event)
    requires ExclusionInv(s) && Enabled(s, e) && e.a.Swap?
    ensures GuardsFollow(s, Next(s, e), e.cpu)
  {
    var c := CpuOf(s, e.cpu);
    var l := c.op.lock;
    if !e.a.spurious && l !in s.locked {
      assert !Held(s, l);
      assert !HasGuard(c, l);
      GuardsAfterSwap(c);
    } else {
      assert CpuOf(Next(s, e), e.cpu).guards == c.guards;
      assert Next(s, e).locked == s.locked;
    }
  }

  lemma GuardsAfter(s: State, e: Event)
    requires ExclusionInv(s) && Enabled(s, e)
    ensures GuardsFollow(s, Next(s, e), e.cpu)
  {
    if e.a.Drop? {
      GuardsAfterRelease(s, e);
    } else if e.a.Swap? {
      GuardsAfterTry(s, e);
    } else {
      assert CpuOf(Next(s, e), e.cpu).guards == CpuOf(s, e.cpu).guards;
      assert Next(s, e).locked == s.locked;
    }
  }

  lemma StepExclusion(s: State, e: Event)
    requires ExclusionInv(s) && Enabled(s, e)
    ensures ExclusionInv(Next(s, e))
  {
    var s' := Next(s, e);
    GuardsAfter(s, e);
    forall c
      ensures NoLockTwice(CpuOf(s', c)) && (c != e.cpu ==> CpuOf(s', c) == CpuOf(s, c))
    {
      assert NoLockTwice(CpuOf(s, c));
    }
    forall c, l: LockId | HasGuard(CpuOf(s', c), l)
      ensures l in s'.locked && (c == e.cpu || !HasGuard(CpuOf(s', e.cpu), l))
    {
      if c != e.cpu {
        assert HasGuard(CpuOf(s, c), l) && Held(s, l);
      } else if HasGuard(CpuOf(s, c), l) {
        assert Held(s, l);
      }
    }
    forall l: LockId | l in s'.locked
      ensures Held(s', l)
    {
      if l in s.locked {
        var c :| HasGuard(CpuOf(s, c), l);
        assert HasGuard(CpuOf(s', c), l);
      } else {
        assert HasGuard(CpuOf(s', e.cpu), l);
      }
    }
  }

  /** In every run each lock has at most one guard, and its word says whether there is one. */
  lemma {:induction false} EveryRunExcludes(boot: bool, es: seq<Event>)
    requires Exec(Init(boot), es).Some?
    ensures ExclusionInv(Exec(Init(boot), es).value)
  {
    if es != [] {
      EveryRunExcludes(boot, es[..|es| - 1]);
      StepExclusion(Exec(Init(boot), es[..|es| - 1]).value, es[|es| - 1]);
    }
  }

  // -------------------------------------------------------------------------
  // One operation
  // -------------------------------------------------------------------------

  /**
   * Where an operation on lock l by a CPU that was c can have got to: still at it, for
   * that lock and with the flag found at the start; giving up, if it is a try_lock; done,
   * with one new guard for l that saves that flag; or given up, with the flag as it was.
   */
  predicate Underway(c: Cpu, c': Cpu, l: LockId, once: bool) {
    match c'.op
    case Sampled(l', was, once') =>
      l' == l && was == c.interrupts && once' == once && c'.guards == c.guards && c'.interrupts == c.interrupts
    case Swapping(l', was, once') =>
      l' == l && was == c.interrupts && once' == once && c'.guards == c.guards && !c'.interrupts
    case Spinning(l', was) =>
      l' == l && was == c.interrupts && !once && c'.guards == c.guards && !c'.interrupts
    case Restoring(was) => was == c.interrupts && once && c'.guards == c.guards && !c'.interrupts
    case NoOp =>
      if c'.guards == c.guards then once && c'.interrupts == c.interrupts
      else c'.guards == c.guards + [Guard(l, c.interrupts)] && !c'.interrupts
  }

  /** The CPU neither begins nor drops anything, and the code around does not touch its flag. */
  ghost predicate NothingElse(es: seq<Event>, id: CpuId) {
    forall i :: 0 <= i < |es| && es[i].cpu == id ==> !es[i].a.Begin? && !es[i].a.Drop? && !es[i].a.SetFlag?
  }

  lemma ActStaysOnItsLock(locked: bool, c: Cpu, c': Cpu, a: Action, l: LockId, once: bool)
    requires Underway(c, c', l, once) && CanAct(c', a) && !a.Begin? && !a.Drop? && !a.SetFlag?
    ensures Underway(c, Act(locked, c', a).1, l, once)
  {
  }

  /**
   * Whatever the other CPUs do, an operation on a lock stays on that lock and ends with
   * a guard of it, or, for a try_lock only, with nothing changed on its CPU.
   */
  lemma {:induction false} OperationStaysOnItsLock(s: State, es: seq<Event>, id: CpuId, l: LockId, once: bool)
    requires Enabled(s, Event(id, Begin(l, once))) && NothingElse(es, id)
    requires Exec(Next(s, Event(id, Begin(l, once))), es).Some?
    ensures Underway(CpuOf(s, id), CpuOf(Exec(Next(s, Event(id, Begin(l, once))), es).value, id), l, once)
  {
    if es != [] {
      var began := Next(s, Event(id, Begin(l, once)));
      var before, e := es[..|es| - 1], es[|es| - 1];
      assert forall i :: 0 <= i < |before| ==> before[i] == es[i];
      OperationStaysOnItsLock(s, before, id, l, once);
      var u := Exec(began, before).value;
      if e.cpu == id {
        ActStaysOnItsLock(false, CpuOf(s, id), CpuOf(u, id), e.a, l, once);
        ActStaysOnItsLock(true, CpuOf(s, id), CpuOf(u, id), e.a, l, once);
      }
    }
  }

  /** The swap of a lock or try_lock takes its lock if it is free and the exchange does not fail by itself. */
  lemma SwapTakesIffFree(s: State, id: CpuId, spurious: bool)
    requires Enabled(s, Event(id, Swap(spurious)))
    ensures var c, s' := CpuOf(s, id), Next(s, Event(id, Swap(spurious)));
      && s'.locked == (if spurious then s.locked else s.locked + {c.op.lock})
      && CpuOf(s', id) ==
           if !spurious && c.op.lock !in s.locked then
             c.(guards := c.guards + [Guard(c.op.lock, c.op.was)], op := NoOp)
           else if c.op.once then c.(op := Restoring(c.op.was))
           else c.(op := Spinning(c.op.lock, c.op.was))
  {
  }

  /** What becomes of a try_lock of lock l that nobody interrupts. */
  ghost predicate TryOutcome(s: State, s': State, id: CpuId, l: LockId) {
    && s'.locked == s.locked + {l}
    && (if l in s.locked then CpuOf(s', id) == CpuOf(s, id)
        else
          CpuOf(s', id) == CpuOf(s, id).(interrupts := false,
                                         guards := CpuOf(s, id).guards + [Guard(l, CpuOf(s, id).interrupts)]))
    && forall d: CpuId :: d != id ==> CpuOf(s', d) == CpuOf(s, d)
  }

  /** A try_lock's way to its swap. */
  lemma TryLockBegins(s: State, id: CpuId, l: LockId) returns (es: seq<Event>)
    requires CpuOf(s, id).op.NoOp?
    ensures Exec(s, es).Some?
    ensures var c, s' := CpuOf(s, id), Exec(s, es).value;
      && CpuOf(s', id) == c.(interrupts := false, op := Swapping(l, c.interrupts, true)) && s'.locked == s.locked
      && forall d: CpuId :: d != id ==> CpuOf(s', d) == CpuOf(s, d)
  {
    es := Extend(s, [], Event(id, Begin(l, true)));
    es := Extend(s, es, Event(id, Cli));
  }

  /** Uninterrupted, try_lock takes exactly the lock it is called on, if that is free, and otherwise changes nothing. */
  lemma TryLockAloneTakesIffFree(s: State, id: CpuId, l: LockId) returns (es: seq<Event>)
    requires CpuOf(s, id).op.NoOp?
    ensures Exec(s, es).Some? && TryOutcome(s, Exec(s, es).value, id, l)
  {
    es := TryLockBegins(s, id, l);
    SwapTakesIffFree(Exec(s, es).value, id, false);
    es := Extend(s, es, Event(id, Swap(false)));
    if l in s.locked {
      es := Extend(s, es, Event(id, Restore));
    }
  }

  /** Code that holds nothing and is in no lock operation can set the flag either way. */
  lemma FlagCanBeSetOutside(s: State, id: CpuId, on: bool)
    requires CpuOf(s, id).op.NoOp? && CpuOf(s, id).guards == []
    ensures Enabled(s, Event(id, SetFlag(on)))
    ensures var s' := Next(s, Event(id, SetFlag(on)));
      s'.locked == s.locked && CpuOf(s', id) == Cpu(on, [], NoOp, on)
  {
  }

  /** Dropping a guard frees its lock and no other, leaves the other guards, and puts back the flag it saved. */
  lemma DropFreesItsLock(s: State, id: CpuId, i: nat) returns (es: seq<Event>)
    requires CpuOf(s, id).op.NoOp? && i < |CpuOf(s, id).guards|
    ensures Exec(s, es).Some?
    ensures var c, s' := CpuOf(s, id), Exec(s, es).value;
      && s'.locked == s.locked - {c.guards[i].lock}
      && CpuOf(s', id) == c.(guards := c.guards[..i] + c.guards[i + 1..],
                             interrupts := c.interrupts || c.guards[i].saved)
      && forall d: CpuId :: d != id ==> CpuOf(s', d) == CpuOf(s, d)
  {
    es := Extend(s, [], Event(id, Drop(i)));
    es := Extend(s, es, Event(id, Restore));
  }

  // -------------------------------------------------------------------------
  // The interrupt flag
  // -------------------------------------------------------------------------

  /** The flag to be put back once every guard is gone and the current operation is over. */
  predicate Rest(c: Cpu) {
    c.guards == [] && c.base
  }

  predicate FlagOk(c: Cpu) {
    && (forall i :: 0 <= i < |c.guards| ==> c.guards[i].saved == (i == 0 && c.base))
    && match c.op
       case NoOp => c.interrupts == Rest(c)
       case Sampled(_, was, _) => c.interrupts == was == Rest(c)
       case Swapping(_, was, _) => !c.interrupts && was == Rest(c)
       case Spinning(_, was) => !c.interrupts && was == Rest(c)
       case Restoring(was) => !c.interrupts && was == Rest(c)
  }

  /** Dropping the guard that would turn interrupts on, while other guards are live. */
  predicate Harmful(c: Cpu, a: Action) {
    a.Drop? && a.index < |c.guards| && |c.guards| > 1 && c.guards[a.index].saved
  }

  lemma DropFlag(c: Cpu, i: nat)
    requires FlagOk(c) && CanAct(c, Drop(i))
    ensures FlagOk(Act(true, c, Drop(i)).1) <==> !Harmful(c, Drop(i))
  {
    assert |Without(c.guards, i)| == |c.guards| - 1;
  }

  lemma TakeFlag(c: Cpu)
    requires FlagOk(c) && CanAct(c, Swap(false))
    ensures FlagOk(Act(false, c, Swap(false)).1)
  {
  }

  lemma ActFlag(locked: bool, c: Cpu, a: Action)
    requires FlagOk(c) && CanAct(c, a)
    ensures FlagOk(Act(locked, c, a).1) <==> !Harmful(c, a)
  {
    if a.Drop? {
      DropFlag(c, a.index);
    } else if a == Swap(false) && !locked {
      TakeFlag(c);
    } else if !a.SetFlag? {
      assert Act(locked, c, a).1.guards == c.guards;
    }
  }

  /**
   * A drop, once it has put the flag back, leaves interrupts on under a live guard
   * exactly when other guards are live and the flag is on already or was saved by
   * the dropped guard; while no drop has done so yet, exactly when it is harmful.
   */
  lemma InterruptsOnUnderGuardIffHarmful(c: Cpu, i: nat)
    requires CanAct(c, Drop(i))
    ensures var c' := Act(false, Act(true, c, Drop(i)).1, Restore).1;
      (c'.interrupts && c'.guards != []) <==> |c.guards| > 1 && (c.interrupts || c.guards[i].saved)
    ensures FlagOk(c) ==>
      (|c.guards| > 1 && (c.interrupts || c.guards[i].saved) <==> Harmful(c, Drop(i)))
  {
    assert |Without(c.guards, i)| == |c.guards| - 1;
  }

  /**
   * While no drop of the CPU has been harmful, neither the drop of its newest guard nor
   * that of any guard but its outermost is, and none is that began with the flag off.
   */
  lemma KeepingTheOutermostIsHarmless(c: Cpu, i: nat)
    requires FlagOk(c) && CanAct(c, Drop(i))
    requires i == |c.guards| - 1 || i != 0 || !c.base
    ensures !Harmful(c, Drop(i))
  {
  }

  /** None of the CPU's own drops in the run is harmful, whatever the other CPUs do. */
  ghost predicate NeverHarmfulOn(s: State, es: seq<Event>, id: CpuId) {
    es != [] ==>
      var before, e := es[..|es| - 1], es[|es| - 1];
      && NeverHarmfulOn(s, before, id)
      && Exec(s, before).Some?
      && (e.cpu == id ==> !Harmful(CpuOf(Exec(s, before).value, id), e.a))
  }

  /** No CPU ever drops harmfully. */
  ghost predicate NeverHarmful(s: State, es: seq<Event>) {
    forall id: CpuId :: NeverHarmfulOn(s, es, id)
  }

  lemma {:induction false} RunFlags(s: State, es: seq<Event>, id: CpuId)
    requires FlagOk(CpuOf(s, id)) && Exec(s, es).Some? && NeverHarmfulOn(s, es, id)
    ensures FlagOk(CpuOf(Exec(s, es).value, id))
  {
    if es != [] {
      var u, e := Exec(s, es[..|es| - 1]).value, es[|es| - 1];
      RunFlags(s, es[..|es| - 1], id);
      if id == e.cpu {
        ActFlag(match Target(CpuOf(u, id), e.a) case None => false case Some(l) => l in u.locked,
                CpuOf(u, id), e.a);
      }
    }
  }

  /** A CPU that has made no harmful drop itself has interrupts off whenever it holds a guard. */
  lemma InterruptsOffWhileHolding(boot: bool, es: seq<Event>, id: CpuId)
    requires Exec(Init(boot), es).Some? && NeverHarmfulOn(Init(boot), es, id)
    ensures var c := CpuOf(Exec(Init(boot), es).value, id);
      FlagOk(c) && (c.guards != [] ==> !c.interrupts)
  {
    RunFlags(Init(boot), es, id);
  }

  /**
   * Every guard the CPU drops in the run is its newest at that moment or, unless `lifo`,
   * any other than its outermost.
   */
  ghost predicate DropsInOrder(s: State, es: seq<Event>, id: CpuId, lifo: bool) {
    es != [] ==>
      var before, e := es[..|es| - 1], es[|es| - 1];
      && DropsInOrder(s, before, id, lifo)
      && Exec(s, before).Some?
      && (e.cpu == id && e.a.Drop? ==>
            e.a.index == |CpuOf(Exec(s, before).value, id).guards| - 1 || (!lifo && e.a.index != 0))
  }

  /** Last-in first-out drops are never harmful, nor is any order that keeps the outermost guard to the end. */
  lemma {:induction false} DropsInOrderAreHarmless(boot: bool, es: seq<Event>, id: CpuId, lifo: bool)
    requires Exec(Init(boot), es).Some? && DropsInOrder(Init(boot), es, id, lifo)
    ensures NeverHarmfulOn(Init(boot), es, id)
  {
    if es != [] {
      var before, e := es[..|es| - 1], es[|es| - 1];
      DropsInOrderAreHarmless(boot, before, id, lifo);
      RunFlags(Init(boot), before, id);
      if e.cpu == id && e.a.Drop? {
        KeepingTheOutermostIsHarmless(CpuOf(Exec(Init(boot), before).value, id), e.a.index);
      }
    }
  }

  /** The CPU holds a guard and has interrupts on. */
  predicate OnUnderGuard(s: State, id: CpuId) {
    CpuOf(s, id).guards != [] && CpuOf(s, id).interrupts
  }

  /** At every moment of a run, a live guard of the CPU means its interrupts are off. */
  ghost predicate OffUnderGuardsOn(s: State, es: seq<Event>, id: CpuId) {
    forall n: nat :: n <= |es| && Exec(s, es[..n]).Some? ==> !OnUnderGuard(Exec(s, es[..n]).value, id)
  }

  /** The same on every CPU. */
  ghost predicate OffUnderGuards(s: State, es: seq<Event>) {
    forall id: CpuId :: OffUnderGuardsOn(s, es, id)
  }

  /** The CPU has dropped a guard, holds another, and is about to turn interrupts on. */
  predicate AboutToTurnOn(s: State, id: CpuId) {
    CpuOf(s, id).guards != [] && CpuOf(s, id).op == Restoring(true)
  }

  lemma {:induction false} NeverHarmfulBefore(s: State, es: seq<Event>, n: nat, id: CpuId)
    requires NeverHarmfulOn(s, es, id) && n <= |es|
    ensures NeverHarmfulOn(s, es[..n], id)
    decreases |es|
  {
    if n < |es| {
      assert es[..|es| - 1][..n] == es[..n];
      NeverHarmfulBefore(s, es[..|es| - 1], n, id);
    } else {
      assert es[..n] == es;
    }
  }

  /** A harmful drop shows: interrupts have come on under a guard, or are about to. */
  lemma {:induction false} HarmShows(s: State, es: seq<Event>, id: CpuId) returns (n: nat)
    requires Exec(s, es).Some? && !NeverHarmfulOn(s, es, id)
    ensures n <= |es| && Exec(s, es[..n]).Some?
    ensures OnUnderGuard(Exec(s, es[..n]).value, id) || (n == |es| && AboutToTurnOn(Exec(s, es).value, id))
  {
    var before, e := es[..|es| - 1], es[|es| - 1];
    var u := Exec(s, before).value;
    assert es[..|es|] == es;
    if NeverHarmfulOn(s, before, id) {
      n := |es|;
      assert |Without(CpuOf(u, id).guards, e.a.index)| == |CpuOf(u, id).guards| - 1;
    } else {
      n := HarmShows(s, before, id);
      if OnUnderGuard(Exec(s, before[..n]).value, id) {
        assert es[..n] == before[..n];
      } else {
        n := |es|;
      }
    }
  }

  /**
   * A CPU has made no harmful drop exactly when its interrupts have been off under every
   * guard so far and no restore that would change this is still to come.
   */
  lemma OffUnderGuardsIffNeverHarmfulOn(boot: bool, es: seq<Event>, id: CpuId)
    requires Exec(Init(boot), es).Some?
    ensures NeverHarmfulOn(Init(boot), es, id) <==>
      OffUnderGuardsOn(Init(boot), es, id) && !AboutToTurnOn(Exec(Init(boot), es).value, id)
    ensures !CpuOf(Exec(Init(boot), es).value, id).op.Restoring? ==>
      (NeverHarmfulOn(Init(boot), es, id) <==> OffUnderGuardsOn(Init(boot), es, id))
  {
    if NeverHarmfulOn(Init(boot), es, id) {
      forall n: nat | n <= |es| && Exec(Init(boot), es[..n]).Some?
        ensures !OnUnderGuard(Exec(Init(boot), es[..n]).value, id)
      {
        NeverHarmfulBefore(Init(boot), es, n, id);
        InterruptsOffWhileHolding(boot, es[..n], id);
      }
      InterruptsOffWhileHolding(boot, es, id);
    } else {
      var n := HarmShows(Init(boot), es, id);
    }
  }

  /** The same for all CPUs together. */
  lemma OffUnderGuardsIffNeverHarmful(boot: bool, es: seq<Event>)
    requires Exec(Init(boot), es).Some?
    ensures NeverHarmful(Init(boot), es) <==>
      OffUnderGuards(Init(boot), es) && forall id: CpuId :: !AboutToTurnOn(Exec(Init(boot), es).value, id)
    ensures (forall id: CpuId :: !CpuOf(Exec(Init(boot), es).value, id).op.Restoring?) ==>
      (NeverHarmful(Init(boot), es) <==> OffUnderGuards(Init(boot), es))
  {
    forall id: CpuId
      ensures NeverHarmfulOn(Init(boot), es, id) <==>
        OffUnderGuardsOn(Init(boot), es, id) && !AboutToTurnOn(Exec(Init(boot), es).value, id)
    {
      OffUnderGuardsIffNeverHarmfulOn(boot, es, id);
    }
  }

  /** One CPU takes locks 0 and 1 and drops lock 0 first: interrupts are on while it holds lock 1. */
  lemma OuterDropEnablesUnderInner() returns (es: seq<Event>)
    ensures Exec(Init(true), es).Some? && OnUnderGuard(Exec(Init(true), es).value, 0)
    ensures CpuOf(Exec(Init(true), es).value, 0) == Cpu(true, [Guard(1, false)], NoOp, true)
  {
    es := Extend(Init(true), [], Event(0, Begin(0, false)));
    es := Extend(Init(true), es, Event(0, Cli));
    es := Extend(Init(true), es, Event(0, Swap(false)));
    es := Extend(Init(true), es, Event(0, Begin(1, false)));
    es := Extend(Init(true), es, Event(0, Cli));
    es := Extend(Init(true), es, Event(0, Swap(false)));
    es := Extend(Init(true), es, Event(0, Drop(0)));
    es := Extend(Init(true), es, Event(0, Restore));
  }

  ghost predicate NoFlagSet(es: seq<Event>, id: CpuId) {
    forall i :: 0 <= i < |es| && es[i].cpu == id ==> !es[i].a.SetFlag?
  }

  lemma ActKeepsBase(locked: bool, c: Cpu, a: Action)
    requires CanAct(c, a) && !a.SetFlag?
    ensures Act(locked, c, a).1.base == c.base
  {
  }

  lemma {:induction false} BaseUnchanged(s: State, es: seq<Event>, id: CpuId)
    requires Exec(s, es).Some? && NoFlagSet(es, id)
    ensures CpuOf(Exec(s, es).value, id).base == CpuOf(s, id).base
  {
    if es != [] {
      var u, e := Exec(s, es[..|es| - 1]).value, es[|es| - 1];
      assert forall i :: 0 <= i < |es| - 1 ==> es[..|es| - 1][i] == es[i];
      BaseUnchanged(s, es[..|es| - 1], id);
      if e.cpu == id {
        ActKeepsBase(false, CpuOf(u, id), e.a);
        ActKeepsBase(true, CpuOf(u, id), e.a);
      }
    }
  }

  /** The flag an operation read when it began and will hand to its guard or put back. */
  predicate Carries(op: Op) {
    match op
    case NoOp => false
    case Sampled(_, was, _) => was
    case Swapping(_, was, _) => was
    case Spinning(_, was) => was
    case Restoring(was) => was
  }

  predicate SavedByGuard(c: Cpu) {
    exists i :: 0 <= i < |c.guards| && c.guards[i].saved
  }

  /** An enabled flag is never lost and never made up, in whatever order guards are dropped. */
  predicate FlagKept(c: Cpu) {
    && (c.op.Sampled? ==> c.op.was == c.interrupts)
    && (c.base <==> c.interrupts || Carries(c.op) || SavedByGuard(c))
  }

  lemma DropKeepsFlag(c: Cpu, i: nat)
    requires FlagKept(c) && CanAct(c, Drop(i))
    ensures FlagKept(Act(true, c, Drop(i)).1)
  {
    var c' := Act(true, c, Drop(i)).1;
    if SavedByGuard(c) {
      var j :| 0 <= j < |c.guards| && c.guards[j].saved;
      assert j != i ==> c'.guards[if j < i then j else j - 1].saved;
    }
    if SavedByGuard(c') {
      var j :| 0 <= j < |c'.guards| && c'.guards[j].saved;
      assert c.guards[if j < i then j else j + 1].saved;
    }
  }

  lemma TakeKeepsFlag(c: Cpu)
    requires FlagKept(c) && CanAct(c, Swap(false))
    ensures FlagKept(Act(false, c, Swap(false)).1)
  {
    var c' := Act(false, c, Swap(false)).1;
    assert c'.guards[|c.guards|].saved == c.op.was;
    if SavedByGuard(c) {
      var j :| 0 <= j < |c.guards| && c.guards[j].saved;
      assert c'.guards[j].saved;
    }
  }

  lemma ActKeepsFlag(locked: bool, c: Cpu, a: Action)
    requires FlagKept(c) && CanAct(c, a)
    ensures FlagKept(Act(locked, c, a).1)
  {
    if a.Drop? {
      DropKeepsFlag(c, a.index);
    } else if a == Swap(false) && !locked {
      TakeKeepsFlag(c);
    } else {
      assert a.SetFlag? || Act(locked, c, a).1.guards == c.guards;
    }
  }

  lemma {:induction false} RunKeepsFlag(s: State, es: seq<Event>, id: CpuId)
    requires FlagKept(CpuOf(s, id)) && Exec(s, es).Some?
    ensures FlagKept(CpuOf(Exec(s, es).value, id))
  {
    if es != [] {
      var u, e := Exec(s, es[..|es| - 1]).value, es[|es| - 1];
      RunKeepsFlag(s, es[..|es| - 1], id);
      if id == e.cpu {
        ActKeepsFlag(false, CpuOf(u, id), e.a);
        ActKeepsFlag(true, CpuOf(u, id), e.a);
      }
    }
  }

  /**
   * Any stretch of nested acquisitions, failed try_locks and drops that begins and
   * ends with the CPU holding nothing leaves its flag as it was at the start, in
   * whatever order the guards are dropped and whatever the other CPUs do meanwhile.
   */
  lemma OutermostDropRestoresFlag(boot: bool, es: seq<Event>, more: seq<Event>, id: CpuId)
    requires Exec(Init(boot), es).Some?
    requires var s := Exec(Init(boot), es).value;
      && Exec(s, more).Some? && NoFlagSet(more, id)
      && CpuOf(s, id).guards == [] && CpuOf(s, id).op.NoOp?
      && CpuOf(Exec(s, more).value, id).guards == [] && CpuOf(Exec(s, more).value, id).op.NoOp?
    ensures var s := Exec(Init(boot), es).value;
      CpuOf(Exec(s, more).value, id).interrupts == CpuOf(s, id).interrupts
  {
    var s := Exec(Init(boot), es).value;
    RunKeepsFlag(Init(boot), es, id);
    RunKeepsFlag(s, more, id);
    BaseUnchanged(s, more, id);
  }
}
