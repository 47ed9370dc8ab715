/**
 * The ticket counters are 64-bit and wrap.  This module relates the wrapping
 * machine to the unbounded one, and says exactly when they part: how many tickets
 * may be issued before a try_lock can take a lock that is held, and how many may be
 * outstanding before two waiters can.
 */
module TicketLockWrap {
  import opened Common
  import opened TicketLocks

  function Low64(x: nat): nat {
    x % TWO_TO_64
  }

  function WrapShared<V>(m: Shared<V>): Shared<V> {
    Shared(Low64(m.next), Low64(m.serving), m.data)
  }

  function WrapPc<V>(pc: Pc<V>): Pc<V> {
    match pc
    case Outside => Outside
    case Waiting(k) => Waiting(Low64(k))
    case TryServing(current) => TryServing(Low64(current))
    case TryCas(expected) => TryCas(Low64(expected))
    case Holding(k, copy) => Holding(Low64(k), copy)
  }

  /** What the wrapping machine sees of a state of the unbounded one. */
  function WrapState<V>(s: State<V>): State<V> {
    State(WrapShared(s.mem),
          map t | t in s.threads :: WrapPc(s.threads[t]),
          seq(|s.log|, i requires 0 <= i < |s.log| => Update(Low64(s.log[i].ticket), s.log[i].f)),
          s.issued)
  }

  /** The action compares two counters that differ, but not in their low 64 bits. */
  predicate Fooled<V>(m: Shared<V>, pc: Pc<V>, a: Action<V>)
    requires CanAct(pc, a)
  {
    match a
    case PollTurn => m.serving != pc.ticket && Low64(m.serving) == Low64(pc.ticket)
    case LoadNext => m.next != pc.current && Low64(m.next) == Low64(pc.current)
    case CompareExchange => m.next != pc.expected && Low64(m.next) == Low64(pc.expected)
    case _ => false
  }

  lemma BumpRefines(x: nat)
    ensures Bump(true, Low64(x)) == Low64(Bump(false, x))
  {
  }

  lemma BumpMoves(x: nat)
    ensures Low64(Bump(false, x)) != Low64(x)
  {
  }

  lemma ActRefinesIff<V>(m: Shared<V>, pc: Pc<V>, a: Action<V>)
    requires CanAct(pc, a)
    ensures var (m', pc') := Act(false, m, pc, a);
      Act(true, WrapShared(m), WrapPc(pc), a) == (WrapShared(m'), WrapPc(pc')) <==> !Fooled(m, pc, a)
  {
    BumpRefines(m.next);
    BumpRefines(m.serving);
    BumpMoves(m.next);
  }

  /** From any state both machines can take the same steps, with the same effect unless the step is fooled. */
  lemma StepRefines<V>(s: State<V>, e: Event<V>)
    ensures Enabled(WrapState(s), e) <==> Enabled(s, e)
    ensures Enabled(s, e) ==>
      (Next(true, WrapState(s), e) == WrapState(Next(false, s, e)) <==> !Fooled(s.mem, PcOf(s, e.t), e.a))
  {
    var w := WrapState(s);
    var pc := PcOf(s, e.t);
    assert PcOf(w, e.t) == WrapPc(pc);
    if Enabled(s, e) {
      ActRefinesIff(s.mem, pc, e.a);
      if Fooled(s.mem, pc, e.a) {
        var w', s' := Next(true, w, e), Next(false, s, e);
        assert PcOf(w', e.t) != PcOf(WrapState(s'), e.t);
      } else {
        StepMirrors(s, e);
      }
    }
  }

  lemma StepMirrors<V>(s: State<V>, e: Event<V>)
    requires Enabled(s, e) && !Fooled(s.mem, PcOf(s, e.t), e.a)
    ensures Enabled(WrapState(s), e) && Next(true, WrapState(s), e) == WrapState(Next(false, s, e))
  {
    assert PcOf(WrapState(s), e.t) == WrapPc(PcOf(s, e.t));
    ActRefinesIff(s.mem, PcOf(s, e.t), e.a);
    BumpMoves(s.mem.next);
    var w', s' := Next(true, WrapState(s), e), Next(false, s, e);
    assert w'.threads == WrapState(s').threads;
    assert w'.log == WrapState(s').log;
  }

  /** No step of the unbounded run would be fooled by the wrap. */
  ghost predicate NeverFooled<V>(data: V, es: seq<Event<V>>) {
    es != [] ==>
      var before, e := es[..|es| - 1], es[|es| - 1];
      && NeverFooled(data, before)
      && (Exec(false, Init(data), before).Some? && Enabled(Exec(false, Init(data), before).value, e) ==>
            var s := Exec(false, Init(data), before).value;
            !Fooled(s.mem, PcOf(s, e.t), e.a))
  }

  /** Such runs are the same in both machines, however many times the counters wrap. */
  lemma {:induction false} WrappedRunRefines<V>(data: V, es: seq<Event<V>>)
    requires NeverFooled(data, es)
    ensures Exec(true, Init(data), es).Some? <==> Exec(false, Init(data), es).Some?
    ensures Exec(false, Init(data), es).Some? ==>
      Exec(true, Init(data), es).value == WrapState(Exec(false, Init(data), es).value)
  {
    if es == [] {
      assert WrapState(Init(data)) == Init(data);
    } else {
      var before := es[..|es| - 1];
      WrappedRunRefines(data, before);
      if Exec(false, Init(data), before).Some? {
        StepRefines(Exec(false, Init(data), before).value, es[|es| - 1]);
      }
    }
  }

  /** At every moment the 64-bit machine is where the unbounded one is. */
  ghost predicate Mirrors<V>(data: V, es: seq<Event<V>>) {
    && Exec(false, Init(data), es).Some?
    && Exec(true, Init(data), es) == Some(WrapState(Exec(false, Init(data), es).value))
    && (es != [] ==> Mirrors(data, es[..|es| - 1]))
  }

  /** They are the same in no other runs. */
  lemma {:induction false} MirrorsIffNeverFooled<V>(data: V, es: seq<Event<V>>)
    requires Exec(false, Init(data), es).Some?
    ensures Mirrors(data, es) <==> NeverFooled(data, es)
  {
    if es == [] {
      assert WrapState(Init(data)) == Init(data);
    } else {
      MirrorsIffNeverFooled(data, es[..|es| - 1]);
      if Mirrors(data, es[..|es| - 1]) {
        StepRefines(Exec(false, Init(data), es[..|es| - 1]).value, es[|es| - 1]);
      }
    }
  }

  /**
   * Enough for no comparison of the thread to be fooled: as a waiter, that at most
   * 2^64 tickets are outstanding; in try_lock, that it has not seen 2^64 tickets
   * issued since it loaded now_serving.
   */
  predicate PcFits<V>(m: Shared<V>, pc: Pc<V>) {
    match pc
    case TryServing(current) => m.next - current < TWO_TO_64
    case TryCas(expected) => m.next - expected < TWO_TO_64
    case _ => m.next - m.serving <= TWO_TO_64
  }

  lemma CompareRefines(x: nat, y: nat)
    requires x <= y < x + TWO_TO_64
    ensures Low64(x) == Low64(y) <==> x == y
  {
  }

  lemma FitsIsNotFooled<V>(m: Shared<V>, pc: Pc<V>, a: Action<V>)
    requires CanAct(pc, a) && LocalsOk(m, pc) && PcFits(m, pc) && m.serving <= m.next
    ensures !Fooled(m, pc, a)
  {
    match pc
    case Waiting(k) => CompareRefines(m.serving, k);
    case TryServing(current) => CompareRefines(current, m.next);
    case TryCas(expected) => CompareRefines(expected, m.next);
    case _ =>
  }

  lemma WrapKeepsExclusion<V>(s: State<V>)
    requires MutualExclusion(s)
    ensures MutualExclusion(WrapState(s))
  {
    forall t, u | Holds(WrapState(s), t) && Holds(WrapState(s), u)
      ensures t == u
    {
      assert Holds(s, t) && Holds(s, u);
    }
  }

  /** The 64-bit lock excludes and loses no update in every run that is never fooled. */
  lemma WrappedRunIsLinearised<V>(data: V, es: seq<Event<V>>)
    requires NeverFooled(data, es) && Exec(true, Init(data), es).Some?
    ensures var w := Exec(true, Init(data), es).value;
      MutualExclusion(w) && w.mem.data == Replay(data, WritesIn(es))
  {
    WrappedRunRefines(data, es);
    EveryRunIsLinearised(data, es);
    var s := Exec(false, Init(data), es).value;
    WrapKeepsExclusion(s);
  }

  // -------------------------------------------------------------------------
  // How many tickets are too many
  // -------------------------------------------------------------------------

  /** Every step taken from a state with at most n tickets issued so far leaves at most one holder. */
  ghost predicate SafeWithin<V(!new)>(data: V, n: nat) {
    forall es: seq<Event<V>>, e: Event<V> ::
      Exec(true, Init(data), es).Some? && Enabled(Exec(true, Init(data), es).value, e)
      && Exec(true, Init(data), es).value.issued <= n ==>
        MutualExclusion(Next(true, Exec(true, Init(data), es).value, e))
  }

  /** With so few tickets issued the next step is not fooled either. */
  lemma NotFooledYet<V>(data: V, es: seq<Event<V>>, e: Event<V>)
    requires NeverFooled(data, es) && Exec(true, Init(data), es).Some?
    requires Exec(true, Init(data), es).value.issued < TWO_TO_64
    ensures Exec(false, Init(data), es).Some?
    ensures var s := Exec(false, Init(data), es).value;
      && (Enabled(Exec(true, Init(data), es).value, e) <==> Enabled(s, e))
      && (Enabled(s, e) ==> !Fooled(s.mem, PcOf(s, e.t), e.a))
  {
    WrappedRunRefines(data, es);
    InitInv(data);
    RunInv(data, Init(data), es);
    var s := Exec(false, Init(data), es).value;
    StepRefines(s, e);
    assert LocalsOk(s.mem, PcOf(s, e.t));
    if Enabled(s, e) {
      FitsIsNotFooled(s.mem, PcOf(s, e.t), e.a);
    }
  }

  lemma {:induction false} FewTicketsFit<V>(data: V, es: seq<Event<V>>)
    requires Exec(true, Init(data), es).Some?
    requires es != [] ==> Exec(true, Init(data), es[..|es| - 1]).value.issued < TWO_TO_64
    ensures NeverFooled(data, es)
  {
    if es != [] {
      FewTicketsFit(data, es[..|es| - 1]);
      NotFooledYet(data, es[..|es| - 1], es[|es| - 1]);
    }
  }

  lemma SafeBelow<V>(data: V, es: seq<Event<V>>, e: Event<V>)
    requires Exec(true, Init(data), es).Some? && Enabled(Exec(true, Init(data), es).value, e)
    requires Exec(true, Init(data), es).value.issued < TWO_TO_64
    ensures MutualExclusion(Next(true, Exec(true, Init(data), es).value, e))
  {
    var longer := es + [e];
    assert longer[..|longer| - 1] == es;
    assert Exec(true, Init(data), longer) == Some(Next(true, Exec(true, Init(data), es).value, e));
    FewTicketsFit(data, longer);
    WrappedRunIsLinearised(data, longer);
  }

  /** What thread 1 carries: one load of a free lock's zero counters, or both. */
  function Stalled<V>(both: bool): Pc<V> {
    if both then TryCas(0) else TryServing(0)
  }

  /** Thread 1 has stalled in try_lock; since then thread 0 has taken and dropped the lock n times. */
  predicate StalledAfter<V(==)>(s: State<V>, data: V, both: bool, n: nat) {
    && s.mem == Shared(Low64(n), Low64(n), data) && s.issued == n
    && PcOf(s, 0) == Outside && PcOf(s, 1) == Stalled(both)
  }

  lemma LockAndUnlock<V>(s: State<V>, data: V, both: bool, n: nat)
    requires StalledAfter(s, data, both, n)
    ensures Enabled(s, Event(0, TakeTicket))
    ensures var s1 := Next(true, s, Event(0, TakeTicket));
      && Enabled(s1, Event(0, PollTurn))
      && var s2 := Next(true, s1, Event(0, PollTurn));
      && s2.mem == Shared(Low64(n + 1), Low64(n), data) && s2.issued == n + 1
      && PcOf(s2, 0) == Holding(Low64(n), None) && PcOf(s2, 1) == Stalled(both)
      && Enabled(s2, Event(0, Unlock)) && StalledAfter(Next(true, s2, Event(0, Unlock)), data, both, n + 1)
  {
    BumpRefines(n);
  }

  lemma OneMoreTurn<V>(data: V, es: seq<Event<V>>, both: bool, n: nat) returns (longer: seq<Event<V>>)
    requires Exec(true, Init(data), es).Some? && StalledAfter(Exec(true, Init(data), es).value, data, both, n)
    ensures Exec(true, Init(data), longer).Some?
    ensures StalledAfter(Exec(true, Init(data), longer).value, data, both, n + 1)
  {
    LockAndUnlock(Exec(true, Init(data), es).value, data, both, n);
    longer := Extend(data, es, Event(0, TakeTicket));
    longer := Extend(data, longer, Event(0, PollTurn));
    longer := Extend(data, longer, Event(0, Unlock));
  }

  lemma {:induction false} StalledTry<V>(data: V, both: bool, n: nat) returns (es: seq<Event<V>>)
    ensures Exec(true, Init(data), es).Some? && StalledAfter(Exec(true, Init(data), es).value, data, both, n)
  {
    if n == 0 {
      es := Extend(data, [], Event(1, LoadServing));
      if both {
        es := Extend(data, es, Event(1, LoadNext));
      }
    } else {
      es := StalledTry(data, both, n - 1);
      es := OneMoreTurn(data, es, both, n - 1);
    }
  }

  lemma Extend<V>(data: V, es: seq<Event<V>>, e: Event<V>) returns (longer: seq<Event<V>>)
    requires Exec(true, Init(data), es).Some? && Enabled(Exec(true, Init(data), es).value, e)
    ensures longer == es + [e]
    ensures Exec(true, Init(data), longer) == Some(Next(true, Exec(true, Init(data), es).value, e))
  {
    longer := es + [e];
    assert longer[..|longer| - 1] == es;
  }

  /** A CAS that finds the counter back at zero takes the lock from under thread 0. */
  lemma StaleCas<V>(data: V, both: bool, n: nat) returns (es: seq<Event<V>>)
    requires n > 0 && Low64(n) == 0
    ensures Exec(true, Init(data), es).Some?
    ensures var s, e := Exec(true, Init(data), es).value, Event(1, CompareExchange);
      && s.issued == n && Enabled(s, e)
      && Holds(s, 0) && Holds(Next(true, s, e), 0) && Holds(Next(true, s, e), 1)
  {
    es := StalledTry(data, both, n - 1);
    LockAndUnlock(Exec(true, Init(data), es).value, data, both, n - 1);
    es := Extend(data, es, Event(0, TakeTicket));
    es := Extend(data, es, Event(0, PollTurn));
    if !both {
      es := Extend(data, es, Event(1, LoadNext));
    }
  }

  /**
   * With any positive multiple of 2^64 tickets issued while a try_lock stalls,
   * between its two loads or between the second load and its CAS, the CAS
   * succeeds although thread 0 holds the lock: the run, and its last event.
   */
  lemma StaleTryLockBreaksExclusion<V(!new)>(data: V, both: bool, k: nat) returns (es: seq<Event<V>>, e: Event<V>)
    requires k > 0
    ensures Exec(true, Init(data), es).Some?
    ensures var s := Exec(true, Init(data), es).value;
      && s.issued == k * TWO_TO_64 && Enabled(s, e) && e == Event(1, CompareExchange)
      && Holds(s, 0) && Holds(Next(true, s, e), 0) && Holds(Next(true, s, e), 1)
    ensures forall n: nat :: k * TWO_TO_64 <= n ==> !SafeWithin(data, n)
  {
    es := StaleCas(data, both, k * TWO_TO_64);
    e := Event(1, CompareExchange);
    assert !MutualExclusion(Next(true, Exec(true, Init(data), es).value, e));
  }

  /** The 64-bit lock is safe for exactly the runs that issue fewer than 2^64 tickets. */
  lemma SafeIffFewerThan2To64Tickets<V(!new)>(data: V, n: nat)
    ensures SafeWithin(data, n) <==> n < TWO_TO_64
  {
    if n < TWO_TO_64 {
      forall es: seq<Event<V>>, e: Event<V> |
        Exec(true, Init(data), es).Some? && Enabled(Exec(true, Init(data), es).value, e)
        && Exec(true, Init(data), es).value.issued <= n
        ensures MutualExclusion(Next(true, Exec(true, Init(data), es).value, e))
      {
        SafeBelow(data, es, e);
      }
    } else {
      var _, _ := StaleTryLockBreaksExclusion(data, false, 1);
    }
  }

  // -------------------------------------------------------------------------
  // How many waiters are too many, where nobody calls try_lock
  // -------------------------------------------------------------------------

  ghost predicate OnlyLocks<V>(es: seq<Event<V>>) {
    es != [] ==> OnlyLocks(es[..|es| - 1]) && !es[|es| - 1].a.LoadServing?
  }

  /** At every moment of the run at most n tickets are issued and not yet released. */
  ghost predicate OutstandingWithin<V>(data: V, es: seq<Event<V>>, n: nat) {
    && (es != [] ==> OutstandingWithin(data, es[..|es| - 1], n))
    && Exec(true, Init(data), es).Some?
    && Exec(true, Init(data), es).value.issued - Unlocks(es) <= n
  }

  ghost predicate LockSafeWithin<V(!new)>(data: V, n: nat) {
    forall es: seq<Event<V>> :: OnlyLocks(es) && OutstandingWithin(data, es, n) ==>
      MutualExclusion(Exec(true, Init(data), es).value)
  }

  lemma {:induction false} LocksNeverTry<V>(s: State<V>, es: seq<Event<V>>, t: Tid)
    requires OnlyLocks(es) && Exec(false, s, es).Some?
    requires !PcOf(s, t).TryServing? && !PcOf(s, t).TryCas?
    ensures var pc := PcOf(Exec(false, s, es).value, t); !pc.TryServing? && !pc.TryCas?
  {
    if es != [] {
      LocksNeverTry(s, es[..|es| - 1], t);
    }
  }

  lemma {:induction false} WaitersFit<V>(data: V, es: seq<Event<V>>)
    requires OnlyLocks(es) && OutstandingWithin(data, es, TWO_TO_64)
    ensures NeverFooled(data, es)
  {
    if es != [] {
      var before, e := es[..|es| - 1], es[|es| - 1];
      WaitersFit(data, before);
      WrappedRunRefines(data, before);
      InitInv(data);
      RunInv(data, Init(data), before);
      ServingCountsUnlocks(Init(data), before);
      LocksNeverTry(Init(data), before, e.t);
      var s := Exec(false, Init(data), before).value;
      StepRefines(s, e);
      assert LocalsOk(s.mem, PcOf(s, e.t));
      FitsIsNotFooled(s.mem, PcOf(s, e.t), e.a);
    }
  }

  /** Threads 0 to n-1 have taken a ticket each, and nobody has entered. */
  ghost predicate AllWait<V>(s: State<V>, data: V, n: nat) {
    && s.mem == Shared(Low64(n), 0, data) && s.issued == n
    && forall t: Tid :: PcOf(s, t) == if t < n then Waiting(Low64(t)) else Outside
  }

  lemma OneMoreWaiter<V>(s: State<V>, data: V, n: nat)
    requires AllWait(s, data, n)
    ensures Enabled(s, Event(n, TakeTicket)) && AllWait(Next(true, s, Event(n, TakeTicket)), data, n + 1)
  {
    assert PcOf(s, n) == Outside;
    BumpRefines(n);
    var s' := Next(true, s, Event(n, TakeTicket));
    forall t: Tid
      ensures PcOf(s', t) == if t < n + 1 then Waiting(Low64(t)) else Outside
    {
      assert PcOf(s, t) == if t < n then Waiting(Low64(t)) else Outside;
      assert PcOf(s', t) == if t == n then Waiting(Low64(n)) else PcOf(s, t);
    }
  }

  lemma {:induction false} ManyWaiters<V>(data: V, n: nat) returns (es: seq<Event<V>>)
    ensures OnlyLocks(es) && OutstandingWithin(data, es, n) && Unlocks(es) == 0
    ensures AllWait(Exec(true, Init(data), es).value, data, n)
  {
    if n == 0 {
      es := [];
    } else {
      var before := ManyWaiters(data, n - 1);
      OneMoreWaiter(Exec(true, Init(data), before).value, data, n - 1);
      es := Extend(data, before, Event(n - 1, TakeTicket));
      assert es[..|es| - 1] == before;
      StillWithin(data, before, n - 1, n);
    }
  }

  lemma {:induction false} StillWithin<V>(data: V, es: seq<Event<V>>, m: nat, n: nat)
    requires OutstandingWithin(data, es, m) && m <= n
    ensures OutstandingWithin(data, es, n)
  {
    if es != [] {
      StillWithin(data, es[..|es| - 1], m, n);
    }
  }

  /** With 2^64 + 1 waiters, the first and the last have the same 64-bit ticket, and both get in. */
  lemma TooManyWaitersBreakExclusion<V>(data: V) returns (es: seq<Event<V>>)
    ensures OnlyLocks(es) && OutstandingWithin(data, es, TWO_TO_64 + 1)
    ensures var s := Exec(true, Init(data), es).value; Holds(s, 0) && Holds(s, TWO_TO_64)
  {
    var wait := ManyWaiters(data, TWO_TO_64 + 1);
    var first := Extend(data, wait, Event(0, PollTurn));
    assert first[..|first| - 1] == wait;
    assert PcOf(Exec(true, Init(data), wait).value, TWO_TO_64) == Waiting(0);
    es := Extend(data, first, Event(TWO_TO_64, PollTurn));
    assert es[..|es| - 1] == first;
  }

  /** Without try_lock, the 64-bit lock is safe if and only if at most 2^64 tickets are ever outstanding. */
  lemma LockIsSafeIffAtMost2To64Outstanding<V(!new)>(data: V, n: nat)
    ensures LockSafeWithin(data, n) <==> n <= TWO_TO_64
  {
    if n <= TWO_TO_64 {
      forall es: seq<Event<V>> | OnlyLocks(es) && OutstandingWithin(data, es, n)
        ensures MutualExclusion(Exec(true, Init(data), es).value)
      {
        StillWithin(data, es, n, TWO_TO_64);
        WaitersFit(data, es);
        WrappedRunIsLinearised(data, es);
      }
    } else {
      var es := TooManyWaitersBreakExclusion(data);
      StillWithin(data, es, TWO_TO_64 + 1, n);
      assert Holds(Exec(true, Init(data), es).value, 0) && Holds(Exec(true, Init(data), es).value, TWO_TO_64);
    }
  }
}
