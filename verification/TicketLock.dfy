/**
 * TicketLock: a fair spinlock built on two counters.
 *
 * Every atomic access to the lock's memory is one action of one thread.  `Act`
 * is the effect of an action on the shared memory and on the acting thread's
 * locals; the class TicketLock performs the same actions on mutable fields, and
 * the machine interleaves the actions of any number of threads in any order.
 * All atomics are taken to be sequentially consistent.
 */
module TicketLocks {
  import opened Common

  type Tid = nat

  /** The lock's memory: both counters and the protected data. */
  datatype Shared<V> = Shared(next: nat, serving: nat, data: V)

  /** Where a thread is, and the values it carries in its locals. */
  datatype Pc<V> =
    | Outside
    | Waiting(ticket: nat)                     // lock: in the spin loop
    | TryServing(current: nat)                 // try_lock: now_serving loaded
    | TryCas(expected: nat)                    // try_lock: both loads agreed
    | Holding(ticket: nat, copy: Option<V>)    // owns the guard; copy: last value read through it

  datatype Action<!V> =
    | TakeTicket | PollTurn
    | LoadServing | LoadNext | CompareExchange
    | ReadData | WriteData(f: V -> V) | Unlock

  /** One fetch_add(1), either on unbounded numbers or wrapping at 64 bits. */
  function Bump(wraps: bool, x: nat): nat {
    if wraps && x == U64_MAX then 0 else x + 1
  }

  predicate CanAct<V>(pc: Pc<V>, a: Action<V>) {
    match a
    case TakeTicket => pc.Outside?
    case PollTurn => pc.Waiting?
    case LoadServing => pc.Outside?
    case LoadNext => pc.TryServing?
    case CompareExchange => pc.TryCas?
    case ReadData => pc.Holding?
    case WriteData(_) => pc.Holding? && pc.copy.Some?
    case Unlock => pc.Holding?
  }

  function Act<V>(wraps: bool, m: Shared<V>, pc: Pc<V>, a: Action<V>): (Shared<V>, Pc<V>)
    requires CanAct(pc, a)
  {
    match a
    case TakeTicket => (m.(next := Bump(wraps, m.next)), Waiting(m.next))
    case PollTurn => (m, if m.serving == pc.ticket then Holding(pc.ticket, None) else pc)
    case LoadServing => (m, TryServing(m.serving))
    case LoadNext => (m, if pc.current == m.next then TryCas(m.next) else Outside)
    case CompareExchange =>
      if m.next == pc.expected then
        (m.(next := Bump(wraps, m.next)), Holding(pc.expected, None))
      else
        (m, Outside)
    case ReadData => (m, pc.(copy := Some(m.data)))
    case WriteData(f) => (m.(data := f(pc.copy.value)), pc.(copy := None))
    case Unlock => (m.(serving := Bump(wraps, m.serving)), Outside)
  }

  type U64 = x: nat | x <= U64_MAX

  /** The lock itself: one method per atomic access of `lock`, `try_lock`, the guard and its drop. */
  class TicketLock<V> {
    var nextTicket: U64
    var nowServing: U64
    var data: V

    constructor (data: V)
      ensures View() == Shared(0, 0, data)
    {
      this.nextTicket, this.nowServing, this.data := 0, 0, data;
    }

    ghost function View(): Shared<V>
      reads this
    {
      Shared(nextTicket, nowServing, data)
    }

    method FetchAddNextTicket() returns (ticket: U64)
      modifies this`nextTicket
      ensures (View(), Waiting(ticket)) == Act(true, old(View()), Outside, TakeTicket)
      ensures ticket == old(nextTicket) && nextTicket == (old(nextTicket) + 1) % TWO_TO_64
    {
      ticket := nextTicket;
      nextTicket := if nextTicket == U64_MAX then 0 else nextTicket + 1;
    }

    method PollNowServing(ticket: U64) returns (entered: bool)
      ensures (View(), if entered then Holding(ticket, None) else Waiting(ticket))
           == Act(true, View(), Waiting(ticket), PollTurn)
      ensures entered <==> nowServing == ticket
    {
      entered := nowServing == ticket;
    }

    method TryLoadNowServing() returns (current: U64)
      ensures (View(), TryServing(current)) == Act(true, View(), Outside, LoadServing)
      ensures current == nowServing
    {
      current := nowServing;
    }

    method TryLoadNextTicket(current: U64) returns (next: Option<U64>)
      ensures (View(), if next.Some? then TryCas(next.value) else Outside)
           == Act(true, View(), TryServing(current), LoadNext)
      ensures next == if nextTicket == current then Some(current) else None
    {
      next := if current == nextTicket then Some(nextTicket) else None;
    }

    method TryCompareExchange(expected: U64) returns (taken: bool)
      modifies this`nextTicket
      ensures (View(), if taken then Holding(expected, None) else Outside)
           == Act(true, old(View()), TryCas(expected), CompareExchange)
      ensures taken <==> old(nextTicket) == expected
      ensures nextTicket == if taken then (old(nextTicket) + 1) % TWO_TO_64 else old(nextTicket)
    {
      taken := nextTicket == expected;
      if taken {
        nextTicket := if expected == U64_MAX then 0 else expected + 1;
      }
    }

    method DerefGuard(ghost ticket: nat, ghost copy: Option<V>) returns (value: V)
      ensures (View(), Holding(ticket, Some(value))) == Act(true, View(), Holding(ticket, copy), ReadData)
      ensures value == data
    {
      value := data;
    }

    method DerefMutGuard(ghost ticket: nat, copy: V, f: V -> V)
      modifies this`data
      ensures (View(), Holding(ticket, None))
           == Act(true, old(View()), Holding(ticket, Some(copy)), WriteData(f))
      ensures data == f(copy)
    {
      data := f(copy);
    }

    method DropGuard(ghost ticket: nat, ghost copy: Option<V>)
      modifies this`nowServing
      ensures (View(), Outside) == Act(true, old(View()), Holding(ticket, copy), Unlock)
      ensures nowServing == (old(nowServing) + 1) % TWO_TO_64
    {
      nowServing := if nowServing == U64_MAX then 0 else nowServing + 1;
    }
  }

  // -------------------------------------------------------------------------
  // The machine: any number of threads, one action at a time
  // -------------------------------------------------------------------------

  /** A write made under the guard for `ticket`. */
  datatype Update<!V> = Update(ticket: nat, f: V -> V)

  /**
   * `log` and `issued` are history: every completed write so far, in order, and
   * the number of tickets handed out so far.
   */
  datatype State<!V> = State(mem: Shared<V>, threads: map<Tid, Pc<V>>, log: seq<Update<V>>, issued: nat)

  datatype Event<!V> = Event(t: Tid, a: Action<V>)

  function Init<V>(data: V): State<V> {
    State(Shared(0, 0, data), map[], [], 0)
  }

  function PcOf<V>(s: State<V>, t: Tid): Pc<V> {
    if t in s.threads then s.threads[t] else Outside
  }

  predicate Enabled<V>(s: State<V>, e: Event<V>) {
    CanAct(PcOf(s, e.t), e.a)
  }

  function Next<V>(wraps: bool, s: State<V>, e: Event<V>): State<V>
    requires Enabled(s, e)
  {
    var pc := PcOf(s, e.t);
    var (mem, pc') := Act(wraps, s.mem, pc, e.a);
    State(mem,
          s.threads[e.t := pc'],
          if e.a.WriteData? then s.log + [Update(pc.ticket, e.a.f)] else s.log,
          if mem.next != s.mem.next then s.issued + 1 else s.issued)
  }

  /** The state a run of events leads to, if every event of it is possible. */
  function Exec<V>(wraps: bool, s: State<V>, es: seq<Event<V>>): Option<State<V>> {
    if es == [] then Some(s)
    else
      match Exec(wraps, s, es[..|es| - 1])
      case None => None
      case Some(u) =>
        if Enabled(u, es[|es| - 1]) then Some(Next(wraps, u, es[|es| - 1])) else None
  }

  function Unlocks<V>(es: seq<Event<V>>): nat {
    if es == [] then 0
    else Unlocks(es[..|es| - 1]) + if es[|es| - 1].a.Unlock? then 1 else 0
  }

  /** The writes of a run, each with the ticket of its critical section: the number of releases before it. */
  function WritesIn<V>(es: seq<Event<V>>): seq<Update<V>> {
    if es == [] then []
    else
      var before, last := es[..|es| - 1], es[|es| - 1];
      if last.a.WriteData? then WritesIn(before) + [Update(Unlocks(before), last.a.f)] else WritesIn(before)
  }

  /** The data after the logged writes are applied to `data` one whole write after another. */
  function Replay<V>(data: V, log: seq<Update<V>>): V {
    if log == [] then data
    else log[|log| - 1].f(Replay(data, log[..|log| - 1]))
  }

  predicate Owns<V>(s: State<V>, t: Tid, ticket: nat) {
    var pc := PcOf(s, t);
    (pc.Waiting? || pc.Holding?) && pc.ticket == ticket
  }

  ghost predicate Owned<V>(s: State<V>, ticket: nat) {
    exists t :: Owns(s, t, ticket)
  }

  predicate Outstanding<V>(s: State<V>, ticket: nat) {
    s.mem.serving <= ticket < s.mem.next
  }

  predicate Holds<V>(s: State<V>, t: Tid) {
    PcOf(s, t).Holding?
  }

  // -------------------------------------------------------------------------
  // The invariant of the unbounded machine
  // -------------------------------------------------------------------------

  /** What one thread's locals say about the shared memory, however stale they are. */
  predicate LocalsOk<V(==)>(m: Shared<V>, pc: Pc<V>) {
    match pc
    case Outside => true
    case Waiting(k) => m.serving <= k < m.next
    case TryServing(current) => current <= m.serving
    case TryCas(expected) => expected <= m.serving
    case Holding(k, copy) => k == m.serving < m.next && (copy.Some? ==> copy.value == m.data)
  }

  ghost predicate AllLocalsOk<V>(s: State<V>) {
    && s.mem.serving <= s.mem.next == s.issued
    && forall t :: LocalsOk(s.mem, PcOf(s, t))
  }

  /** Outstanding tickets are exactly [serving, next), each with exactly one owner. */
  ghost predicate TicketsOk<V>(s: State<V>) {
    && (forall t, u, k: nat :: Owns(s, t, k) && Owns(s, u, k) ==> t == u)
    && (forall k: nat :: Outstanding(s, k) ==> Owned(s, k))
  }

  ghost predicate LogOk<V>(init: V, s: State<V>) {
    && s.mem.data == Replay(init, s.log)
    && (forall i :: 0 <= i < |s.log| ==> s.log[i].ticket <= s.mem.serving)
    && (forall i, j :: 0 <= i < j < |s.log| ==> s.log[i].ticket <= s.log[j].ticket)
  }

  ghost predicate Inv<V>(init: V, s: State<V>) {
    AllLocalsOk(s) && TicketsOk(s) && LogOk(init, s)
  }

  lemma StepLocals<V>(s: State<V>, e: Event<V>)
    requires AllLocalsOk(s) && TicketsOk(s) && Enabled(s, e)
    ensures AllLocalsOk(Next(false, s, e))
  {
    var s' := Next(false, s, e);
    forall t
      ensures LocalsOk(s'.mem, PcOf(s', t))
    {
      assert LocalsOk(s.mem, PcOf(s, t)) && LocalsOk(s.mem, PcOf(s, e.t));
      if t != e.t && e.a.Unlock? && PcOf(s, t).Waiting? {
        assert Owns(s, t, PcOf(s, t).ticket) && Owns(s, e.t, s.mem.serving);
      }
      if t != e.t && e.a.WriteData? && PcOf(s, t).Holding? {
        assert Owns(s, t, s.mem.serving) && Owns(s, e.t, s.mem.serving);
      }
      if t != e.t && e.a.Unlock? && PcOf(s, t).Holding? {
        assert Owns(s, t, s.mem.serving) && Owns(s, e.t, s.mem.serving);
      }
    }
    assert LocalsOk(s.mem, PcOf(s, e.t));
  }

  lemma StepTickets<V>(s: State<V>, e: Event<V>)
    requires AllLocalsOk(s) && TicketsOk(s) && Enabled(s, e)
    ensures TicketsOk(Next(false, s, e))
  {
    var s' := Next(false, s, e);
    assert LocalsOk(s.mem, PcOf(s, e.t));
    forall t, k: nat | Owns(s', t, k)
      ensures Owns(s, t, k) || (t == e.t && k == s.mem.next)
    {
    }
    forall t, k: nat | Owns(s, t, k)
      ensures k < s.mem.next
    {
      assert LocalsOk(s.mem, PcOf(s, t));
    }
    forall k: nat | Outstanding(s', k)
      ensures Owned(s', k)
    {
      if k == s.mem.next {
        assert Owns(s', e.t, k);
      } else {
        assert Outstanding(s, k);
        var t :| Owns(s, t, k);
        assert Owns(s', t, k);
      }
    }
  }

  lemma StepLog<V>(init: V, s: State<V>, e: Event<V>)
    requires Inv(init, s) && Enabled(s, e)
    ensures LogOk(init, Next(false, s, e))
  {
    var s' := Next(false, s, e);
    assert LocalsOk(s.mem, PcOf(s, e.t));
    if e.a.WriteData? {
      assert s'.log[..|s'.log| - 1] == s.log;
    }
  }

  lemma StepInv<V>(init: V, s: State<V>, e: Event<V>)
    requires Inv(init, s) && Enabled(s, e)
    ensures Inv(init, Next(false, s, e))
  {
    StepLocals(s, e);
    StepTickets(s, e);
    StepLog(init, s, e);
  }

  /** The invariant survives every run. */
  lemma {:induction false} RunInv<V>(init: V, s: State<V>, es: seq<Event<V>>)
    requires Inv(init, s) && Exec(false, s, es).Some?
    ensures Inv(init, Exec(false, s, es).value)
  {
    if es == [] {
    } else {
      RunInv(init, s, es[..|es| - 1]);
      StepInv(init, Exec(false, s, es[..|es| - 1]).value, es[|es| - 1]);
    }
  }

  lemma InitInv<V>(init: V)
    ensures Inv(init, Init(init))
  {
  }

  /** now_serving counts releases. */
  lemma {:induction false} ServingCountsUnlocks<V>(s: State<V>, es: seq<Event<V>>)
    requires Exec(false, s, es).Some?
    ensures Exec(false, s, es).value.mem.serving == s.mem.serving + Unlocks(es)
  {
    if es != [] {
      ServingCountsUnlocks(s, es[..|es| - 1]);
    }
  }

  /** A write is logged under the ticket being served. */
  lemma WriteIsLogged<V>(s: State<V>, e: Event<V>)
    requires AllLocalsOk(s) && Enabled(s, e)
    ensures Next(false, s, e).log ==
      if e.a.WriteData? then s.log + [Update(s.mem.serving, e.a.f)] else s.log
  {
    assert LocalsOk(s.mem, PcOf(s, e.t));
  }

  /** The log is the run's writes, and each was made under the ticket then being served. */
  lemma {:induction false} LogIsTheRunsWrites<V>(init: V, es: seq<Event<V>>)
    requires Exec(false, Init(init), es).Some?
    ensures Exec(false, Init(init), es).value.log == WritesIn(es)
  {
    if es != [] {
      var before := es[..|es| - 1];
      LogIsTheRunsWrites(init, before);
      InitInv(init);
      RunInv(init, Init(init), before);
      ServingCountsUnlocks(Init(init), before);
      WriteIsLogged(Exec(false, Init(init), before).value, es[|es| - 1]);
    }
  }

  // -------------------------------------------------------------------------
  // Safety over every run
  // -------------------------------------------------------------------------

  ghost predicate MutualExclusion<V>(s: State<V>) {
    forall t, u :: Holds(s, t) && Holds(s, u) ==> t == u
  }

  lemma InvExcludes<V>(init: V, s: State<V>)
    requires Inv(init, s)
    ensures MutualExclusion(s)
  {
    forall t, u | Holds(s, t) && Holds(s, u)
      ensures t == u
    {
      assert LocalsOk(s.mem, PcOf(s, t)) && LocalsOk(s.mem, PcOf(s, u));
      assert Owns(s, t, s.mem.serving) && Owns(s, u, s.mem.serving);
    }
  }

  /**
   * Mutual exclusion, ticket discipline and linearisation for every interleaving
   * of `lock`, `try_lock`, reads, writes and drops by any number of threads.
   */
  lemma EveryRunIsLinearised<V>(init: V, es: seq<Event<V>>)
    requires Exec(false, Init(init), es).Some?
    ensures var s := Exec(false, Init(init), es).value;
      && MutualExclusion(s)
      && (forall k: nat :: Outstanding(s, k) <==> Owned(s, k))
      && (forall t, u, k: nat :: Owns(s, t, k) && Owns(s, u, k) ==> t == u)
      && s.mem.data == Replay(init, WritesIn(es)) && s.log == WritesIn(es)
      && (forall i, j :: 0 <= i < j < |s.log| ==> s.log[i].ticket <= s.log[j].ticket)
  {
    InitInv(init);
    RunInv(init, Init(init), es);
    LogIsTheRunsWrites(init, es);
    var s := Exec(false, Init(init), es).value;
    InvExcludes(init, s);
    forall t, k: nat | Owns(s, t, k)
      ensures Outstanding(s, k)
    {
      assert LocalsOk(s.mem, PcOf(s, t));
    }
  }

  /** A try_lock whose CAS succeeds took a lock nobody held, whatever its two loads saw and when. */
  lemma TryLockTakesOnlyAFreeLock<V>(init: V, es: seq<Event<V>>, t: Tid)
    requires Exec(false, Init(init), es).Some?
    requires var s := Exec(false, Init(init), es).value;
      PcOf(s, t).TryCas? && PcOf(s, t).expected == s.mem.next
    ensures var s := Exec(false, Init(init), es).value;
      s.mem.serving == s.mem.next && forall u, k: nat :: !Owns(s, u, k)
  {
    InitInv(init);
    RunInv(init, Init(init), es);
    var s := Exec(false, Init(init), es).value;
    assert LocalsOk(s.mem, PcOf(s, t));
    forall u, k
      ensures !Owns(s, u, k)
    {
      assert LocalsOk(s.mem, PcOf(s, u));
    }
  }

  /** A read followed by a write under the guard stores the function of the data, and logs it. */
  lemma GuardUpdatesData<V>(s: State<V>, t: Tid, f: V -> V)
    requires Holds(s, t)
    ensures Enabled(s, Event(t, ReadData)) && Enabled(Next(false, s, Event(t, ReadData)), Event(t, WriteData(f)))
    ensures var s' := Next(false, Next(false, s, Event(t, ReadData)), Event(t, WriteData(f)));
      && s'.mem == s.mem.(data := f(s.mem.data)) && Holds(s', t)
      && s'.log == s.log + [Update(PcOf(s, t).ticket, f)]
  {
  }

  // -------------------------------------------------------------------------
  // When try_lock succeeds
  // -------------------------------------------------------------------------

  predicate Free<V>(s: State<V>) {
    s.mem.serving == s.mem.next
  }

  /** What becomes of a try_lock by t that nobody interrupts. */
  ghost predicate TryOutcome<V>(wraps: bool, s: State<V>, s': State<V>, t: Tid) {
    if Free(s) then PcOf(s', t) == Holding(s.mem.next, None) && s'.mem == s.mem.(next := Bump(wraps, s.mem.next))
    else PcOf(s', t) == Outside && s'.mem == s.mem
  }

  /** Uninterrupted, try_lock takes the lock if and only if it is free, and otherwise changes nothing. */
  lemma TryLockAloneTakesIffFree<V>(wraps: bool, s: State<V>, t: Tid) returns (es: seq<Event<V>>)
    requires PcOf(s, t) == Outside
    ensures es == [Event(t, LoadServing), Event(t, LoadNext)] + if Free(s) then [Event(t, CompareExchange)] else []
    ensures Exec(wraps, s, es).Some? && TryOutcome(wraps, s, Exec(wraps, s, es).value, t)
    ensures forall u :: u != t ==> PcOf(Exec(wraps, s, es).value, u) == PcOf(s, u)
  {
    es := [Event(t, LoadServing)];
    assert es[..0] == [];
    var s1 := Next(wraps, s, es[0]);
    assert Exec(wraps, s, es) == Some(s1);
    var both := es + [Event(t, LoadNext)];
    assert both[..1] == es;
    var s2 := Next(wraps, s1, Event(t, LoadNext));
    assert Exec(wraps, s, both) == Some(s2);
    es := both;
    if Free(s) {
      es := both + [Event(t, CompareExchange)];
      assert es[..2] == both;
      assert Exec(wraps, s, es) == Some(Next(wraps, s2, Event(t, CompareExchange)));
    }
  }

  /** A run that begins with t's first load and throughout which t is still trying. */
  ghost predicate Trying<V>(wraps: bool, s: State<V>, es: seq<Event<V>>, t: Tid) {
    && Exec(wraps, s, es).Some? && es != []
    && if |es| == 1 then es[0] == Event(t, LoadServing)
       else
         && Trying(wraps, s, es[..|es| - 1], t)
         && (PcOf(Exec(wraps, s, es).value, t).TryServing? || PcOf(Exec(wraps, s, es).value, t).TryCas?)
  }

  /** The call has just come back without the lock. */
  ghost predicate FailedTry<V>(wraps: bool, s: State<V>, es: seq<Event<V>>, t: Tid) {
    && Exec(wraps, s, es).Some? && es != [] && Trying(wraps, s, es[..|es| - 1], t)
    && PcOf(Exec(wraps, s, es).value, t) == Outside
  }

  /** After n events of the run the lock is free, with no ticket issued since the run began. */
  ghost predicate CalmAt<V>(wraps: bool, s: State<V>, es: seq<Event<V>>, n: nat)
    requires n <= |es| && Exec(wraps, s, es[..n]).Some?
  {
    Free(Exec(wraps, s, es[..n]).value) && Exec(wraps, s, es[..n]).value.mem.next == s.mem.next
  }

  lemma {:induction false} PrefixRuns<V>(wraps: bool, s: State<V>, es: seq<Event<V>>, n: nat)
    requires Exec(wraps, s, es).Some? && n <= |es|
    ensures Exec(wraps, s, es[..n]).Some?
    decreases |es|
  {
    if n < |es| {
      PrefixRuns(wraps, s, es[..|es| - 1], n);
      assert es[..|es| - 1][..n] == es[..n];
    } else {
      assert es[..n] == es;
    }
  }

  /** What t has loaded is the counter's value k. */
  predicate Sees<V>(s: State<V>, t: Tid, k: nat) {
    match PcOf(s, t)
    case TryServing(current) => current == k
    case TryCas(expected) => expected == k
    case _ => false
  }

  /** From a free lock with an up-to-date value, the try goes on or takes the lock. */
  lemma CalmStep<V>(wraps: bool, s: State<V>, e: Event<V>, t: Tid)
    requires Enabled(s, e) && Free(s) && Sees(s, t, s.mem.next)
    ensures Sees(Next(wraps, s, e), t, s.mem.next) || Holds(Next(wraps, s, e), t)
  {
  }

  /** While the run is calm, what t has loaded is the counter. */
  lemma {:induction false} CalmTrySeesTheCounter<V>(wraps: bool, s: State<V>, es: seq<Event<V>>, t: Tid)
      returns (n: nat)
    requires Trying(wraps, s, es, t)
    ensures n <= |es| && Exec(wraps, s, es[..n]).Some?
    ensures !CalmAt(wraps, s, es, n) || Sees(Exec(wraps, s, es).value, t, s.mem.next)
  {
    var before := es[..|es| - 1];
    assert es[..|es|] == es;
    if |es| == 1 {
      n := 0;
      assert es[..0] == [];
    } else {
      n := CalmTrySeesTheCounter(wraps, s, before, t);
      assert es[..n] == before[..n];
      if CalmAt(wraps, s, es, n) {
        n := |es| - 1;
        if CalmAt(wraps, s, es, n) {
          CalmStep(wraps, Exec(wraps, s, before).value, es[|es| - 1], t);
        }
      }
    }
  }

  /**
   * However a try_lock is interleaved with other threads, if it fails then at some
   * moment of the call the lock was not free or a ticket had been issued since its start.
   */
  lemma FailedTryWasDisturbed<V>(wraps: bool, s: State<V>, es: seq<Event<V>>, t: Tid) returns (n: nat)
    requires FailedTry(wraps, s, es, t)
    ensures n < |es| && Exec(wraps, s, es[..n]).Some? && !CalmAt(wraps, s, es, n)
  {
    var before := es[..|es| - 1];
    n := CalmTrySeesTheCounter(wraps, s, before, t);
    assert es[..n] == before[..n];
    if CalmAt(wraps, s, es, n) {
      n := |es| - 1;
      if CalmAt(wraps, s, es, n) {
        CalmStep(wraps, Exec(wraps, s, before).value, es[|es| - 1], t);
      }
    }
  }

  // -------------------------------------------------------------------------
  // First in, first out
  // -------------------------------------------------------------------------

  /** A waiter with ticket k gets in after exactly k - now_serving more releases: no more, no fewer. */
  lemma EntersAfterExactly<V>(init: V, s: State<V>, es: seq<Event<V>>, t: Tid, k: nat)
    requires Inv(init, s) && PcOf(s, t) == Waiting(k)
    requires Exec(false, s, es).Some?
    requires Holds(Exec(false, s, es).value, t) && Owns(Exec(false, s, es).value, t, k)
    ensures Unlocks(es) == k - s.mem.serving
  {
    RunInv(init, s, es);
    ServingCountsUnlocks(s, es);
    assert LocalsOk(Exec(false, s, es).value.mem, PcOf(Exec(false, s, es).value, t));
  }

  lemma StepKeepsOwners<V>(s: State<V>, e: Event<V>, u: Tid, j: nat)
    requires Enabled(s, e) && LocalsOk(s.mem, PcOf(s, u))
    requires j < s.mem.next && Owns(Next(false, s, e), u, j)
    ensures Owns(s, u, j)
  {
  }

  /** Tickets below the old counter still belong to whoever owned them before the run. */
  lemma {:induction false} OldTicketsKeepOwners<V>(init: V, s: State<V>, es: seq<Event<V>>, u: Tid, j: nat)
    requires Inv(init, s) && Exec(false, s, es).Some?
    requires j < s.mem.next && Owns(Exec(false, s, es).value, u, j)
    ensures Owns(s, u, j) && s.mem.next <= Exec(false, s, es).value.mem.next
  {
    if es != [] {
      var before := es[..|es| - 1];
      var mid := Exec(false, s, before).value;
      RunInv(init, s, before);
      NextNeverDrops(s, before);
      assert LocalsOk(mid.mem, PcOf(mid, u));
      StepKeepsOwners(mid, es[|es| - 1], u, j);
      OldTicketsKeepOwners(init, s, before, u, j);
    }
  }

  lemma {:induction false} NextNeverDrops<V>(s: State<V>, es: seq<Event<V>>)
    requires Exec(false, s, es).Some?
    ensures s.mem.next <= Exec(false, s, es).value.mem.next
  {
    if es != [] {
      NextNeverDrops(s, es[..|es| - 1]);
    }
  }

  /** While t waits, no thread that had no ticket when t already had one can get in first. */
  lemma NobodyOvertakes<V>(init: V, s: State<V>, es: seq<Event<V>>, t: Tid, k: nat, u: Tid)
    requires Inv(init, s) && Exec(false, s, es).Some?
    requires PcOf(s, t) == Waiting(k) && PcOf(Exec(false, s, es).value, t) == Waiting(k)
    requires forall j: nat :: !Owns(s, u, j)
    ensures !Holds(Exec(false, s, es).value, u)
  {
    var s' := Exec(false, s, es).value;
    RunInv(init, s, es);
    assert LocalsOk(s.mem, PcOf(s, t)) && LocalsOk(s'.mem, PcOf(s', t)) && LocalsOk(s'.mem, PcOf(s', u));
    if Holds(s', u) {
      assert Owns(s', u, s'.mem.serving) && Owns(s', t, k);
      OldTicketsKeepOwners(init, s, es, u, s'.mem.serving);
      assert false;
    }
  }

  /** Who must act next for the queue of tickets to move: the owner of the ticket being served. */
  lemma Server<V>(init: V, s: State<V>, t: Tid, k: nat) returns (u: Tid, e: Event<V>)
    requires Inv(init, s) && PcOf(s, t) == Waiting(k)
    ensures Owns(s, u, s.mem.serving) && (u == t <==> k == s.mem.serving)
    ensures e == Event(u, if Holds(s, u) then Unlock else PollTurn) && Enabled(s, e)
    ensures Holds(s, u) ==> Next(false, s, e).mem.serving == s.mem.serving + 1
    ensures !Holds(s, u) ==>
      Next(false, s, e).mem == s.mem && PcOf(Next(false, s, e), u) == Holding(s.mem.serving, None)
    ensures u != t ==> PcOf(Next(false, s, e), t) == Waiting(k)
  {
    assert LocalsOk(s.mem, PcOf(s, t));
    assert Outstanding(s, s.mem.serving);
    u :| Owns(s, u, s.mem.serving);
    e := Event(u, if Holds(s, u) then Unlock else PollTurn);
    assert Owns(s, t, k);
  }

  /** How far the queue of tickets is from serving ticket k, in actions. */
  ghost function Distance<V>(s: State<V>, k: nat): int {
    2 * (k - s.mem.serving) + if exists u :: Owns(s, u, s.mem.serving) && Holds(s, u) then 0 else 1
  }

  lemma ServingShortensDistance<V>(init: V, s: State<V>, t: Tid, k: nat) returns (u: Tid, e: Event<V>)
    requires Inv(init, s) && PcOf(s, t) == Waiting(k)
    ensures Enabled(s, e) && e.t == u
    ensures u == t ==> PcOf(Next(false, s, e), t) == Holding(k, None)
    ensures u != t ==> PcOf(Next(false, s, e), t) == Waiting(k)
    ensures u != t ==> 0 <= Distance(Next(false, s, e), k) < Distance(s, k)
  {
    u, e := Server(init, s, t, k);
    var s' := Next(false, s, e);
    if u != t {
      StepInv(init, s, e);
      assert LocalsOk(s'.mem, PcOf(s', t));
      if !Holds(s, u) {
        assert Owns(s', u, s.mem.serving) && Holds(s', u);
        forall w
          ensures !(Owns(s, w, s.mem.serving) && Holds(s, w))
        {
          assert Owns(s, w, s.mem.serving) ==> w == u;
        }
      } else {
        assert Owns(s, u, s.mem.serving) && Holds(s, u);
      }
    }
  }

  lemma ExecAppend<V>(s: State<V>, es: seq<Event<V>>, e: Event<V>)
    requires Exec(false, s, es).Some? && Enabled(Exec(false, s, es).value, e)
    ensures Exec(false, s, es + [e]) == Some(Next(false, Exec(false, s, es).value, e))
  {
    assert (es + [e])[..|es + [e]| - 1] == es;
  }

  lemma {:induction false} WaiterEnters<V>(init: V, s: State<V>, es: seq<Event<V>>, t: Tid, k: nat)
      returns (full: seq<Event<V>>)
    requires Inv(init, s) && Exec(false, s, es).Some?
    requires PcOf(Exec(false, s, es).value, t) == Waiting(k)
    ensures es <= full && Exec(false, s, full).Some?
    ensures PcOf(Exec(false, s, full).value, t) == Holding(k, None)
    decreases Distance(Exec(false, s, es).value, k)
  {
    RunInv(init, s, es);
    var u, e := ServingShortensDistance(init, Exec(false, s, es).value, t, k);
    ExecAppend(s, es, e);
    full := es + [e];
    if u != t {
      full := WaiterEnters(init, s, full, t, k);
    }
  }

  /**
   * No waiter is ever stuck: from every state a run reaches, the owners of the
   * tickets ahead can be served one after another until the waiter is in, after
   * one release for each of them.
   */
  lemma EveryWaiterCanEnter<V>(init: V, s: State<V>, es: seq<Event<V>>, t: Tid, k: nat)
      returns (full: seq<Event<V>>)
    requires Inv(init, s) && Exec(false, s, es).Some?
    requires PcOf(Exec(false, s, es).value, t) == Waiting(k)
    ensures es <= full && Exec(false, s, full).Some?
    ensures PcOf(Exec(false, s, full).value, t) == Holding(k, None)
    ensures Unlocks(full) - Unlocks(es) == k - Exec(false, s, es).value.mem.serving
  {
    full := WaiterEnters(init, s, es, t, k);
    RunInv(init, s, full);
    ServingCountsUnlocks(s, es);
    ServingCountsUnlocks(s, full);
    var s' := Exec(false, s, full).value;
    assert LocalsOk(s'.mem, PcOf(s', t));
  }
}
