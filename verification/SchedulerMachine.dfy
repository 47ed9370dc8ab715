/**
 * The scheduler under concurrency.  Any number of agents (cores, or contexts on
 * them) call spawn, spawn_on_core, wake, preempt_current and schedule at once; one
 * step is one lock acquisition, one change of a queue, one access of a `len`
 * counter, one release, or one reading of a counter in a scan.
 *
 * A queue carries its history: `ops` in lock-acquisition order, and the `answers`
 * given to the operations that have released the lock.  `owner` is the lock word,
 * with the identity of whoever set it.
 */
module SchedulerMachine {
  import opened Common
  import opened Pools
  import opened RunQueues

  type TaskId = nat

  // -------------------------------------------------------------------------
  // One atomic deque
  // -------------------------------------------------------------------------

  datatype QueueOp = PushOp(task: TaskId) | PopOp | StealOp

  datatype Answer = Pushed | Popped(task: Option<TaskId>) | Took(tasks: seq<TaskId>)

  function Apply(q: seq<TaskId>, op: QueueOp): seq<TaskId> {
    match op
    case PushOp(t) => q + [t]
    case PopOp => if q == [] then q else q[1..]
    case StealOp => LeftBehind(q)
  }

  function AnswerTo(q: seq<TaskId>, op: QueueOp): Answer {
    match op
    case PushOp(_) => Pushed
    case PopOp => Popped(if q == [] then None else Some(q[0]))
    case StealOp => Took(Stolen(q))
  }

  /** The deque after the operations, one at a time, from empty. */
  function Replay(ops: seq<QueueOp>): seq<TaskId> {
    if ops == [] then [] else Apply(Replay(ops[..|ops| - 1]), ops[|ops| - 1])
  }

  // -------------------------------------------------------------------------
  // Agents
  // -------------------------------------------------------------------------

  /** What a push returns to: the end of the call, or the rest of a steal. */
  datatype Then = Finish | Requeue(first: TaskId, rest: seq<TaskId>)

  datatype Pc =
    | Idle
    // least_loaded_core: about to read queue i's counter
    | SpawnScan(task: TaskId, i: nat, minLoad: int, minCore: nat)
    // push
    | WantPush(core: nat, task: TaskId, then_: Then)
    | HasPush(core: nat, task: TaskId, then_: Then)   // lock held
    | DidPush(core: nat, then_: Then)                 // pushed, counter not yet raised
    | EndPush(core: nat, then_: Then)                 // about to release
    // pop
    | WantPop(core: nat)
    | HasPop(core: nat)
    | DidPop(core: nat, task: TaskId)                 // popped, counter not yet lowered
    | EndPop(core: nat, result: Option<TaskId>)
    // busiest_core: about to read queue i's counter
    | VictimScan(core: nat, i: nat, maxLoad: int, maxCore: Option<nat>)
    // steal_half
    | WantSteal(core: nat, victim: nat)
    | HasSteal(core: nat, victim: nat)
    | Stealing(core: nat, victim: nat, left: nat, stolen: seq<TaskId>)
    | EndSteal(core: nat, victim: nat, stolen: seq<TaskId>)

  datatype Queue = Queue(tasks: seq<TaskId>, len: int, owner: Option<nat>, ops: seq<QueueOp>, answers: seq<Answer>)

  /** The tasks an agent carries. */
  function Buffer(pc: Pc): seq<TaskId> {
    match pc
    case SpawnScan(t, _, _, _) => [t]
    case WantPush(_, t, th) => [t] + Carried(th)
    case HasPush(_, t, th) => [t] + Carried(th)
    case DidPush(_, th) => Carried(th)
    case EndPush(_, th) => Carried(th)
    case DidPop(_, t) => [t]
    case EndPop(_, r) => if r.Some? then [r.value] else []
    case Stealing(_, _, _, stolen) => stolen
    case EndSteal(_, _, stolen) => stolen
    case _ => []
  }

  function Carried(th: Then): seq<TaskId> {
    match th
    case Finish => []
    case Requeue(first, rest) => [first] + rest
  }

  /** The queue an agent's next step reads or writes. */
  function Target(pc: Pc): nat
    requires !pc.Idle?
  {
    match pc
    case SpawnScan(_, i, _, _) => i
    case VictimScan(_, i, _, _) => i
    case WantSteal(_, v) => v
    case HasSteal(_, v) => v
    case Stealing(_, v, _, _) => v
    case EndSteal(_, v, _) => v
    case WantPush(c, _, _) => c
    case HasPush(c, _, _) => c
    case DidPush(c, _) => c
    case EndPush(c, _) => c
    case WantPop(c) => c
    case HasPop(c) => c
    case DidPop(c, _) => c
    case EndPop(c, _) => c
  }

  /** The queue whose lock the agent holds: never more than one. */
  function Holds(pc: Pc): Option<nat> {
    if pc.HasPush? || pc.DidPush? || pc.EndPush? || pc.HasPop? || pc.DidPop? || pc.EndPop? then Some(pc.core)
    else if pc.HasSteal? || pc.Stealing? || pc.EndSteal? then Some(pc.victim)
    else None
  }

  predicate WantsLock(pc: Pc) {
    pc.WantPush? || pc.WantPop? || pc.WantSteal?
  }

  predicate InRange(pc: Pc, n: nat) {
    && (!pc.Idle? ==> Target(pc) < n)
    && (pc.SpawnScan? ==> pc.minCore < n)
    && (pc.VictimScan? || pc.HasSteal? || pc.Stealing? || pc.EndSteal? || pc.WantSteal? ==> pc.core < n)
    && (pc.VictimScan? && pc.maxCore.Some? ==> pc.maxCore.value < n && pc.maxCore.value != pc.core)
    && (pc.HasSteal? || pc.Stealing? || pc.EndSteal? || pc.WantSteal? ==> pc.victim != pc.core)
  }

  function Acquire(q: Queue, me: nat, op: QueueOp): Queue {
    q.(owner := Some(me), ops := q.ops + [op])
  }

  function Release(q: Queue, answer: Answer): Queue {
    q.(owner := None, answers := q.answers + [answer])
  }

  /** After a push: done, or the next stolen task, or the first one handed to the caller. */
  function Continue(core: nat, th: Then): (Pc, Option<TaskId>) {
    match th
    case Finish => (Idle, None)
    case Requeue(first, rest) =>
      if rest == [] then (Idle, Some(first))
      else (WantPush(core, rest[0], Requeue(first, rest[1..])), None)
  }

  /** After a steal: nothing, or the first task kept for the caller and the others pushed. */
  function Settle(core: nat, stolen: seq<TaskId>): (Pc, Option<TaskId>) {
    if stolen == [] then (Idle, None) else Continue(core, Requeue(stolen[0], stolen[1..]))
  }

  /** One step of agent `me` on its target queue: its next position, the queue, and any task it returns. */
  function Act(me: nat, n: nat, pc: Pc, q: Queue): (Pc, Queue, Option<TaskId>)
    requires !pc.Idle?
  {
    match pc
    case SpawnScan(t, i, minLoad, minCore) =>
      var load := if q.len < minLoad then q.len else minLoad;
      var core := if q.len < minLoad then i else minCore;
      (if i + 1 == n then WantPush(core, t, Finish) else SpawnScan(t, i + 1, load, core), q, None)
    case WantPush(c, t, th) => (HasPush(c, t, th), Acquire(q, me, PushOp(t)), None)
    case HasPush(c, t, th) => (DidPush(c, th), q.(tasks := q.tasks + [t]), None)
    case DidPush(c, th) => (EndPush(c, th), q.(len := q.len + 1), None)
    case EndPush(c, th) =>
      var (next, out) := Continue(c, th);
      (next, Release(q, Pushed), out)
    case WantPop(c) => (HasPop(c), Acquire(q, me, PopOp), None)
    case HasPop(c) =>
      if q.tasks == [] then (EndPop(c, None), q, None)
      else (DidPop(c, q.tasks[0]), q.(tasks := q.tasks[1..]), None)
    case DidPop(c, t) => (EndPop(c, Some(t)), q.(len := q.len - 1), None)
    case EndPop(c, r) =>
      (if r.Some? then Idle else VictimScan(c, 0, 1, None), Release(q, Popped(r)), r)
    case VictimScan(c, i, maxLoad, maxCore) =>
      var better := i != c && q.len > maxLoad;
      var load := if better then q.len else maxLoad;
      var core := if better then Some(i) else maxCore;
      var next :=
        if i + 1 < n then VictimScan(c, i + 1, load, core)
        else if core.Some? then WantSteal(c, core.value)
        else Idle;
      (next, q, None)
    case WantSteal(c, v) => (HasSteal(c, v), Acquire(q, me, StealOp), None)
    case HasSteal(c, v) =>
      var count := |q.tasks| / 2;
      (if count == 0 then EndSteal(c, v, []) else Stealing(c, v, count, []), q, None)
    case Stealing(c, v, left, stolen) =>
      if left == 0 then (EndSteal(c, v, stolen), q.(len := q.len - |stolen|), None)
      else if q.tasks == [] then (Stealing(c, v, left - 1, stolen), q, None)
      else
        (Stealing(c, v, left - 1, stolen + [q.tasks[|q.tasks| - 1]]), q.(tasks := q.tasks[..|q.tasks| - 1]), None)
    case EndSteal(c, v, stolen) =>
      var (next, out) := Settle(c, stolen);
      (next, Release(q, Took(stolen)), out)
  }

  // -------------------------------------------------------------------------
  // The machine
  // -------------------------------------------------------------------------

  /** `created`: every task ever submitted; `handed`: those now with the callers of schedule. */
  datatype State = State(queues: seq<Queue>, agents: seq<Pc>, created: multiset<TaskId>, handed: multiset<TaskId>)

  /** A call: the placing calls take a fresh task, or one a caller of schedule was handed before. */
  datatype Job =
    | Spawn(task: TaskId)
    | PushOn(core: nat, task: TaskId)    // pinned spawn, spawn_on_core, wake, preempt_current
    | Schedule(core: nat)

  datatype Event =
    | Begin(a: nat, job: Job)
    | Step(a: nat)
    | Spin(a: nat)                       // a failed or spurious compare-exchange

  function Init(cores: nat, agents: nat): State {
    State(seq(cores, _ => Queue([], 0, None, [], [])), seq(agents, _ => Idle), multiset{}, multiset{})
  }

  predicate CanStep(s: State, a: nat) {
    && a < |s.agents| && !s.agents[a].Idle? && Target(s.agents[a]) < |s.queues|
    && (WantsLock(s.agents[a]) ==> s.queues[Target(s.agents[a])].owner.None?)
  }

  predicate Enabled(s: State, e: Event) {
    match e
    case Begin(a, job) =>
      && a < |s.agents| && s.agents[a].Idle?
      && (match job
          case Spawn(t) => 0 < |s.queues| && (t in s.created ==> t in s.handed)
          case PushOn(c, t) => c < |s.queues| && (t in s.created ==> t in s.handed)
          case Schedule(c) => c < |s.queues|)
    case Step(a) => CanStep(s, a)
    case Spin(a) => a < |s.agents| && WantsLock(s.agents[a])
  }

  function Entry(job: Job): Pc {
    match job
    case Spawn(t) => SpawnScan(t, 0, U64_MAX, 0)
    case PushOn(c, t) => WantPush(c, t, Finish)
    case Schedule(c) => WantPop(c)
  }

  function Submit(s: State, t: TaskId): State {
    if t in s.created then s.(handed := s.handed - multiset{t})
    else s.(created := s.created + multiset{t})
  }

  ghost function Next(s: State, e: Event): State
    requires Enabled(s, e)
  {
    match e
    case Begin(a, job) =>
      var s' := if job.Schedule? then s else Submit(s, job.task);
      s'.(agents := s.agents[a := Entry(job)])
    case Step(a) =>
      var k := Target(s.agents[a]);
      var (pc, q, out) := Act(a, |s.queues|, s.agents[a], s.queues[k]);
      State(s.queues[k := q], s.agents[a := pc], s.created, s.handed + Bag(out))
    case Spin(_) => s
  }

  ghost function Exec(s: State, es: seq<Event>): Option<State> {
    if es == [] then Some(s)
    else
      match Exec(s, es[..|es| - 1])
      case None => None
      case Some(u) =>
        if Enabled(u, es[|es| - 1]) then Some(Next(u, es[|es| - 1])) else None
  }

  // -------------------------------------------------------------------------
  // The invariant
  // -------------------------------------------------------------------------

  /** Every answer given so far is the atomic deque's. */
  ghost predicate AnswersOk(q: Queue) {
    && |q.answers| <= |q.ops|
    && forall i :: 0 <= i < |q.answers| ==> q.answers[i] == AnswerTo(Replay(q.ops[..i]), q.ops[i])
  }

  ghost predicate FreeOk(q: Queue) {
    q.len == |q.tasks| && q.tasks == Replay(q.ops) && |q.answers| == |q.ops|
  }

  /** How far the counter is ahead of the queue while the holder is between its two writes. */
  function Pending(pc: Pc): int {
    match pc
    case DidPush(_, _) => -1
    case DidPop(_, _) => 1
    case Stealing(_, _, _, stolen) => |stolen|
    case _ => 0
  }

  /** Part of the half has been taken, newest first, and `left` more are to go. */
  ghost predicate Halfway(before: seq<TaskId>, tasks: seq<TaskId>, left: nat, stolen: seq<TaskId>) {
    && |stolen| + left == StealCount(|before|)
    && tasks == before[..|before| - |stolen|]
    && stolen == Reversed(before[|before| - |stolen|..])
  }

  /** A locked queue: the deque before the holder's operation, and how far the holder has got. */
  ghost predicate BusyOk(q: Queue, pc: Pc) {
    && |q.ops| == |q.answers| + 1
    && q.len == |q.tasks| + Pending(pc)
    && var before, op := Replay(q.ops[..|q.ops| - 1]), q.ops[|q.ops| - 1];
       match pc
       case HasPush(_, t, _) => op == PushOp(t) && q.tasks == before
       case DidPush(_, _) => op.PushOp? && q.tasks == Apply(before, op)
       case EndPush(_, _) => op.PushOp? && q.tasks == Apply(before, op)
       case HasPop(_) => op == PopOp && q.tasks == before
       case DidPop(_, t) => op == PopOp && q.tasks == Apply(before, op) && Popped(Some(t)) == AnswerTo(before, op)
       case EndPop(_, r) => op == PopOp && q.tasks == Apply(before, op) && Popped(r) == AnswerTo(before, op)
       case HasSteal(_, _) => op == StealOp && q.tasks == before
       case Stealing(_, _, left, stolen) => op == StealOp && Halfway(before, q.tasks, left, stolen)
       case EndSteal(_, _, stolen) =>
         op == StealOp && q.tasks == Apply(before, op) && Took(stolen) == AnswerTo(before, op)
       case _ => false
  }

  ghost predicate QueueOk(s: State, k: nat)
    requires k < |s.queues|
  {
    var q := s.queues[k];
    && AnswersOk(q)
    && match q.owner
       case None => FreeOk(q)
       case Some(a) => a < |s.agents| && Holds(s.agents[a]) == Some(k) && BusyOk(q, s.agents[a])
  }

  ghost predicate AgentOk(s: State, a: nat)
    requires a < |s.agents|
  {
    var pc := s.agents[a];
    && InRange(pc, |s.queues|)
    && (Holds(pc).Some? ==> Holds(pc).value < |s.queues| && s.queues[Holds(pc).value].owner == Some(a))
  }

  ghost predicate LocksOk(s: State) {
    && (forall k :: 0 <= k < |s.queues| ==> QueueOk(s, k))
    && (forall a :: 0 <= a < |s.agents| ==> AgentOk(s, a))
  }

  lemma ReplayAppend(ops: seq<QueueOp>, op: QueueOp)
    ensures Replay(ops + [op]) == Apply(Replay(ops), op)
    ensures (ops + [op])[..|ops + [op]| - 1] == ops
  {
    assert (ops + [op])[..|ops + [op]| - 1] == ops;
  }

  lemma AcquireOk(q: Queue, me: nat, op: QueueOp)
    requires AnswersOk(q) && FreeOk(q)
    ensures var q' := Acquire(q, me, op);
      && AnswersOk(q') && |q'.ops| == |q'.answers| + 1 && q'.len == |q'.tasks|
      && q'.ops[..|q'.ops| - 1] == q.ops && q'.ops[|q'.ops| - 1] == op && q'.tasks == Replay(q.ops)
  {
    var q' := Acquire(q, me, op);
    forall i | 0 <= i < |q.ops|
      ensures q'.ops[..i] == q.ops[..i]
    {
    }
    ReplayAppend(q.ops, op);
  }

  lemma ReleaseOk(q: Queue, answer: Answer)
    requires AnswersOk(q) && |q.ops| == |q.answers| + 1 && q.len == |q.tasks|
    requires var before, op := Replay(q.ops[..|q.ops| - 1]), q.ops[|q.ops| - 1];
      q.tasks == Apply(before, op) && answer == AnswerTo(before, op)
    ensures AnswersOk(Release(q, answer)) && FreeOk(Release(q, answer))
  {
    var q' := Release(q, answer);
    assert q'.tasks == Replay(q'.ops);
    forall i | 0 <= i < |q'.answers|
      ensures q'.answers[i] == AnswerTo(Replay(q'.ops[..i]), q'.ops[i])
    {
      assert i < |q.answers| ==> q'.answers[i] == q.answers[i];
    }
  }

  /** What a holder's step must leave behind: still holding, or released in order. */
  ghost predicate HandsOver(me: nat, pc: Pc, pc': Pc, q': Queue) {
    && AnswersOk(q')
    && if Holds(pc').Some? then Holds(pc') == Holds(pc) && q'.owner == Some(me) && BusyOk(q', pc')
       else q'.owner == None && FreeOk(q')
  }

  ghost predicate Holding(me: nat, pc: Pc, q: Queue) {
    Holds(pc).Some? && AnswersOk(q) && BusyOk(q, pc) && q.owner == Some(me)
  }

  lemma PushStep(me: nat, n: nat, pc: Pc, q: Queue)
    requires Holding(me, pc, q) && (pc.HasPush? || pc.DidPush? || pc.EndPush?)
    ensures HandsOver(me, pc, Act(me, n, pc, q).0, Act(me, n, pc, q).1)
  {
    if pc.EndPush? {
      ReleaseOk(q, Pushed);
    }
  }

  lemma PopFrontStep(me: nat, n: nat, pc: Pc, q: Queue)
    requires Holding(me, pc, q) && pc.HasPop?
    ensures HandsOver(me, pc, Act(me, n, pc, q).0, Act(me, n, pc, q).1)
  {
    var before, op := Replay(q.ops[..|q.ops| - 1]), q.ops[|q.ops| - 1];
    assert op == PopOp && q.tasks == before;
  }

  lemma LowerCounterStep(me: nat, n: nat, pc: Pc, q: Queue)
    requires Holding(me, pc, q) && pc.DidPop?
    ensures HandsOver(me, pc, Act(me, n, pc, q).0, Act(me, n, pc, q).1)
  {
    assert Act(me, n, pc, q).0 == EndPop(pc.core, Some(pc.task));
  }

  lemma EndPopStep(me: nat, n: nat, pc: Pc, q: Queue)
    requires Holding(me, pc, q) && pc.EndPop?
    ensures HandsOver(me, pc, Act(me, n, pc, q).0, Act(me, n, pc, q).1)
  {
    ReleaseOk(q, Popped(pc.result));
  }

  lemma BeginStealStep(me: nat, n: nat, pc: Pc, q: Queue)
    requires Holding(me, pc, q) && pc.HasSteal?
    ensures HandsOver(me, pc, Act(me, n, pc, q).0, Act(me, n, pc, q).1)
  {
    var before := Replay(q.ops[..|q.ops| - 1]);
    assert before[..|before| - 0] == before;
    assert |before| / 2 == 0 ==> Stolen(before) == [] && LeftBehind(before) == before;
  }

  lemma TakeOne(before: seq<TaskId>, tasks: seq<TaskId>, left: nat, stolen: seq<TaskId>)
    requires Halfway(before, tasks, left, stolen) && left > 0
    ensures tasks != []
    ensures Halfway(before, tasks[..|tasks| - 1], left - 1, stolen + [tasks[|tasks| - 1]])
  {
    StealOneMore(before, |stolen|);
  }

  lemma TakeOneStep(me: nat, n: nat, pc: Pc, q: Queue)
    requires Holding(me, pc, q) && pc.Stealing? && pc.left > 0
    ensures HandsOver(me, pc, Act(me, n, pc, q).0, Act(me, n, pc, q).1)
  {
    TakeOne(Replay(q.ops[..|q.ops| - 1]), q.tasks, pc.left, pc.stolen);
    var last := |q.tasks| - 1;
    assert Act(me, n, pc, q).0 == Stealing(pc.core, pc.victim, pc.left - 1, pc.stolen + [q.tasks[last]]);
    assert Act(me, n, pc, q).1 == q.(tasks := q.tasks[..last]);
  }

  lemma StopTakingStep(me: nat, n: nat, pc: Pc, q: Queue)
    requires Holding(me, pc, q) && pc.Stealing? && pc.left == 0
    ensures HandsOver(me, pc, Act(me, n, pc, q).0, Act(me, n, pc, q).1)
  {
    var before := Replay(q.ops[..|q.ops| - 1]);
    assert pc.stolen == Stolen(before) && q.tasks == LeftBehind(before);
  }

  lemma SettlingHoldsNothing(core: nat, stolen: seq<TaskId>)
    ensures Holds(Settle(core, stolen).0).None?
  {
  }

  lemma EndStealStep(me: nat, n: nat, pc: Pc, q: Queue)
    requires Holding(me, pc, q) && pc.EndSteal?
    ensures HandsOver(me, pc, Act(me, n, pc, q).0, Act(me, n, pc, q).1)
  {
    var answer := Took(pc.stolen);
    assert AnswersOk(Release(q, answer)) && FreeOk(Release(q, answer)) by {
      ReleaseOk(q, answer);
    }
    assert Act(me, n, pc, q).1 == Release(q, answer) && Act(me, n, pc, q).0 == Settle(pc.core, pc.stolen).0;
    SettlingHoldsNothing(pc.core, pc.stolen);
  }

  /** A step of the lock holder leaves the queue consistent with its new position. */
  lemma HolderStep(me: nat, n: nat, pc: Pc, q: Queue)
    requires Holding(me, pc, q)
    ensures HandsOver(me, pc, Act(me, n, pc, q).0, Act(me, n, pc, q).1)
  {
    if pc.HasPush? || pc.DidPush? || pc.EndPush? {
      PushStep(me, n, pc, q);
    } else if pc.HasPop? {
      PopFrontStep(me, n, pc, q);
    } else if pc.DidPop? {
      LowerCounterStep(me, n, pc, q);
    } else if pc.EndPop? {
      EndPopStep(me, n, pc, q);
    } else if pc.HasSteal? {
      BeginStealStep(me, n, pc, q);
    } else if pc.Stealing? && pc.left > 0 {
      TakeOneStep(me, n, pc, q);
    } else if pc.Stealing? {
      StopTakingStep(me, n, pc, q);
    } else {
      EndStealStep(me, n, pc, q);
    }
  }

  ghost predicate TakesLock(me: nat, pc: Pc, pc': Pc, q': Queue)
    requires !pc.Idle?
  {
    AnswersOk(q') && Holds(pc') == Some(Target(pc)) && q'.owner == Some(me) && BusyOk(q', pc')
  }

  lemma AcquirePush(me: nat, n: nat, pc: Pc, q: Queue)
    requires pc.WantPush? && AnswersOk(q) && FreeOk(q)
    ensures TakesLock(me, pc, Act(me, n, pc, q).0, Act(me, n, pc, q).1)
  {
    AcquireOk(q, me, PushOp(pc.task));
    assert BusyOk(Acquire(q, me, PushOp(pc.task)), HasPush(pc.core, pc.task, pc.then_));
  }

  lemma AcquirePop(me: nat, n: nat, pc: Pc, q: Queue)
    requires pc.WantPop? && AnswersOk(q) && FreeOk(q)
    ensures TakesLock(me, pc, Act(me, n, pc, q).0, Act(me, n, pc, q).1)
  {
    AcquireOk(q, me, PopOp);
    assert BusyOk(Acquire(q, me, PopOp), HasPop(pc.core));
  }

  lemma AcquireSteal(me: nat, n: nat, pc: Pc, q: Queue)
    requires pc.WantSteal? && AnswersOk(q) && FreeOk(q)
    ensures TakesLock(me, pc, Act(me, n, pc, q).0, Act(me, n, pc, q).1)
  {
    AcquireOk(q, me, StealOp);
    assert BusyOk(Acquire(q, me, StealOp), HasSteal(pc.core, pc.victim));
  }

  /** A step that takes a lock. */
  lemma AcquiringStep(me: nat, n: nat, pc: Pc, q: Queue)
    requires WantsLock(pc) && AnswersOk(q) && FreeOk(q)
    ensures TakesLock(me, pc, Act(me, n, pc, q).0, Act(me, n, pc, q).1)
  {
    if pc.WantPush? {
      AcquirePush(me, n, pc, q);
    } else if pc.WantPop? {
      AcquirePop(me, n, pc, q);
    } else {
      AcquireSteal(me, n, pc, q);
    }
  }

  lemma ActInRange(me: nat, n: nat, pc: Pc, q: Queue)
    requires !pc.Idle? && InRange(pc, n)
    ensures InRange(Act(me, n, pc, q).0, n)
    ensures Holds(pc).Some? ==> Holds(pc).value == Target(pc)
    ensures Holds(pc).None? && !WantsLock(pc) ==> Act(me, n, pc, q).1 == q && Holds(Act(me, n, pc, q).0).None?
  {
  }

  /** One agent and its target queue are replaced by a pair that is consistent in itself. */
  ghost predicate LocalChange(s: State, s': State, a: nat, k: nat, pc: Pc, q: Queue) {
    && a < |s.agents| && k < |s.queues|
    && s'.queues == s.queues[k := q] && s'.agents == s.agents[a := pc]
    && (Holds(s.agents[a]).Some? ==> Holds(s.agents[a]) == Some(k))
    && (Holds(pc).Some? ==> Holds(pc) == Some(k) && q.owner == Some(a))
    && (if Holds(s.agents[a]).None? && Holds(pc).None? then q == s.queues[k]
        else if Holds(pc).None? then q.owner == None
        else Holds(s.agents[a]).None? ==> s.queues[k].owner == None)
  }

  /** Such a change disturbs no other queue, */
  lemma OtherQueueUndisturbed(s: State, s': State, a: nat, k: nat, pc: Pc, q: Queue, j: nat)
    requires LocalChange(s, s', a, k, pc, q) && j < |s.queues| && QueueOk(s, j)
    requires j != k || q == s.queues[k]
    requires Holds(s.agents[a]) != Some(j)
    ensures QueueOk(s', j)
  {
  }

  /** and no agent. */
  lemma AgentUndisturbed(s: State, s': State, a: nat, k: nat, pc: Pc, q: Queue, b: nat)
    requires LocalChange(s, s', a, k, pc, q) && b < |s.agents| && AgentOk(s, b) && AgentOk(s, a)
    requires InRange(pc, |s.queues|)
    ensures AgentOk(s', b)
  {
  }

  lemma StepLocks(s: State, a: nat)
    requires LocksOk(s) && CanStep(s, a)
    ensures LocksOk(Next(s, Step(a)))
  {
    var pc, k := s.agents[a], Target(s.agents[a]);
    var q := s.queues[k];
    var (pc', q', out) := Act(a, |s.queues|, pc, q);
    assert AgentOk(s, a) && QueueOk(s, k);
    ActInRange(a, |s.queues|, pc, q);
    if Holds(pc).Some? {
      HolderStep(a, |s.queues|, pc, q);
    } else if WantsLock(pc) {
      AcquiringStep(a, |s.queues|, pc, q);
    }
    var s' := Next(s, Step(a));
    forall j | 0 <= j < |s'.queues|
      ensures QueueOk(s', j)
    {
      assert QueueOk(s, j);
      if j != k || (Holds(pc).None? && !WantsLock(pc)) {
        OtherQueueUndisturbed(s, s', a, k, pc', q', j);
      }
    }
    forall b | 0 <= b < |s'.agents|
      ensures AgentOk(s', b)
    {
      assert AgentOk(s, b);
      AgentUndisturbed(s, s', a, k, pc', q', b);
    }
  }

  lemma BeginLocks(s: State, a: nat, job: Job)
    requires LocksOk(s) && Enabled(s, Begin(a, job))
    ensures LocksOk(Next(s, Begin(a, job)))
  {
    var s' := Next(s, Begin(a, job));
    var pc := Entry(job);
    assert s'.agents == s.agents[a := pc] && s'.queues == s.queues && Holds(pc).None?;
    assert InRange(pc, |s.queues|);
    assert AgentOk(s, a);
    if |s.queues| > 0 {
      forall j | 0 <= j < |s'.queues|
        ensures QueueOk(s', j)
      {
        assert QueueOk(s, j);
        OtherQueueUndisturbed(s, s', a, 0, pc, s.queues[0], j);
      }
    }
    forall b | 0 <= b < |s'.agents|
      ensures AgentOk(s', b)
    {
      assert AgentOk(s, b);
    }
  }

  // -------------------------------------------------------------------------
  // Conservation
  // -------------------------------------------------------------------------

  ghost function Queued(s: State): seq<seq<TaskId>> {
    seq(|s.queues|, k requires 0 <= k < |s.queues| => s.queues[k].tasks)
  }

  ghost function InFlight(s: State): seq<seq<TaskId>> {
    seq(|s.agents|, a requires 0 <= a < |s.agents| => Buffer(s.agents[a]))
  }

  /** Every submitted task is in exactly one place: a queue, an agent's hands, or with a caller. */
  ghost predicate Conserved(s: State) {
    Accounted(s.created, Pool(Queued(s)), Pool(InFlight(s)), s.handed)
  }

  ghost predicate Accounted(created: multiset<TaskId>, queued: multiset<TaskId>, flying: multiset<TaskId>,
                            handed: multiset<TaskId>)
  {
    forall t :: created[t] == queued[t] + flying[t] + handed[t] <= 1
  }

  lemma ContinueConserves(core: nat, th: Then)
    ensures var (pc, out) := Continue(core, th);
      multiset(Buffer(pc)) + Bag(out) == multiset(Carried(th))
  {
    if th.Requeue? && th.rest != [] {
      var next, later := th.rest[0], th.rest[1..];
      assert th.rest == [next] + later;
      assert Buffer(Continue(core, th).0) == [next] + ([th.first] + later);
    }
  }

  lemma SettleConserves(core: nat, stolen: seq<TaskId>)
    ensures var (pc, out) := Settle(core, stolen);
      multiset(Buffer(pc)) + Bag(out) == multiset(stolen)
  {
    if stolen != [] {
      ContinueConserves(core, Requeue(stolen[0], stolen[1..]));
      assert stolen == [stolen[0]] + stolen[1..];
    }
  }

  ghost predicate Balanced(pc: Pc, q: Queue, pc': Pc, q': Queue, out: Option<TaskId>) {
    multiset(q'.tasks) + multiset(Buffer(pc')) + Bag(out) == multiset(q.tasks) + multiset(Buffer(pc))
  }

  lemma PushConserves(me: nat, n: nat, pc: Pc, q: Queue)
    requires pc.HasPush?
    ensures var (pc', q', out) := Act(me, n, pc, q); Balanced(pc, q, pc', q', out)
  {
    var (pc', q', out) := Act(me, n, pc, q);
    assert q'.tasks == q.tasks + [pc.task] && Buffer(pc) == [pc.task] + Buffer(pc') && out == None;
    assert multiset(q'.tasks) == multiset(q.tasks) + multiset{pc.task};
    assert multiset(Buffer(pc)) == multiset{pc.task} + multiset(Buffer(pc'));
    Regroup(multiset(q.tasks), multiset{pc.task}, multiset(Buffer(pc')));
  }

  lemma PopConserves(me: nat, n: nat, pc: Pc, q: Queue)
    requires pc.HasPop? && q.tasks != []
    ensures var (pc', q', out) := Act(me, n, pc, q); Balanced(pc, q, pc', q', out)
  {
    var first, rest := q.tasks[0], q.tasks[1..];
    assert q.tasks == [first] + rest;
    assert multiset(q.tasks) == multiset{first} + multiset(rest);
    var (pc', q', out) := Act(me, n, pc, q);
    assert q'.tasks == rest && Buffer(pc') == [first] && out == None && Buffer(pc) == [];
  }

  lemma TakeConserves(me: nat, n: nat, pc: Pc, q: Queue)
    requires pc.Stealing? && pc.left > 0 && q.tasks != []
    ensures var (pc', q', out) := Act(me, n, pc, q); Balanced(pc, q, pc', q', out)
  {
    var front, last := q.tasks[..|q.tasks| - 1], q.tasks[|q.tasks| - 1];
    assert q.tasks == front + [last];
    assert multiset(q.tasks) == multiset(front) + multiset{last};
    assert multiset(pc.stolen + [last]) == multiset(pc.stolen) + multiset{last};
    Regroup(multiset(front), multiset(pc.stolen), multiset{last});
    var (pc', q', out) := Act(me, n, pc, q);
    assert q'.tasks == front && Buffer(pc') == pc.stolen + [last] && out == None;
  }

  lemma HandOverConserves(me: nat, n: nat, pc: Pc, q: Queue)
    requires pc.EndPush? || pc.EndSteal? || pc.EndPop?
    ensures var (pc', q', out) := Act(me, n, pc, q); Balanced(pc, q, pc', q', out)
  {
    var (pc', q', out) := Act(me, n, pc, q);
    assert q'.tasks == q.tasks;
    Regroup(multiset(q.tasks), multiset(Buffer(pc')), Bag(out));
    assert multiset(Buffer(pc')) + Bag(out) == multiset(Buffer(pc)) by {
      match pc
      case EndPush(c, th) => ContinueConserves(c, th);
      case EndSteal(c, _, stolen) => SettleConserves(c, stolen);
      case EndPop(_, r) => assert multiset(Buffer(pc)) == Bag(r);
    }
  }

  /** Every other step leaves the queue's tasks and the agent's hands as they are. */
  lemma OtherwiseUntouched(me: nat, n: nat, pc: Pc, q: Queue)
    requires !pc.Idle? && !pc.HasPush? && !pc.EndPush? && !pc.EndSteal? && !pc.EndPop?
    requires q.tasks != [] ==> !pc.HasPop? && !(pc.Stealing? && pc.left > 0)
    ensures var (pc', q', out) := Act(me, n, pc, q);
      q'.tasks == q.tasks && Buffer(pc') == Buffer(pc) && out == None
  {
  }

  lemma ActConserves(me: nat, n: nat, pc: Pc, q: Queue)
    requires !pc.Idle?
    ensures var (pc', q', out) := Act(me, n, pc, q); Balanced(pc, q, pc', q', out)
  {
    if pc.HasPush? {
      PushConserves(me, n, pc, q);
    } else if pc.HasPop? && q.tasks != [] {
      PopConserves(me, n, pc, q);
    } else if pc.Stealing? && pc.left > 0 && q.tasks != [] {
      TakeConserves(me, n, pc, q);
    } else if pc.EndPush? || pc.EndSteal? || pc.EndPop? {
      HandOverConserves(me, n, pc, q);
    } else {
      OtherwiseUntouched(me, n, pc, q);
    }
  }

  /** One agent's hands change. */
  lemma FlightAfter(s: State, s': State, a: nat, pc: Pc, t: TaskId)
    requires a < |s.agents| && s'.agents == s.agents[a := pc]
    ensures Pool(InFlight(s'))[t] + multiset(Buffer(s.agents[a]))[t] == Pool(InFlight(s))[t] + multiset(Buffer(pc))[t]
  {
    assert InFlight(s') == InFlight(s)[a := Buffer(pc)];
    PoolUpdateAt(InFlight(s), a, Buffer(pc), t);
  }

  lemma StepPools(s: State, a: nat, t: TaskId)
    requires CanStep(s, a)
    ensures var s' := Next(s, Step(a));
      Pool(Queued(s'))[t] + Pool(InFlight(s'))[t] + s'.handed[t]
        == Pool(Queued(s))[t] + Pool(InFlight(s))[t] + s.handed[t]
  {
    var s' := Next(s, Step(a));
    var pc, k := s.agents[a], Target(s.agents[a]);
    var q := s.queues[k];
    var (pc', q', out) := Act(a, |s.queues|, pc, q);
    assert Queued(s') == Queued(s)[k := q'.tasks];
    PoolUpdateAt(Queued(s), k, q'.tasks, t);
    FlightAfter(s, s', a, pc', t);
    assert multiset(q'.tasks)[t] + multiset(Buffer(pc'))[t] + Bag(out)[t]
        == multiset(q.tasks)[t] + multiset(Buffer(pc))[t] by {
      ActConserves(a, |s.queues|, pc, q);
      assert (multiset(q'.tasks) + multiset(Buffer(pc')) + Bag(out))[t]
          == (multiset(q.tasks) + multiset(Buffer(pc)))[t];
    }
  }

  lemma StepConserves(s: State, a: nat)
    requires Conserved(s) && CanStep(s, a)
    ensures Conserved(Next(s, Step(a)))
  {
    forall t
      ensures var s' := Next(s, Step(a));
        s'.created[t] == Pool(Queued(s'))[t] + Pool(InFlight(s'))[t] + s'.handed[t] <= 1
    {
      StepPools(s, a, t);
    }
  }

  /** Submitting a task keeps the books: a fresh one is created, a returned one leaves its caller. */
  lemma SubmitCounts(s: State, t: TaskId, u: TaskId)
    requires t in s.created ==> t in s.handed
    ensures Submit(s, t).created[u] + s.handed[u] == s.created[u] + Submit(s, t).handed[u] + if u == t then 1 else 0
    ensures s.created[u] <= 1 ==> Submit(s, t).created[u] <= 1
  {
  }

  lemma BeginParts(s: State, a: nat, job: Job)
    requires Enabled(s, Begin(a, job))
    ensures var s' := Next(s, Begin(a, job));
      && Queued(s') == Queued(s) && s'.agents == s.agents[a := Entry(job)]
      && (job.Schedule? ==> s'.created == s.created && s'.handed == s.handed)
      && (!job.Schedule? ==> s'.created == Submit(s, job.task).created && s'.handed == Submit(s, job.task).handed)
  {
  }

  /** What an agent carries as its call begins: the task to be placed, if there is one. */
  lemma EntryCarries(job: Job, t: TaskId)
    ensures multiset(Buffer(Entry(job)))[t] == if !job.Schedule? && job.task == t then 1 else 0
  {
    if !job.Schedule? {
      assert Buffer(Entry(job)) == [job.task];
      assert multiset([job.task]) == multiset{job.task};
    } else {
      assert Buffer(Entry(job)) == [];
    }
  }

  lemma BeginCounts(s: State, s': State, a: nat, job: Job, t: TaskId)
    requires Conserved(s) && Enabled(s, Begin(a, job)) && s' == Next(s, Begin(a, job))
    ensures s'.created[t] == Pool(Queued(s'))[t] + Pool(InFlight(s'))[t] + s'.handed[t] <= 1
  {
    BeginParts(s, a, job);
    FlightAfter(s, s', a, Entry(job), t);
    EntryCarries(job, t);
    assert Buffer(s.agents[a]) == [];
    assert s.created[t] == Pool(Queued(s))[t] + Pool(InFlight(s))[t] + s.handed[t] <= 1;
    if !job.Schedule? {
      SubmitCounts(s, job.task, t);
    }
  }

  lemma BeginConserves(s: State, a: nat, job: Job)
    requires Conserved(s) && Enabled(s, Begin(a, job))
    ensures Conserved(Next(s, Begin(a, job)))
  {
    forall t
      ensures var s' := Next(s, Begin(a, job));
        s'.created[t] == Pool(Queued(s'))[t] + Pool(InFlight(s'))[t] + s'.handed[t] <= 1
    {
      BeginCounts(s, Next(s, Begin(a, job)), a, job, t);
    }
  }

  /** The invariant of the whole machine. */
  ghost predicate Inv(s: State) {
    LocksOk(s) && Conserved(s)
  }

  lemma NextInv(s: State, e: Event)
    requires Inv(s) && Enabled(s, e)
    ensures Inv(Next(s, e)) && |Next(s, e).queues| == |s.queues| && |Next(s, e).agents| == |s.agents|
  {
    match e
    case Begin(a, job) =>
      BeginLocks(s, a, job);
      BeginConserves(s, a, job);
    case Step(a) =>
      StepLocks(s, a);
      StepConserves(s, a);
    case Spin(_) =>
  }

  lemma {:induction false} RunInv(s: State, es: seq<Event>)
    requires Inv(s) && Exec(s, es).Some?
    ensures Inv(Exec(s, es).value)
    ensures |Exec(s, es).value.queues| == |s.queues| && |Exec(s, es).value.agents| == |s.agents|
  {
    if es != [] {
      RunInv(s, es[..|es| - 1]);
      NextInv(Exec(s, es[..|es| - 1]).value, es[|es| - 1]);
    }
  }

  lemma InitInv(cores: nat, agents: nat)
    ensures Inv(Init(cores, agents))
  {
    EmptyPool(Queued(Init(cores, agents)));
    EmptyPool(InFlight(Init(cores, agents)));
  }

  // -------------------------------------------------------------------------
  // Results over every run
  // -------------------------------------------------------------------------

  /**
   * No interleaving loses or copies a task, even while thieves steal from thieves:
   * a submitted task is counted once over all queues, all hands and all callers.
   */
  lemma EveryRunConserves(cores: nat, agents: nat, es: seq<Event>, t: TaskId)
    requires Exec(Init(cores, agents), es).Some?
    ensures var s := Exec(Init(cores, agents), es).value;
      Pool(Queued(s))[t] + Pool(InFlight(s))[t] + s.handed[t] == if t in s.created then 1 else 0
  {
    InitInv(cores, agents);
    RunInv(Init(cores, agents), es);
    var s := Exec(Init(cores, agents), es).value;
    assert s.created[t] == Pool(Queued(s))[t] + Pool(InFlight(s))[t] + s.handed[t];
  }

  /** A queued task is in no other queue, in no agent's hands, and with no caller. */
  lemma QueuedTaskIsNowhereElse(cores: nat, agents: nat, es: seq<Event>, k: nat, t: TaskId)
    requires Exec(Init(cores, agents), es).Some?
    requires var s := Exec(Init(cores, agents), es).value; k < |s.queues| && t in s.queues[k].tasks
    ensures var s := Exec(Init(cores, agents), es).value;
      && (forall j :: 0 <= j < |s.queues| && j != k ==> t !in s.queues[j].tasks)
      && (forall a :: 0 <= a < |s.agents| ==> t !in Buffer(s.agents[a]))
      && t !in s.handed
      && multiset(s.queues[k].tasks)[t] == 1
  {
    EveryRunConserves(cores, agents, es, t);
    var s := Exec(Init(cores, agents), es).value;
    PoolContains(Queued(s), k);
    assert t in multiset(Queued(s)[k]);
    assert multiset(Queued(s)[k])[t] <= Pool(Queued(s))[t];
    forall j | 0 <= j < |s.queues| && j != k
      ensures t !in s.queues[j].tasks
    {
      if t in s.queues[j].tasks {
        assert t in Queued(s)[j] && t in Queued(s)[k];
        if j < k { PoolCountsBoth(Queued(s), j, k, t); } else { PoolCountsBoth(Queued(s), k, j, t); }
      }
    }
    forall a | 0 <= a < |s.agents|
      ensures t !in Buffer(s.agents[a])
    {
      PoolContains(InFlight(s), a);
      assert multiset(InFlight(s)[a])[t] <= Pool(InFlight(s))[t];
    }
  }

  /**
   * Every run of pushes, pops and steals on a queue gives the answers, and leaves
   * the contents, of the same operations run one at a time in lock-acquisition order.
   */
  lemma QueuesRefineAtomicDeques(cores: nat, agents: nat, es: seq<Event>, k: nat)
    requires Exec(Init(cores, agents), es).Some? && k < |Exec(Init(cores, agents), es).value.queues|
    ensures var q := Exec(Init(cores, agents), es).value.queues[k];
      && |q.answers| <= |q.ops| <= |q.answers| + 1
      && (forall i :: 0 <= i < |q.answers| ==> q.answers[i] == AnswerTo(Replay(q.ops[..i]), q.ops[i]))
      && (q.owner.None? ==> |q.answers| == |q.ops| && q.tasks == Replay(q.ops))
  {
    InitInv(cores, agents);
    RunInv(Init(cores, agents), es);
    assert QueueOk(Exec(Init(cores, agents), es).value, k);
  }

  /**
   * The unlocked counter: equal to the queue's length whenever the lock is free,
   * off by exactly the holder's pending change otherwise, and never negative.
   */
  lemma CounterAgrees(cores: nat, agents: nat, es: seq<Event>, k: nat)
    requires Exec(Init(cores, agents), es).Some? && k < |Exec(Init(cores, agents), es).value.queues|
    ensures var s := Exec(Init(cores, agents), es).value;
      var q := s.queues[k];
      && (q.owner.None? ==> q.len == |q.tasks|)
      && (q.owner.Some? ==>
            q.owner.value < |s.agents| && q.len == |q.tasks| + Pending(s.agents[q.owner.value]))
      && q.len >= 0
  {
    InitInv(cores, agents);
    RunInv(Init(cores, agents), es);
    assert QueueOk(Exec(Init(cores, agents), es).value, k);
  }

  /** Only three kinds of step move a counter: up after a push, down after a pop, and down after a steal. */
  lemma CounterMovesBy(me: nat, n: nat, pc: Pc, q: Queue)
    requires !pc.Idle?
    ensures Act(me, n, pc, q).1.len - q.len ==
      match pc
      case DidPush(_, _) => 1
      case DidPop(_, _) => -1
      case Stealing(_, _, left, stolen) => if left == 0 then -|stolen| else 0
      case _ => 0
  {
  }

  /** No step, taken anywhere in any run, lowers a counter below zero. */
  lemma NoCounterUnderflows(cores: nat, agents: nat, es: seq<Event>, a: nat)
    requires Exec(Init(cores, agents), es).Some? && CanStep(Exec(Init(cores, agents), es).value, a)
    ensures var s := Exec(Init(cores, agents), es).value;
      Act(a, |s.queues|, s.agents[a], s.queues[Target(s.agents[a])]).1.len >= 0
  {
    var longer := es + [Step(a)];
    assert longer[..|longer| - 1] == es;
    InitInv(cores, agents);
    RunInv(Init(cores, agents), es);
    CounterAgrees(cores, agents, longer, Target(Exec(Init(cores, agents), es).value.agents[a]));
  }

  lemma AgentsStayInRange(cores: nat, agents: nat, es: seq<Event>, a: nat)
    requires Exec(Init(cores, agents), es).Some? && a < |Exec(Init(cores, agents), es).value.agents|
    ensures var s := Exec(Init(cores, agents), es).value; InRange(s.agents[a], |s.queues|)
  {
    InitInv(cores, agents);
    RunInv(Init(cores, agents), es);
    assert AgentOk(Exec(Init(cores, agents), es).value, a);
  }

  /** An idle agent can call schedule for any core there is, and place any task that is new or was handed out. */
  lemma EveryCallCanBegin(cores: nat, agents: nat, es: seq<Event>, a: nat, c: nat, t: TaskId)
    requires Exec(Init(cores, agents), es).Some?
    ensures var s := Exec(Init(cores, agents), es).value;
      |s.queues| == cores && |s.agents| == agents
    ensures var s := Exec(Init(cores, agents), es).value;
      a < agents && s.agents[a].Idle? && c < cores ==>
        && Enabled(s, Begin(a, Schedule(c)))
        && (t !in s.created || t in s.handed ==> Enabled(s, Begin(a, Spawn(t))) && Enabled(s, Begin(a, PushOn(c, t))))
  {
    InitInv(cores, agents);
    RunInv(Init(cores, agents), es);
  }

  /** A thief never picks its own queue as the victim, however stale its scan. */
  lemma NobodyRobsItself(cores: nat, agents: nat, es: seq<Event>, a: nat)
    requires Exec(Init(cores, agents), es).Some?
    requires var s := Exec(Init(cores, agents), es).value;
      && a < |s.agents|
      && (s.agents[a].WantSteal? || s.agents[a].HasSteal? || s.agents[a].Stealing? || s.agents[a].EndSteal?)
    ensures var s := Exec(Init(cores, agents), es).value;
      s.agents[a].victim < |s.queues| && s.agents[a].victim != s.agents[a].core
  {
    AgentsStayInRange(cores, agents, es, a);
  }

  /** One holder per lock, one lock per agent: two agents that hold the same queue's lock are one. */
  lemma LocksAreExclusive(cores: nat, agents: nat, es: seq<Event>, a: nat, b: nat)
    requires Exec(Init(cores, agents), es).Some?
    requires var s := Exec(Init(cores, agents), es).value;
      && a < |s.agents| && b < |s.agents|
      && Holds(s.agents[a]).Some? && Holds(s.agents[a]) == Holds(s.agents[b])
    ensures a == b
  {
    InitInv(cores, agents);
    RunInv(Init(cores, agents), es);
    var s := Exec(Init(cores, agents), es).value;
    assert AgentOk(s, a) && AgentOk(s, b);
  }
}
