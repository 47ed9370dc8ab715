/**
 * An uncontended call of the step-level scheduler does what the value-level
 * operation does: whenever one agent's call runs with no other call in flight,
 * every way of completing it gives the queues and the result of AfterSchedule and
 * Dispatched, or of a placement on the least loaded core.
 */
module SchedulerSolo {
  import opened Common
  import opened Pools
  import opened RunQueues
  import opened Schedulers
  import opened SchedulerMachine
  import opened SchedulerProgress

  type Config = seq<seq<TaskId>>

  /** What stealing from `victim` leaves, with the tasks taken so far and those still to be taken. */
  function AfterTaking(qs: Config, core: nat, victim: nat, left: nat, stolen: seq<TaskId>): (Config, Option<TaskId>)
    requires core < |qs| && victim < |qs| && left <= |qs[victim]|
  {
    var q := qs[victim];
    var all := stolen + Reversed(q[|q| - left..]);
    if all == [] then (qs, None)
    else (qs[victim := q[..|q| - left]][core := qs[core] + all[1..]], Some(all[0]))
  }

  function AfterStealing(qs: Config, core: nat, victim: Option<nat>): (Config, Option<TaskId>)
    requires core < |qs| && (victim.Some? ==> victim.value < |qs|)
  {
    match victim
    case None => (qs, None)
    case Some(v) => AfterTaking(qs, core, v, StealCount(|qs[v]|), [])
  }

  function AfterThen(qs: Config, core: nat, th: Then): (Config, Option<TaskId>)
    requires core < |qs|
  {
    match th
    case Finish => (qs, None)
    case Requeue(first, rest) => (qs[core := qs[core] + rest], Some(first))
  }

  /** The queues and the result the rest of a call comes to if nobody interferes. */
  function Remaining(qs: Config, pc: Pc): (Config, Option<TaskId>)
    requires Possible(qs, pc)
  {
    match pc
    case Idle => (qs, None)
    case SpawnScan(t, _, _, _) => (AfterPush(qs, LeastLoaded(qs), t), None)
    case WantPush(k, t, th) => AfterThen(AfterPush(qs, k, t), k, th)
    case HasPush(k, t, th) => AfterThen(AfterPush(qs, k, t), k, th)
    case DidPush(k, th) => AfterThen(qs, k, th)
    case EndPush(k, th) => AfterThen(qs, k, th)
    case WantPop(c) => (AfterSchedule(qs, c), Dispatched(qs, c))
    case HasPop(c) => (AfterSchedule(qs, c), Dispatched(qs, c))
    case DidPop(_, t) => (qs, Some(t))
    case EndPop(c, r) => if r.Some? then (qs, r) else AfterStealing(qs, c, Busiest(qs, c))
    case VictimScan(c, _, _, _) => AfterStealing(qs, c, Busiest(qs, c))
    case WantSteal(c, v) => AfterStealing(qs, c, Some(v))
    case HasSteal(c, v) => AfterStealing(qs, c, Some(v))
    case Stealing(c, v, left, stolen) => AfterTaking(qs, c, v, left, stolen)
    case EndSteal(c, v, stolen) => AfterTaking(qs, c, v, 0, stolen)
  }

  /** The positions an agent alone can be in: its scans have seen the queues as they are. */
  predicate Possible(qs: Config, pc: Pc) {
    && InRange(pc, |qs|)
    && match pc
       case SpawnScan(_, i, minLoad, minCore) =>
         var best := LeastLoadedUpTo(qs, i);
         && LeastLoaded(qs) < |qs|
         && (if best.Some? then minCore == best.value && minLoad == |qs[minCore]|
             else minCore == 0 && minLoad == U64_MAX)
       case VictimScan(c, i, maxLoad, maxCore) =>
         maxCore == BusiestUpTo(qs, c, i) && maxLoad == if maxCore.Some? then |qs[maxCore.value]| else 1
       case EndPop(c, r) => r.None? ==> qs[c] == []
       case WantSteal(c, v) => c != v
       case HasSteal(c, v) => c != v
       case Stealing(c, v, left, _) => c != v && left <= |qs[v]|
       case EndSteal(c, v, _) => c != v
       case _ => true
  }

  /** The step keeps what the call will come to: the same queues in the end, the same result. */
  ghost predicate Keeps(qs: Config, pc: Pc, qs': Config, pc': Pc, out: Option<TaskId>)
    requires Possible(qs, pc)
  {
    && Possible(qs', pc')
    && (out.None? ==> Remaining(qs', pc') == Remaining(qs, pc))
    && (out.Some? ==> pc'.Idle? && Remaining(qs, pc) == (qs', out))
  }

  /** The agent's target queue as a value, and its counter unless the agent is in between. */
  ghost predicate Sees(qs: Config, pc: Pc, q: Queue) {
    && !pc.Idle? && Target(pc) < |qs| && q.tasks == qs[Target(pc)]
    && (Holds(pc).None? ==> q.len == |q.tasks|)
  }

  lemma ContinueKeeps(qs: Config, core: nat, th: Then)
    requires core < |qs|
    ensures var (pc', out) := Continue(core, th);
      && Possible(qs, pc')
      && (out.None? ==> Remaining(qs, pc') == AfterThen(qs, core, th))
      && (out.Some? ==> pc'.Idle? && AfterThen(qs, core, th) == (qs, out))
  {
    if th.Requeue? {
      if th.rest == [] {
        assert qs[core] + th.rest == qs[core];
        assert qs[core := qs[core]] == qs;
      } else {
        var pushed := AfterPush(qs, core, th.rest[0]);
        assert pushed[core] + th.rest[1..] == qs[core] + th.rest;
        assert pushed[core := qs[core] + th.rest] == qs[core := qs[core] + th.rest];
      }
    }
  }

  lemma PushKeeps(me: nat, qs: Config, pc: Pc, q: Queue)
    requires Possible(qs, pc) && Sees(qs, pc, q) && (pc.WantPush? || pc.HasPush? || pc.DidPush? || pc.EndPush?)
    ensures var (pc', q', out) := Act(me, |qs|, pc, q);
      Keeps(qs, pc, qs[Target(pc) := q'.tasks], pc', out)
  {
    assert qs[Target(pc) := q.tasks] == qs;
    if pc.EndPush? {
      ContinueKeeps(qs, pc.core, pc.then_);
    }
  }

  lemma PopKeeps(me: nat, qs: Config, pc: Pc, q: Queue)
    requires Possible(qs, pc) && Sees(qs, pc, q) && (pc.WantPop? || pc.DidPop? || pc.EndPop?)
    ensures var (pc', q', out) := Act(me, |qs|, pc, q); Keeps(qs, pc, qs, pc', out)
  {
  }

  lemma PopFrontKeeps(me: nat, qs: Config, pc: Pc, q: Queue)
    requires Possible(qs, pc) && Sees(qs, pc, q) && pc.HasPop?
    ensures var (pc', q', out) := Act(me, |qs|, pc, q);
      Keeps(qs, pc, qs[Target(pc) := q'.tasks], pc', out)
  {
    if q.tasks == [] {
      assert qs[pc.core := q.tasks] == qs;
      StealIsSchedule(qs, pc.core);
    }
  }

  /** With one's own queue empty, schedule is a steal from the busiest other core. */
  lemma StealIsSchedule(qs: Config, c: nat)
    requires c < |qs| && qs[c] == []
    ensures AfterStealing(qs, c, Busiest(qs, c)) == (AfterSchedule(qs, c), Dispatched(qs, c))
  {
    if Busiest(qs, c).Some? {
      var v := Busiest(qs, c).value;
      assert [] + Stolen(qs[v]) == Stolen(qs[v]);
      assert qs[c] + Stolen(qs[v])[1..] == Stolen(qs[v])[1..];
    }
  }

  lemma SpawnScanKeeps(me: nat, qs: Config, pc: Pc, q: Queue)
    requires Possible(qs, pc) && Sees(qs, pc, q) && pc.SpawnScan?
    ensures Keeps(qs, pc, qs, Act(me, |qs|, pc, q).0, None)
  {
  }

  lemma VictimScanKeeps(me: nat, qs: Config, pc: Pc, q: Queue)
    requires Possible(qs, pc) && Sees(qs, pc, q) && pc.VictimScan?
    ensures Keeps(qs, pc, qs, Act(me, |qs|, pc, q).0, None)
  {
  }

  lemma ScanKeeps(me: nat, qs: Config, pc: Pc, q: Queue)
    requires Possible(qs, pc) && Sees(qs, pc, q) && (pc.SpawnScan? || pc.VictimScan?)
    ensures var (pc', q', out) := Act(me, |qs|, pc, q);
      Keeps(qs, pc, qs[Target(pc) := q'.tasks], pc', out)
  {
    assert qs[Target(pc) := q.tasks] == qs;
    if pc.SpawnScan? {
      SpawnScanKeeps(me, qs, pc, q);
    } else {
      VictimScanKeeps(me, qs, pc, q);
    }
  }

  lemma WantStealKeeps(me: nat, qs: Config, pc: Pc, q: Queue)
    requires Possible(qs, pc) && Sees(qs, pc, q) && pc.WantSteal?
    ensures Keeps(qs, pc, qs, Act(me, |qs|, pc, q).0, None)
  {
    assert Act(me, |qs|, pc, q).0 == HasSteal(pc.core, pc.victim);
  }

  lemma BeginStealKeeps(me: nat, qs: Config, pc: Pc, q: Queue)
    requires Possible(qs, pc) && Sees(qs, pc, q) && pc.HasSteal?
    ensures Keeps(qs, pc, qs, Act(me, |qs|, pc, q).0, None)
  {
    var c, v, count := pc.core, pc.victim, StealCount(|q.tasks|);
    var goal := AfterTaking(qs, c, v, count, []);
    assert Remaining(qs, pc) == goal;
    var pc' := Act(me, |qs|, pc, q).0;
    if count == 0 {
      assert pc' == EndSteal(c, v, []);
    } else {
      assert pc' == Stealing(c, v, count, []);
    }
    assert Remaining(qs, pc') == goal;
  }

  /** With nothing left to take, what remains is to hand over the first task and queue the others. */
  lemma NothingLeftToTake(qs: Config, core: nat, victim: nat, stolen: seq<TaskId>)
    requires core < |qs| && victim < |qs|
    ensures AfterTaking(qs, core, victim, 0, stolen)
         == if stolen == [] then (qs, None) else AfterThen(qs, core, Requeue(stolen[0], stolen[1..]))
  {
    var q := qs[victim];
    assert stolen + Reversed(q[|q|..]) == stolen;
    assert q[..|q|] == q;
    assert qs[victim := q] == qs;
  }

  lemma EndStealKeeps(me: nat, qs: Config, pc: Pc, q: Queue)
    requires Possible(qs, pc) && Sees(qs, pc, q) && pc.EndSteal?
    ensures var (pc', q', out) := Act(me, |qs|, pc, q); Keeps(qs, pc, qs, pc', out)
  {
    NothingLeftToTake(qs, pc.core, pc.victim, pc.stolen);
    if pc.stolen != [] {
      ContinueKeeps(qs, pc.core, Requeue(pc.stolen[0], pc.stolen[1..]));
    }
  }

  /** Taking the next task of a steal brings it one closer to the same end. */
  lemma TakeOneCloser(qs: Config, core: nat, victim: nat, left: nat, stolen: seq<TaskId>)
    requires core < |qs| && victim < |qs| && core != victim && 0 < left <= |qs[victim]|
    ensures var q := qs[victim];
      AfterTaking(qs, core, victim, left, stolen) ==
      AfterTaking(qs[victim := q[..|q| - 1]], core, victim, left - 1, stolen + [q[|q| - 1]])
  {
    var q := qs[victim];
    var front, tail := q[..|q| - 1], q[|q| - left..];
    assert tail[..left - 1] == front[|front| - (left - 1)..];
    assert Reversed(tail) == [q[|q| - 1]] + Reversed(tail[..left - 1]);
    assert stolen + Reversed(tail) == stolen + [q[|q| - 1]] + Reversed(tail[..left - 1]);
    var rest := q[..|q| - left];
    assert front[..|front| - (left - 1)] == rest;
    assert qs[victim := front][victim := rest] == qs[victim := rest];
  }

  lemma TakeKeeps(me: nat, qs: Config, pc: Pc, q: Queue)
    requires Possible(qs, pc) && Sees(qs, pc, q) && pc.Stealing?
    ensures var (pc', q', out) := Act(me, |qs|, pc, q);
      Keeps(qs, pc, qs[Target(pc) := q'.tasks], pc', out)
  {
    if pc.left > 0 {
      TakeOneCloser(qs, pc.core, pc.victim, pc.left, pc.stolen);
    } else {
      assert qs[pc.victim := q.tasks] == qs;
    }
  }

  lemma SoloStepKeeps(me: nat, qs: Config, pc: Pc, q: Queue)
    requires Possible(qs, pc) && Sees(qs, pc, q)
    ensures var (pc', q', out) := Act(me, |qs|, pc, q);
      Keeps(qs, pc, qs[Target(pc) := q'.tasks], pc', out)
  {
    if pc.WantPush? || pc.HasPush? || pc.DidPush? || pc.EndPush? {
      PushKeeps(me, qs, pc, q);
    } else if pc.HasPop? {
      PopFrontKeeps(me, qs, pc, q);
    } else if pc.WantPop? || pc.DidPop? || pc.EndPop? {
      assert qs[Target(pc) := q.tasks] == qs;
      PopKeeps(me, qs, pc, q);
    } else if pc.SpawnScan? || pc.VictimScan? {
      ScanKeeps(me, qs, pc, q);
    } else if pc.Stealing? {
      TakeKeeps(me, qs, pc, q);
    } else {
      assert qs[Target(pc) := q.tasks] == qs;
      if pc.EndSteal? {
        EndStealKeeps(me, qs, pc, q);
      } else if pc.HasSteal? {
        BeginStealKeeps(me, qs, pc, q);
      } else {
        WantStealKeeps(me, qs, pc, q);
      }
    }
  }

  // -------------------------------------------------------------------------
  // Whole runs of one agent's call
  // -------------------------------------------------------------------------

  ghost predicate Alone(s: State, a: nat) {
    && a < |s.agents|
    && forall b :: 0 <= b < |s.agents| && b != a ==> s.agents[b].Idle?
  }

  /** The agent's call will come to `goal`, and what it will return has or has not been handed over yet. */
  ghost predicate OnCourse(s: State, a: nat, goal: (Config, Option<TaskId>), handed: multiset<TaskId>) {
    && Inv(s) && Alone(s, a) && Possible(Queued(s), s.agents[a])
    && (if s.handed == handed then Remaining(Queued(s), s.agents[a]) == goal
        else s.agents[a].Idle? && goal.0 == Queued(s) && s.handed == handed + Bag(goal.1))
  }

  /** With nobody else about, a queue whose lock the agent does not hold is free, and its counter exact. */
  lemma AloneSees(s: State, a: nat, k: nat)
    requires LocksOk(s) && Alone(s, a) && k < |s.queues| && Holds(s.agents[a]).None?
    ensures s.queues[k].owner.None? && s.queues[k].len == |s.queues[k].tasks|
  {
    assert QueueOk(s, k);
  }

  lemma StepParts(s: State, a: nat)
    requires CanStep(s, a)
    ensures var s' := Next(s, Step(a));
      var (pc', q', out) := Act(a, |s.queues|, s.agents[a], s.queues[Target(s.agents[a])]);
      && Queued(s') == Queued(s)[Target(s.agents[a]) := q'.tasks]
      && s'.agents == s.agents[a := pc'] && s'.handed == s.handed + Bag(out)
  {
  }

  lemma HandingOverShows(handed: multiset<TaskId>, t: TaskId)
    ensures handed + multiset{t} != handed
  {
    assert (handed + multiset{t})[t] == handed[t] + 1;
  }

  lemma StepOnCourse(s: State, a: nat, goal: (Config, Option<TaskId>), handed: multiset<TaskId>)
    requires OnCourse(s, a, goal, handed) && CanStep(s, a)
    ensures OnCourse(Next(s, Step(a)), a, goal, handed)
  {
    var s' := Next(s, Step(a));
    var pc, k := s.agents[a], Target(s.agents[a]);
    NextInv(s, Step(a));
    if Holds(pc).None? {
      AloneSees(s, a, k);
    }
    SoloStepKeeps(a, Queued(s), pc, s.queues[k]);
    StepParts(s, a);
    var out := Act(a, |s.queues|, pc, s.queues[k]).2;
    if out.None? {
      assert s'.handed == handed;
    } else {
      HandingOverShows(handed, out.value);
    }
  }

  lemma {:induction false} SoloRun(s: State, a: nat, es: seq<Event>, goal: (Config, Option<TaskId>),
                                   handed: multiset<TaskId>)
    requires OnCourse(s, a, goal, handed) && NoNewCalls(es) && Exec(s, es).Some?
    ensures OnCourse(Exec(s, es).value, a, goal, handed)
  {
    if es != [] {
      var before, e := es[..|es| - 1], es[|es| - 1];
      assert forall i :: 0 <= i < |before| ==> before[i] == es[i];
      SoloRun(s, a, before, goal, handed);
      assert !e.Begin?;
      if e.Step? {
        assert e.a == a;
        StepOnCourse(Exec(s, before).value, a, goal, handed);
      }
    }
  }

  /** What a call comes to when it begins on queues qs. */
  function Effect(qs: Config, job: Job): (Config, Option<TaskId>)
    requires match job
             case Spawn(_) => LeastLoaded(qs) < |qs|
             case PushOn(c, _) => c < |qs|
             case Schedule(c) => c < |qs|
  {
    match job
    case Spawn(t) => (AfterPush(qs, LeastLoaded(qs), t), None)
    case PushOn(c, t) => (AfterPush(qs, c, t), None)
    case Schedule(c) => (AfterSchedule(qs, c), Dispatched(qs, c))
  }

  /** A call that has just begun will come to its effect. */
  lemma EntryIsOnCourse(qs: Config, job: Job)
    requires match job case Spawn(_) => 0 < |qs| case PushOn(c, _) => c < |qs| case Schedule(c) => c < |qs|
    ensures LeastLoaded(qs) < |qs|
    ensures Possible(qs, Entry(job)) && Remaining(qs, Entry(job)) == Effect(qs, job)
  {
  }

  lemma CallBegins(s: State, s': State, a: nat, job: Job)
    requires Inv(s) && Quiet(s) && Enabled(s, Begin(a, job)) && s' == Next(s, Begin(a, job))
    ensures LeastLoaded(Queued(s)) < |s.queues|
    ensures OnCourse(s', a, Effect(Queued(s), job), s'.handed)
  {
    NextInv(s, Begin(a, job));
    EntryIsOnCourse(Queued(s), job);
    BeginParts(s, a, job);
  }

  lemma CallEnds(s: State, a: nat, goal: (Config, Option<TaskId>), handed: multiset<TaskId>)
    requires OnCourse(s, a, goal, handed) && s.agents[a].Idle?
    ensures Queued(s) == goal.0 && s.handed == handed + Bag(goal.1)
  {
    if s.handed == handed {
      assert goal == (Queued(s), None);
      assert handed + Bag(None) == handed;
    }
  }

  lemma UncontendedCall(s: State, a: nat, job: Job, more: seq<Event>)
    requires Inv(s) && Quiet(s) && Enabled(s, Begin(a, job)) && NoNewCalls(more)
    requires var began := Next(s, Begin(a, job)); Exec(began, more).Some? && Quiet(Exec(began, more).value)
    ensures LeastLoaded(Queued(s)) < |s.queues|
    ensures var began := Next(s, Begin(a, job));
      var s', goal := Exec(began, more).value, Effect(Queued(s), job);
      Queued(s') == goal.0 && s'.handed == began.handed + Bag(goal.1)
  {
    var began := Next(s, Begin(a, job));
    CallBegins(s, began, a, job);
    SoloRun(began, a, more, Effect(Queued(s), job), began.handed);
    CallEnds(Exec(began, more).value, a, Effect(Queued(s), job), began.handed);
  }

  /**
   * Refinement: from any reachable quiet state, however a single call's steps and
   * spins are taken, once it is complete the queues and the tasks handed over are
   * those of the value-level operation.
   */
  lemma UncontendedCallRefines(cores: nat, agents: nat, es: seq<Event>, a: nat, job: Job, more: seq<Event>)
    requires Exec(Init(cores, agents), es).Some?
    requires var s := Exec(Init(cores, agents), es).value;
      && Quiet(s) && Enabled(s, Begin(a, job)) && NoNewCalls(more)
      && Exec(Next(s, Begin(a, job)), more).Some? && Quiet(Exec(Next(s, Begin(a, job)), more).value)
    ensures var s := Exec(Init(cores, agents), es).value;
      var began := Next(s, Begin(a, job));
      var s' := Exec(began, more).value;
      && LeastLoaded(Queued(s)) < |s.queues|
      && Queued(s') == Effect(Queued(s), job).0
      && s'.handed == began.handed + Bag(Effect(Queued(s), job).1)
  {
    var start := Init(cores, agents);
    InitInv(cores, agents);
    RunInv(start, es);
    UncontendedCall(Exec(start, es).value, a, job, more);
  }
}
