/**
 * The step-level scheduler cannot deadlock, and calls in flight cannot keep one
 * another busy: every run without new calls is over after a bounded number of steps.
 */
module SchedulerProgress {
  import opened Common
  import opened Pools
  import opened SchedulerMachine

  /** Pushes still to be made once the current one is over. */
  function StepsAfterPush(th: Then): nat {
    match th
    case Finish => 0
    case Requeue(_, rest) => 4 * |rest|
  }

  /** An upper bound on an agent's own remaining steps, when no queue holds more than `most` tasks. */
  function StepsLeft(pc: Pc, n: nat, most: nat): int {
    match pc
    case Idle => 0
    case SpawnScan(_, i, _, _) => n - i + 4
    case WantPush(_, _, th) => 4 + StepsAfterPush(th)
    case HasPush(_, _, th) => 3 + StepsAfterPush(th)
    case DidPush(_, th) => 2 + StepsAfterPush(th)
    case EndPush(_, th) => 1 + StepsAfterPush(th)
    case WantPop(_) => n + 5 * most + 8
    case HasPop(_) => n + 5 * most + 7
    case DidPop(_, _) => n + 5 * most + 6
    case EndPop(_, _) => n + 5 * most + 5
    case VictimScan(_, i, _, _) => n - i + 5 * most + 4
    case WantSteal(_, _) => 5 * most + 4
    case HasSteal(_, _) => 5 * most + 3
    case Stealing(_, _, left, stolen) => 5 * left + 4 * |stolen| + 2
    case EndSteal(_, _, stolen) => 4 * |stolen| + 1
  }

  /** The same, over all agents. */
  ghost function TotalLeft(agents: seq<Pc>, n: nat, most: nat): int {
    if agents == [] then 0
    else TotalLeft(agents[..|agents| - 1], n, most) + StepsLeft(agents[|agents| - 1], n, most)
  }

  lemma {:induction false} TotalUpdate(agents: seq<Pc>, a: nat, pc: Pc, n: nat, most: nat)
    requires a < |agents|
    ensures TotalLeft(agents[a := pc], n, most) - TotalLeft(agents, n, most)
         == StepsLeft(pc, n, most) - StepsLeft(agents[a], n, most)
  {
    var last := |agents| - 1;
    if a == last {
      assert agents[a := pc][..last] == agents[..last];
    } else {
      TotalUpdate(agents[..last], a, pc, n, most);
      assert agents[a := pc][..last] == agents[..last][a := pc];
    }
  }

  lemma {:induction false} TotalIsNotNegative(agents: seq<Pc>, n: nat, most: nat)
    requires forall a :: 0 <= a < |agents| ==> InRange(agents[a], n)
    ensures TotalLeft(agents, n, most) >= 0
  {
    if agents != [] {
      TotalIsNotNegative(agents[..|agents| - 1], n, most);
      assert InRange(agents[|agents| - 1], n);
    }
  }

  ghost function Measure(s: State): int {
    TotalLeft(s.agents, |s.queues|, |s.created|)
  }

  lemma SettlingIsShorter(core: nat, stolen: seq<TaskId>, n: nat, most: nat)
    ensures StepsLeft(Settle(core, stolen).0, n, most) <= 4 * |stolen|
  {
  }

  lemma ActUsesUpAStep(me: nat, n: nat, pc: Pc, q: Queue, most: nat)
    requires !pc.Idle? && InRange(pc, n) && |q.tasks| <= most
    ensures StepsLeft(Act(me, n, pc, q).0, n, most) < StepsLeft(pc, n, most)
  {
    if pc.EndSteal? {
      SettlingIsShorter(pc.core, pc.stolen, n, most);
    }
  }

  lemma SmallerBag<T>(a: multiset<T>, b: multiset<T>)
    requires a <= b
    ensures |a| <= |b|
  {
    assert b == a + (b - a);
  }

  /** No queue holds more tasks than were ever submitted. */
  lemma QueueIsNoLongerThanAll(s: State, k: nat)
    requires Inv(s) && k < |s.queues|
    ensures |s.queues[k].tasks| <= |s.created|
  {
    PoolContains(Queued(s), k);
    assert multiset(Queued(s)[k]) <= s.created;
    SmallerBag(multiset(s.queues[k].tasks), s.created);
  }

  /** Every step, by whichever agent, uses up some of the remaining work: there is no livelock. */
  lemma StepUsesUpWork(s: State, a: nat)
    requires Inv(s) && CanStep(s, a)
    ensures 0 <= Measure(Next(s, Step(a))) < Measure(s)
  {
    var s' := Next(s, Step(a));
    var pc, k := s.agents[a], Target(s.agents[a]);
    assert AgentOk(s, a);
    QueueIsNoLongerThanAll(s, k);
    ActUsesUpAStep(a, |s.queues|, pc, s.queues[k], |s.created|);
    TotalUpdate(s.agents, a, s'.agents[a], |s.queues|, |s.created|);
    NextInv(s, Step(a));
    forall b | 0 <= b < |s'.agents|
      ensures InRange(s'.agents[b], |s'.queues|)
    {
      assert AgentOk(s', b);
    }
    TotalIsNotNegative(s'.agents, |s'.queues|, |s'.created|);
  }

  /** Whenever a call is in flight some agent can take a step: no set of agents waits for itself. */
  lemma SomebodyCanStep(s: State, a: nat) returns (b: nat)
    requires Inv(s) && a < |s.agents| && !s.agents[a].Idle?
    ensures CanStep(s, b)
  {
    assert AgentOk(s, a);
    var k := Target(s.agents[a]);
    if WantsLock(s.agents[a]) && s.queues[k].owner.Some? {
      b := s.queues[k].owner.value;
      assert QueueOk(s, k);
      assert AgentOk(s, b);
    } else {
      b := a;
    }
  }

  function StepCount(es: seq<Event>): nat {
    if es == [] then 0
    else StepCount(es[..|es| - 1]) + if es[|es| - 1].Step? then 1 else 0
  }

  ghost predicate NoNewCalls(es: seq<Event>) {
    forall i :: 0 <= i < |es| ==> !es[i].Begin?
  }

  /** However the agents are interleaved and however often they spin, the calls in flight take at most Measure steps. */
  lemma {:induction false} RunsWithoutNewCallsAreBounded(s: State, es: seq<Event>)
    requires Inv(s) && NoNewCalls(es) && Exec(s, es).Some?
    ensures StepCount(es) + Measure(Exec(s, es).value) <= Measure(s)
    ensures 0 <= Measure(Exec(s, es).value)
  {
    if es == [] {
      forall b | 0 <= b < |s.agents|
        ensures InRange(s.agents[b], |s.queues|)
      {
        assert AgentOk(s, b);
      }
      TotalIsNotNegative(s.agents, |s.queues|, |s.created|);
    } else {
      var before := es[..|es| - 1];
      assert forall i :: 0 <= i < |before| ==> before[i] == es[i];
      RunsWithoutNewCallsAreBounded(s, before);
      RunInv(s, before);
      assert !es[|es| - 1].Begin?;
      if es[|es| - 1].Step? {
        StepUsesUpWork(Exec(s, before).value, es[|es| - 1].a);
      }
    }
  }

  ghost predicate Quiet(s: State) {
    forall a :: 0 <= a < |s.agents| ==> s.agents[a].Idle?
  }

  /** Without new calls, some run leads from s to s'. */
  ghost predicate Leads(s: State, s': State) {
    exists es :: NoNewCalls(es) && Exec(s, es) == Some(s')
  }

  lemma LeadsNowhere(s: State)
    ensures Leads(s, s)
  {
    assert NoNewCalls([]) && Exec(s, []) == Some(s);
  }

  lemma LeadsFurther(s: State, u: State, a: nat)
    requires Leads(s, u) && CanStep(u, a)
    ensures Leads(s, Next(u, Step(a)))
  {
    var es :| NoNewCalls(es) && Exec(s, es) == Some(u);
    var longer := es + [Step(a)];
    assert longer[..|longer| - 1] == es;
    assert NoNewCalls(longer) && Exec(s, longer) == Some(Next(u, Step(a)));
  }

  lemma StepsUntilQuiet(s: State, u: State) returns (v: State)
    requires Leads(s, u) && Inv(u)
    ensures Leads(s, v) && Inv(v) && Quiet(v)
    decreases Measure(u)
  {
    if a :| 0 <= a < |u.agents| && !u.agents[a].Idle? {
      var b := SomebodyCanStep(u, a);
      StepUsesUpWork(u, b);
      LeadsFurther(s, u, b);
      NextInv(u, Step(b));
      v := StepsUntilQuiet(s, Next(u, Step(b)));
    } else {
      v := u;
    }
  }

  lemma QuietMeansUnlocked(s: State, k: nat)
    requires Inv(s) && Quiet(s) && k < |s.queues|
    ensures s.queues[k].owner.None?
  {
    assert QueueOk(s, k);
  }

  lemma CallsComplete(s: State) returns (v: State)
    requires Inv(s)
    ensures Leads(s, v) && Quiet(v)
    ensures forall k :: 0 <= k < |v.queues| ==> v.queues[k].owner.None?
  {
    LeadsNowhere(s);
    v := StepsUntilQuiet(s, s);
    forall k | 0 <= k < |v.queues|
      ensures v.queues[k].owner.None?
    {
      QuietMeansUnlocked(v, k);
    }
  }

  /**
   * From every state a run reaches, letting the agents go on, without any new
   * call, can end with every call in flight complete and every lock free.
   */
  lemma EveryCallCanComplete(cores: nat, agents: nat, es: seq<Event>) returns (v: State)
    requires Exec(Init(cores, agents), es).Some?
    ensures Leads(Exec(Init(cores, agents), es).value, v) && Quiet(v)
    ensures forall k :: 0 <= k < |v.queues| ==> v.queues[k].owner.None?
  {
    var start := Init(cores, agents);
    InitInv(cores, agents);
    RunInv(start, es);
    v := CallsComplete(Exec(start, es).value);
  }
}
