/**
 * What the scans of `least_loaded_core` and `busiest_core` settle on while other
 * agents change the counters: the choice is right for the values that were read,
 * one per queue, each at its own moment.
 */
module SchedulerScans {
  import opened Common
  import opened SchedulerMachine

  predicate Scanning(pc: Pc) {
    pc.SpawnScan? || pc.VictimScan?
  }

  /**
   * The counters agent a has read in its current scan, or in the one it has just
   * ended: at each step of the scan, the counter of the next queue in order.
   */
  ghost function Reads(s: State, es: seq<Event>, a: nat): seq<int>
    requires Exec(s, es).Some?
  {
    if es == [] then []
    else
      var before, e := es[..|es| - 1], es[|es| - 1];
      var u := Exec(s, before).value;
      if e.Spin? || e.a != a then Reads(s, before, a)
      else if e.Step? && Scanning(u.agents[a]) then
        var seen := Reads(s, before, a);
        if |seen| < |u.queues| then seen + [u.queues[|seen|].len] else seen
      else []
  }

  /** The first of the least values; 0 if none is below u64::MAX, where the scan starts. */
  ghost predicate FirstLeast(seen: seq<int>, core: nat) {
    if forall j :: 0 <= j < |seen| ==> seen[j] >= U64_MAX then core == 0
    else
      && core < |seen|
      && (forall j :: 0 <= j < |seen| ==> seen[core] <= seen[j])
      && (forall j :: 0 <= j < core ==> seen[core] < seen[j])
  }

  /** The first of the greatest values other than the thief's own; None if none of them is above one. */
  ghost predicate FirstGreatest(seen: seq<int>, thief: nat, victim: Option<nat>) {
    match victim
    case None => forall j :: 0 <= j < |seen| && j != thief ==> seen[j] <= 1
    case Some(v) =>
      && v < |seen| && v != thief && seen[v] > 1
      && (forall j :: 0 <= j < |seen| && j != thief ==> seen[j] <= seen[v])
      && (forall j :: 0 <= j < v && j != thief ==> seen[j] < seen[v])
  }

  /** The locals of a scan agree with the values it has read. */
  ghost predicate ScanOk(pc: Pc, seen: seq<int>, n: nat) {
    match pc
    case SpawnScan(_, i, minLoad, minCore) =>
      && |seen| == i < n && FirstLeast(seen, minCore)
      && minLoad == if minCore < |seen| && seen[minCore] < U64_MAX then seen[minCore] else U64_MAX
    case VictimScan(c, i, maxLoad, maxCore) =>
      && |seen| == i < n && FirstGreatest(seen, c, maxCore)
      && maxLoad == if maxCore.Some? then seen[maxCore.value] else 1
    case _ => true
  }

  /** Where a scan goes once it has read every counter. */
  ghost predicate Settled(pc: Pc, pc': Pc, seen: seq<int>, n: nat) {
    && |seen| == n
    && match pc
       case SpawnScan(t, _, _, _) => pc'.WantPush? && pc' == WantPush(pc'.core, t, Finish) && FirstLeast(seen, pc'.core)
       case VictimScan(c, _, _, _) =>
         if pc'.WantSteal? then pc'.core == c && FirstGreatest(seen, c, Some(pc'.victim))
         else pc'.Idle? && FirstGreatest(seen, c, None)
       case _ => true
  }

  lemma SpawnScanReads(me: nat, n: nat, pc: Pc, q: Queue, seen: seq<int>)
    requires pc.SpawnScan? && ScanOk(pc, seen, n)
    ensures var (pc', q', out) := Act(me, n, pc, q);
      && q' == q && out == None
      && if |seen| + 1 < n then pc'.SpawnScan? && pc'.task == pc.task && ScanOk(pc', seen + [q.len], n)
         else Settled(pc, pc', seen + [q.len], n)
  {
  }

  lemma VictimScanReads(me: nat, n: nat, pc: Pc, q: Queue, seen: seq<int>)
    requires pc.VictimScan? && ScanOk(pc, seen, n)
    ensures var (pc', q', out) := Act(me, n, pc, q);
      && q' == q && out == None
      && if |seen| + 1 < n then pc'.VictimScan? && pc'.core == pc.core && ScanOk(pc', seen + [q.len], n)
         else Settled(pc, pc', seen + [q.len], n)
  {
  }

  lemma OtherStepsBeginScans(me: nat, n: nat, pc: Pc, q: Queue)
    requires !pc.Idle? && !Scanning(pc) && Target(pc) < n
    ensures ScanOk(Act(me, n, pc, q).0, [], n)
  {
  }

  /** An agent's step, if it was scanning: one more value read, and the scan goes on or settles. */
  lemma ScanStep(s: State, a: nat, seen: seq<int>)
    requires CanStep(s, a) && Scanning(s.agents[a]) && ScanOk(s.agents[a], seen, |s.queues|)
    ensures |seen| < |s.queues|
    ensures var pc', seen' := Next(s, Step(a)).agents[a], seen + [s.queues[|seen|].len];
      ScanOk(pc', seen', |s.queues|) && (Scanning(pc') || Settled(s.agents[a], pc', seen', |s.queues|))
  {
    var pc := s.agents[a];
    if pc.SpawnScan? {
      SpawnScanReads(a, |s.queues|, pc, s.queues[|seen|], seen);
    } else {
      VictimScanReads(a, |s.queues|, pc, s.queues[|seen|], seen);
    }
  }

  lemma NonScanStep(s: State, a: nat)
    requires CanStep(s, a) && !Scanning(s.agents[a])
    ensures ScanOk(Next(s, Step(a)).agents[a], [], |s.queues|)
  {
    OtherStepsBeginScans(a, |s.queues|, s.agents[a], s.queues[Target(s.agents[a])]);
  }

  lemma {:induction false} ScansAgreeWithReads(cores: nat, agents: nat, es: seq<Event>, a: nat)
    requires Exec(Init(cores, agents), es).Some? && a < agents
    ensures var s := Exec(Init(cores, agents), es).value;
      |s.queues| == cores && |s.agents| == agents && ScanOk(s.agents[a], Reads(Init(cores, agents), es, a), cores)
  {
    if es != [] {
      var before, e := es[..|es| - 1], es[|es| - 1];
      var u := Exec(Init(cores, agents), before).value;
      ScansAgreeWithReads(cores, agents, before, a);
      if e == Step(a) {
        if Scanning(u.agents[a]) {
          ScanStep(u, a, Reads(Init(cores, agents), before, a));
        } else {
          NonScanStep(u, a);
        }
      }
    }
  }

  /**
   * In every run, whatever the other agents do meanwhile, a scan that ends has read the
   * counter of every queue once.  A spawn goes on to push its task to the first queue
   * whose value was least; a thief to rob the first other queue whose value was
   * greatest, or to give up if and only if none of those values was above one.
   */
  lemma ScansSettleOnReads(cores: nat, agents: nat, es: seq<Event>, a: nat)
    requires es != [] && es[|es| - 1] == Step(a) && Exec(Init(cores, agents), es).Some?
    requires var u := Exec(Init(cores, agents), es[..|es| - 1]).value;
      a < |u.agents| && Scanning(u.agents[a]) && !Scanning(Exec(Init(cores, agents), es).value.agents[a])
    ensures var u, s := Exec(Init(cores, agents), es[..|es| - 1]).value, Exec(Init(cores, agents), es).value;
      && |u.queues| == cores
      && Settled(u.agents[a], s.agents[a], Reads(Init(cores, agents), es, a), cores)
      && s.queues == u.queues && s.handed == u.handed
  {
    var before := es[..|es| - 1];
    var u := Exec(Init(cores, agents), before).value;
    RunKeepsSize(cores, agents, before);
    ScansAgreeWithReads(cores, agents, before, a);
    ScanStep(u, a, Reads(Init(cores, agents), before, a));
    ScanChangesNothing(u, a);
  }

  lemma RunKeepsSize(cores: nat, agents: nat, es: seq<Event>)
    requires Exec(Init(cores, agents), es).Some?
    ensures |Exec(Init(cores, agents), es).value.queues| == cores
    ensures |Exec(Init(cores, agents), es).value.agents| == agents
  {
    InitInv(cores, agents);
    RunInv(Init(cores, agents), es);
  }

  lemma ScanChangesNothing(s: State, a: nat)
    requires CanStep(s, a) && Scanning(s.agents[a])
    ensures Next(s, Step(a)).queues == s.queues && Next(s, Step(a)).handed == s.handed
  {
  }
}
