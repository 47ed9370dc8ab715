/**
 * What the scheduler's operations guarantee over whole histories, with each call
 * of `schedule` and each placement taken as one step.
 */
module SchedulerProperties {
  import opened Common
  import opened Pools
  import opened RunQueues
  import opened Schedulers

  // -------------------------------------------------------------------------
  // Placement and victim choice
  // -------------------------------------------------------------------------

  ghost predicate Addressable<T>(qs: seq<seq<T>>) {
    forall i :: 0 <= i < |qs| ==> |qs[i]| <= U64_MAX
  }

  lemma {:induction false} LeastLoadedScan<T>(qs: seq<seq<T>>, n: nat)
    requires n <= |qs|
    ensures match LeastLoadedUpTo(qs, n)
      case None => forall i :: 0 <= i < n ==> |qs[i]| >= U64_MAX
      case Some(m) =>
        && (forall i :: 0 <= i < n ==> |qs[m]| <= |qs[i]|)
        && (forall i :: 0 <= i < m ==> |qs[m]| < |qs[i]|)
  {
    if n > 0 {
      LeastLoadedScan(qs, n - 1);
    }
  }

  /** Unpinned tasks go to the first of the shortest queues. */
  lemma LeastLoadedIsFirstShortest<T>(qs: seq<seq<T>>)
    requires qs != [] && Addressable(qs)
    ensures var m := LeastLoaded(qs);
      && m < |qs|
      && (forall i :: 0 <= i < |qs| ==> |qs[m]| <= |qs[i]|)
      && (forall i :: 0 <= i < m ==> |qs[m]| < |qs[i]|)
  {
    LeastLoadedScan(qs, |qs|);
  }

  lemma {:induction false} BusiestScan<T>(qs: seq<seq<T>>, thief: nat, n: nat)
    requires n <= |qs|
    ensures match BusiestUpTo(qs, thief, n)
      case None => forall i :: 0 <= i < n && i != thief ==> |qs[i]| <= 1
      case Some(v) =>
        && (forall i :: 0 <= i < n && i != thief ==> |qs[i]| <= |qs[v]|)
        && (forall i :: 0 <= i < v && i != thief ==> |qs[i]| < |qs[v]|)
  {
    if n > 0 {
      BusiestScan(qs, thief, n - 1);
    }
  }

  /** The victim is the first of the longest other queues, if any has two tasks. */
  lemma BusiestIsFirstLongest<T>(qs: seq<seq<T>>, thief: nat)
    ensures match Busiest(qs, thief)
      case None => forall i :: 0 <= i < |qs| && i != thief ==> |qs[i]| <= 1
      case Some(v) =>
        && v < |qs| && v != thief && |qs[v]| > 1
        && (forall i :: 0 <= i < |qs| && i != thief ==> |qs[i]| <= |qs[v]|)
        && (forall i :: 0 <= i < v && i != thief ==> |qs[i]| < |qs[v]|)
  {
    BusiestScan(qs, thief, |qs|);
  }

  lemma {:induction false} FewTasks<T>(qs: seq<seq<T>>, c: nat, n: nat)
    requires n <= |qs| && c < |qs| && qs[c] == []
    requires forall i :: 0 <= i < |qs| ==> |qs[i]| <= 1
    ensures TotalLength(qs[..n]) <= if c < n then n - 1 else n
  {
    if n > 0 {
      FewTasks(qs, c, n - 1);
      assert qs[..n][..n - 1] == qs[..n - 1];
    }
  }

  /**
   * Work conservation: `schedule` comes back empty-handed exactly when the caller's
   * queue is empty and no other queue has two tasks, hence with fewer tasks queued than cores.
   */
  lemma IdleIffNothingToSteal<T>(qs: seq<seq<T>>, c: nat)
    requires c < |qs|
    ensures Dispatched(qs, c).None? <==> qs[c] == [] && forall i :: 0 <= i < |qs| && i != c ==> |qs[i]| <= 1
    ensures Dispatched(qs, c).None? ==> AfterSchedule(qs, c) == qs && TotalLength(qs) <= |qs| - 1
  {
    BusiestIsFirstLongest(qs, c);
    if Dispatched(qs, c).None? {
      FewTasks(qs, c, |qs|);
      assert qs[..|qs|] == qs;
    }
  }

  /** The exact effect of a steal: the newest task runs, the rest of the half is queued in reverse. */
  lemma StealReversesBackHalf<T>(qs: seq<seq<T>>, c: nat, v: nat)
    requires c < |qs| && qs[c] == [] && Busiest(qs, c) == Some(v)
    ensures var n, k := |qs[v]|, |qs[v]| / 2;
      && Dispatched(qs, c) == Some(qs[v][n - 1])
      && AfterSchedule(qs, c)[v] == qs[v][..n - k]
      && |AfterSchedule(qs, c)[c]| == k - 1
      && (forall j :: 0 <= j < k - 1 ==> AfterSchedule(qs, c)[c][j] == qs[v][n - 2 - j])
      && (forall i :: 0 <= i < |qs| && i != c && i != v ==> AfterSchedule(qs, c)[i] == qs[i])
  {
  }

  lemma PopConserves<T>(qs: seq<seq<T>>, c: nat)
    requires c < |qs| && qs[c] != []
    ensures Pool(qs[c := qs[c][1..]]) + multiset{qs[c][0]} == Pool(qs)
  {
    var rest := qs[c][1..];
    PoolUpdate(qs, c, rest);
    assert qs[c] == [qs[c][0]] + rest;
    assert multiset(qs[c]) == multiset{qs[c][0]} + multiset(rest);
    Cancel(Pool(qs[c := rest]) + multiset{qs[c][0]}, Pool(qs), multiset(rest)) by {
      assert Pool(qs[c := rest]) + multiset{qs[c][0]} + multiset(rest) == Pool(qs[c := rest]) + multiset(qs[c]);
    }
  }

  lemma StealConserves<T>(qs: seq<seq<T>>, c: nat, v: nat, taken: seq<T>)
    requires c < |qs| && v < |qs| && c != v && qs[c] == [] && taken == Stolen(qs[v]) && taken != []
    ensures Pool(qs[v := LeftBehind(qs[v])][c := taken[1..]]) + multiset{taken[0]} == Pool(qs)
  {
    var left := LeftBehind(qs[v]);
    var robbed := qs[v := left];
    PoolUpdate(qs, v, left);
    PoolUpdate(robbed, c, taken[1..]);
    StealSplits(qs[v]);
    assert taken == [taken[0]] + taken[1..];
    assert robbed[c] == [] && multiset(robbed[c]) == multiset{};
    TakeAndKeep(Pool(qs), Pool(robbed), Pool(robbed[c := taken[1..]]), multiset(qs[v]),
                multiset(left), multiset(taken), multiset(taken[1..]), multiset{taken[0]});
  }

  /** No call loses or copies a task. */
  lemma ScheduleConserves<T>(qs: seq<seq<T>>, c: nat)
    requires c < |qs|
    ensures Pool(AfterSchedule(qs, c)) + Bag(Dispatched(qs, c)) == Pool(qs)
  {
    if qs[c] != [] {
      PopConserves(qs, c);
    } else {
      match Busiest(qs, c)
      case None =>
      case Some(v) => StealConserves(qs, c, v, Stolen(qs[v]));
    }
  }

  // -------------------------------------------------------------------------
  // Bounded waiting
  // -------------------------------------------------------------------------

  datatype Place = Place(core: nat, index: nat)

  /** One step of a history: a task placed by spawn, wake or preemption, or a call of schedule. */
  datatype Event<T> = Arrive(core: nat, task: T) | Call(core: nat)

  predicate InRange<T>(n: nat, es: seq<Event<T>>) {
    forall i :: 0 <= i < |es| ==> es[i].core < n
  }

  predicate IsPlace<T>(qs: seq<seq<T>>, p: Place) {
    p.core < |qs| && p.index < |qs[p.core]|
  }

  function At<T>(qs: seq<seq<T>>, p: Place): T
    requires IsPlace(qs, p)
  {
    qs[p.core][p.index]
  }

  function After<T>(qs: seq<seq<T>>, e: Event<T>): (qs': seq<seq<T>>)
    requires e.core < |qs|
    ensures |qs'| == |qs|
  {
    match e
    case Arrive(core, task) => AfterPush(qs, core, task)
    case Call(core) => AfterSchedule(qs, core)
  }

  function Result<T>(qs: seq<seq<T>>, e: Event<T>): Option<T>
    requires e.core < |qs|
  {
    match e
    case Arrive(_, _) => None
    case Call(core) => Dispatched(qs, core)
  }

  /** Where the task at p is after the step; None if the step returned it. */
  function Track<T>(qs: seq<seq<T>>, e: Event<T>, p: Place): Option<Place>
    requires e.core < |qs| && IsPlace(qs, p)
  {
    if e.Arrive? then Some(p)
    else if qs[e.core] != [] then
      if p.core != e.core then Some(p)
      else if p.index == 0 then None else Some(Place(p.core, p.index - 1))
    else
      var n := |qs[p.core]|;
      if Busiest(qs, e.core) != Some(p.core) || p.index < n - StealCount(n) then Some(p)
      else if p.index == n - 1 then None else Some(Place(e.core, n - 2 - p.index))
  }

  /** The step works for the task at p: its own core calls schedule, or a thief takes it. */
  predicate Serves<T>(qs: seq<seq<T>>, e: Event<T>, p: Place)
    requires e.core < |qs| && IsPlace(qs, p)
  {
    e.Call? && (e.core == p.core || Track(qs, e, p) != Some(p))
  }

  /** Tracking follows the task itself, and no step moves a task back. */
  lemma TrackFollows<T>(qs: seq<seq<T>>, e: Event<T>, p: Place)
    requires e.core < |qs| && IsPlace(qs, p)
    ensures match Track(qs, e, p)
      case None => Result(qs, e) == Some(At(qs, p)) && Serves(qs, e, p)
      case Some(p') =>
        && IsPlace(After(qs, e), p') && At(After(qs, e), p') == At(qs, p)
        && p'.index <= p.index
        && (e.Call? && e.core == p.core ==> p'.index < p.index)
        && (Serves(qs, e, p) ==> p'.index < p.index)
        && (p'.core != p.core ==> p'.index + 2 <= p.index)
  {
    if e.Call? && qs[e.core] == [] && Busiest(qs, e.core) == Some(p.core) {
      StealReversesBackHalf(qs, e.core, p.core);
    }
  }

  /** Two queued tasks are never tracked to the same place, nor returned by the same call. */
  lemma TrackIsInjective<T>(qs: seq<seq<T>>, e: Event<T>, p: Place, q: Place)
    requires e.core < |qs| && IsPlace(qs, p) && IsPlace(qs, q) && p != q
    ensures Track(qs, e, p) != Track(qs, e, q)
  {
  }

  function AfterAll<T>(qs: seq<seq<T>>, es: seq<Event<T>>): (qs': seq<seq<T>>)
    requires InRange(|qs|, es)
    ensures |qs'| == |qs|
    decreases es
  {
    if es == [] then qs else AfterAll(After(qs, es[0]), es[1..])
  }

  function Results<T>(qs: seq<seq<T>>, es: seq<Event<T>>): seq<Option<T>>
    requires InRange(|qs|, es)
    decreases es
  {
    if es == [] then [] else [Result(qs, es[0])] + Results(After(qs, es[0]), es[1..])
  }

  /** Where the task at p is after the whole history. */
  function TrackAll<T>(qs: seq<seq<T>>, es: seq<Event<T>>, p: Place): Option<Place>
    requires InRange(|qs|, es) && IsPlace(qs, p)
    decreases es
  {
    if es == [] then Some(p)
    else
      TrackFollows(qs, es[0], p);
      match Track(qs, es[0], p)
      case None => None
      case Some(p') => TrackAll(After(qs, es[0]), es[1..], p')
  }

  /** How many steps of the history work for the task at p, up to the one that returns it. */
  function Services<T>(qs: seq<seq<T>>, es: seq<Event<T>>, p: Place): nat
    requires InRange(|qs|, es) && IsPlace(qs, p)
    decreases es
  {
    if es == [] then 0
    else
      TrackFollows(qs, es[0], p);
      (if Serves(qs, es[0], p) then 1 else 0) +
      match Track(qs, es[0], p)
      case None => 0
      case Some(p') => Services(After(qs, es[0]), es[1..], p')
  }

  /**
   * Bounded waiting, whatever else arrives and whoever steals: the position of a
   * queued task never grows, each service brings it forward, and so a task with
   * p others ahead is returned by the (p+1)-st service at the latest.
   */
  lemma {:induction false} BoundedWaiting<T>(qs: seq<seq<T>>, es: seq<Event<T>>, p: Place)
    requires InRange(|qs|, es) && IsPlace(qs, p)
    ensures match TrackAll(qs, es, p)
      case None => Some(At(qs, p)) in Results(qs, es)
      case Some(p') =>
        && IsPlace(AfterAll(qs, es), p') && At(AfterAll(qs, es), p') == At(qs, p)
        && p'.index + Services(qs, es, p) <= p.index
    ensures Services(qs, es, p) >= p.index + 1 ==> Some(At(qs, p)) in Results(qs, es)
    ensures Services(qs, es, p) <= p.index + 1
    decreases es
  {
    if es != [] {
      TrackFollows(qs, es[0], p);
      match Track(qs, es[0], p)
      case None =>
      case Some(p') => BoundedWaiting(After(qs, es[0]), es[1..], p');
    }
  }

  // -------------------------------------------------------------------------
  // Draining
  // -------------------------------------------------------------------------

  /** Every core calls schedule exactly once, in any order. */
  ghost predicate IsRound(order: seq<nat>, n: nat) {
    && (forall i :: 0 <= i < |order| ==> order[i] < n)
    && (forall i, j :: 0 <= i < j < |order| ==> order[i] != order[j])
    && (forall c: nat :: c < n ==> c in order)
  }

  function AfterCalls<T>(qs: seq<seq<T>>, cs: seq<nat>): (qs': seq<seq<T>>)
    requires forall i :: 0 <= i < |cs| ==> cs[i] < |qs|
    ensures |qs'| == |qs|
    decreases cs
  {
    if cs == [] then qs else AfterCalls(AfterSchedule(qs, cs[0]), cs[1..])
  }

  /** The tasks returned by the calls. */
  ghost function ReturnedBy<T>(qs: seq<seq<T>>, cs: seq<nat>): multiset<T>
    requires forall i :: 0 <= i < |cs| ==> cs[i] < |qs|
    decreases cs
  {
    if cs == [] then multiset{}
    else Bag(Dispatched(qs, cs[0])) + ReturnedBy(AfterSchedule(qs, cs[0]), cs[1..])
  }

  lemma {:induction false} CallsConserve<T>(qs: seq<seq<T>>, cs: seq<nat>)
    requires forall i :: 0 <= i < |cs| ==> cs[i] < |qs|
    ensures Pool(AfterCalls(qs, cs)) + ReturnedBy(qs, cs) == Pool(qs)
    decreases cs
  {
    if cs != [] {
      ScheduleConserves(qs, cs[0]);
      CallsConserve(AfterSchedule(qs, cs[0]), cs[1..]);
    }
  }

  /** A call shortens the caller's queue, or leaves it short, and lengthens nobody else's. */
  lemma CallShortens<T>(qs: seq<seq<T>>, c: nat, bound: nat)
    requires c < |qs| && forall i :: 0 <= i < |qs| ==> |qs[i]| <= bound + 1
    ensures |AfterSchedule(qs, c)[c]| <= bound
    ensures forall i :: 0 <= i < |qs| && i != c ==> |AfterSchedule(qs, c)[i]| <= |qs[i]|
  {
  }

  /** A call empties nobody else's queue. */
  lemma CallLeavesOthersBusy<T>(qs: seq<seq<T>>, c: nat, i: nat)
    requires c < |qs| && i < |qs| && i != c && qs[i] != []
    ensures AfterSchedule(qs, c)[i] != []
  {
    StealSplits(qs[i]);
  }

  lemma {:induction false} RoundShortens<T>(qs: seq<seq<T>>, cs: seq<nat>, bound: nat)
    requires forall i :: 0 <= i < |cs| ==> cs[i] < |qs|
    requires forall i :: 0 <= i < |qs| ==> |qs[i]| <= bound + 1
    requires forall i :: 0 <= i < |qs| && i !in cs ==> |qs[i]| <= bound
    ensures forall i :: 0 <= i < |qs| ==> |AfterCalls(qs, cs)[i]| <= bound
    decreases cs
  {
    if cs != [] {
      CallShortens(qs, cs[0], bound);
      var qs' := AfterSchedule(qs, cs[0]);
      forall i | 0 <= i < |qs| && i !in cs[1..]
        ensures |qs'[i]| <= bound
      {
        assert i == cs[0] || i !in cs;
      }
      RoundShortens(qs', cs[1..], bound);
    }
  }

  /** In a round, every core that starts it with a task returns one: steals always leave at least one. */
  lemma {:induction false} BusyCoreReturnsTask<T>(qs: seq<seq<T>>, order: seq<nat>, i: nat)
    requires forall k :: 0 <= k < |order| ==> order[k] < |qs|
    requires forall k, l :: 0 <= k < l < |order| ==> order[k] != order[l]
    requires i < |order| && qs[order[i]] != []
    ensures Dispatched(AfterCalls(qs, order[..i]), order[i]).Some?
    decreases i
  {
    if i > 0 {
      CallLeavesOthersBusy(qs, order[0], order[i]);
      BusyCoreReturnsTask(AfterSchedule(qs, order[0]), order[1..], i - 1);
      assert order[1..][..i - 1] == order[..i][1..];
    }
  }

  ghost function AfterRounds<T>(qs: seq<seq<T>>, rounds: seq<seq<nat>>): (qs': seq<seq<T>>)
    requires forall r :: 0 <= r < |rounds| ==> IsRound(rounds[r], |qs|)
    ensures |qs'| == |qs|
    decreases rounds
  {
    if rounds == [] then qs
    else
      assert IsRound(rounds[0], |qs|);
      AfterRounds(AfterCalls(qs, rounds[0]), rounds[1..])
  }

  ghost function ReturnedInRounds<T>(qs: seq<seq<T>>, rounds: seq<seq<nat>>): multiset<T>
    requires forall r :: 0 <= r < |rounds| ==> IsRound(rounds[r], |qs|)
    decreases rounds
  {
    if rounds == [] then multiset{}
    else
      assert IsRound(rounds[0], |qs|);
      ReturnedBy(qs, rounds[0]) + ReturnedInRounds(AfterCalls(qs, rounds[0]), rounds[1..])
  }

  /**
   * With no new arrivals, as many rounds as the longest queue is long return every
   * queued task, each exactly once, whatever the order of calls within a round.
   */
  lemma {:induction false} RoundsDrainEverything<T>(qs: seq<seq<T>>, rounds: seq<seq<nat>>)
    requires forall r :: 0 <= r < |rounds| ==> IsRound(rounds[r], |qs|)
    requires forall i :: 0 <= i < |qs| ==> |qs[i]| <= |rounds|
    ensures forall i :: 0 <= i < |qs| ==> AfterRounds(qs, rounds)[i] == []
    ensures ReturnedInRounds(qs, rounds) == Pool(qs)
    decreases rounds
  {
    if rounds == [] {
      EmptyPool(qs);
    } else {
      CallsConserve(qs, rounds[0]);
      RoundShortens(qs, rounds[0], |rounds| - 1);
      RoundsDrainEverything(AfterCalls(qs, rounds[0]), rounds[1..]);
    }
  }

  // -------------------------------------------------------------------------
  // Placement of unpinned tasks
  // -------------------------------------------------------------------------

  /** `spawn` of an unpinned task. */
  function AfterSpawn<T>(qs: seq<seq<T>>, task: T): seq<seq<T>>
    requires qs != []
  {
    AfterPush(qs, LeastLoaded(qs), task)
  }

  /** One spawn never widens the gap between longest and shortest beyond one. */
  lemma SpawnKeepsBalance<T>(qs: seq<seq<T>>, task: T, gap: nat)
    requires qs != [] && Addressable(qs)
    requires gap >= 1 && forall i, j :: 0 <= i < |qs| && 0 <= j < |qs| ==> |qs[i]| - |qs[j]| <= gap
    ensures var qs' := AfterSpawn(qs, task);
      forall i, j :: 0 <= i < |qs'| && 0 <= j < |qs'| ==> |qs'[i]| - |qs'[j]| <= gap
  {
    LeastLoadedIsFirstShortest(qs);
  }

  /** Spawning the tasks one after another into n empty queues. */
  function Deal<T>(n: nat, tasks: seq<T>): (qs: seq<seq<T>>)
    requires n > 0
    ensures |qs| == n
  {
    if tasks == [] then seq(n, _ => [])
    else AfterSpawn(Deal(n, tasks[..|tasks| - 1]), tasks[|tasks| - 1])
  }

  /** Every n-th task from the i-th on. */
  function Stride<T>(tasks: seq<T>, n: nat, i: nat): seq<T>
    requires n > 0
    decreases |tasks| - i
  {
    if i >= |tasks| then [] else [tasks[i]] + Stride(tasks, n, i + n)
  }

  /** The stride that starts at i visits position k. */
  predicate Visits(n: nat, i: nat, k: nat)
    requires n > 0
    decreases k - i
  {
    i == k || (i < k && Visits(n, i + n, k))
  }

  lemma {:induction false} StrideExtends<T>(tasks: seq<T>, x: T, n: nat, i: nat)
    requires n > 0
    ensures Stride(tasks + [x], n, i) == Stride(tasks, n, i) + if Visits(n, i, |tasks|) then [x] else []
    decreases |tasks| - i
  {
    if i < |tasks| {
      StrideExtends(tasks, x, n, i + n);
    } else if i == |tasks| {
      assert Stride(tasks + [x], n, i + n) == [];
    }
  }

  /** After `left` more full rounds, a stride standing at j visits position k iff it belongs to queue `turn`. */
  lemma {:induction false} VisitsOnTurn(n: nat, i: nat, turn: nat, j: nat, left: nat, k: nat)
    requires i < n && turn < n && k + i == j + left * n + turn
    ensures Visits(n, j, k) <==> i == turn
    decreases left
  {
    if left > 0 {
      assert left * n == (left - 1) * n + n;
      assert (left - 1) * n >= 0;
      VisitsOnTurn(n, i, turn, j + n, left - 1, k);
    } else if j < k {
      assert !Visits(n, j + n, k);
    }
  }

  /** The queues after `rounds` full rounds and `turn` more tasks have been dealt. */
  ghost predicate DealtTo<T>(qs: seq<seq<T>>, tasks: seq<T>, n: nat, rounds: nat, turn: nat)
    requires n > 0
  {
    && |qs| == n && turn < n && |tasks| == rounds * n + turn
    && (forall i :: 0 <= i < n ==> |qs[i]| == rounds + if i < turn then 1 else 0)
    && (forall i :: 0 <= i < n ==> qs[i] == Stride(tasks, n, i))
  }

  lemma FullRounds(n: nat, rounds: nat)
    requires n > 0
    ensures rounds <= rounds * n && (rounds + 1) * n == rounds * n + n
  {
  }

  lemma NextTurn<T>(qs: seq<seq<T>>, n: nat, rounds: nat, turn: nat)
    requires |qs| == n && turn < n && rounds < U64_MAX
    requires forall i :: 0 <= i < n ==> |qs[i]| == rounds + if i < turn then 1 else 0
    ensures LeastLoaded(qs) == turn
  {
    LeastLoadedIsFirstShortest(qs);
    assert |qs[turn]| == rounds && |qs[LeastLoaded(qs)]| <= rounds;
  }

  lemma MoreRoundsMoreTasks(few: nat, many: nat, n: nat)
    requires few <= many
    ensures few * n <= many * n
  {
    assert (many - few) * n >= 0;
  }

  lemma RoundsInRange(n: nat, rounds: nat, turn: nat, limit: nat)
    requires rounds * n + turn < n * limit
    ensures rounds < limit
  {
    if limit <= rounds {
      MoreRoundsMoreTasks(limit, rounds, n);
    }
  }

  lemma DealOneMore<T>(qs: seq<seq<T>>, tasks: seq<T>, x: T, n: nat, rounds: nat, turn: nat)
    requires n > 0 && |tasks| < n * U64_MAX && DealtTo(qs, tasks, n, rounds, turn)
    ensures DealtTo(AfterSpawn(qs, x), tasks + [x], n,
                    if turn + 1 == n then rounds + 1 else rounds, if turn + 1 == n then 0 else turn + 1)
  {
    FullRounds(n, rounds);
    RoundsInRange(n, rounds, turn, U64_MAX);
    NextTurn(qs, n, rounds, turn);
    var qs' := AfterSpawn(qs, x);
    forall i | 0 <= i < n
      ensures qs'[i] == Stride(tasks + [x], n, i)
    {
      StrideExtends(tasks, x, n, i);
      VisitsOnTurn(n, i, turn, i, rounds, |tasks|);
    }
  }

  /** Round robin: queue i ends up holding exactly the tasks i, i + n, i + 2n, ... in spawn order. */
  lemma {:induction false} SpawnsAreDealtRoundRobin<T>(n: nat, tasks: seq<T>) returns (rounds: nat, turn: nat)
    requires n > 0 && |tasks| <= n * U64_MAX
    ensures |tasks| == rounds * n + turn && turn < n
    ensures forall i :: 0 <= i < n ==> |Deal(n, tasks)[i]| == rounds + if i < turn then 1 else 0
    ensures forall i :: 0 <= i < n ==> Deal(n, tasks)[i] == Stride(tasks, n, i)
  {
    if tasks == [] {
      rounds, turn := 0, 0;
    } else {
      var most := tasks[..|tasks| - 1];
      var r, t := SpawnsAreDealtRoundRobin(n, most);
      DealOneMore(Deal(n, most), most, tasks[|tasks| - 1], n, r, t);
      assert most + [tasks[|tasks| - 1]] == tasks;
      rounds, turn := if t + 1 == n then r + 1 else r, if t + 1 == n then 0 else t + 1;
    }
  }

  // -------------------------------------------------------------------------
  // Affinity
  // -------------------------------------------------------------------------

  /** Every pinned task is queued on its own core. */
  ghost predicate RespectsAffinity(qs: seq<seq<Task>>) {
    forall i, j :: 0 <= i < |qs| && 0 <= j < |qs[i]| ==> qs[i][j].affinity.None? || qs[i][j].affinity.value == i
  }

  /** The task may run on the core. */
  predicate AllowedOn(o: Option<Task>, c: nat) {
    o.None? || o.value.affinity.None? || o.value.affinity.value == c
  }

  /** No pinned task is in the half a thief would take. */
  ghost predicate StealTakesNoPinned(qs: seq<seq<Task>>, c: nat)
    requires c < |qs|
  {
    qs[c] == [] && Busiest(qs, c).Some? ==>
      var q := qs[Busiest(qs, c).value];
      forall j :: |q| - |q| / 2 <= j < |q| ==> q[j].affinity.None?
  }

  lemma OwnTaskKeepsAffinity(qs: seq<seq<Task>>, c: nat)
    requires c < |qs| && RespectsAffinity(qs) && (qs[c] != [] || Busiest(qs, c).None?)
    ensures RespectsAffinity(AfterSchedule(qs, c)) && AllowedOn(Dispatched(qs, c), c)
  {
  }

  lemma UnpinnedStealKeepsAffinity(qs: seq<seq<Task>>, c: nat, v: nat)
    requires c < |qs| && RespectsAffinity(qs) && qs[c] == [] && Busiest(qs, c) == Some(v)
    requires StealTakesNoPinned(qs, c)
    ensures RespectsAffinity(AfterSchedule(qs, c)) && AllowedOn(Dispatched(qs, c), c)
  {
    StealReversesBackHalf(qs, c, v);
  }

  lemma PinnedStealBreaksAffinity(qs: seq<seq<Task>>, c: nat, v: nat)
    requires c < |qs| && RespectsAffinity(qs) && qs[c] == [] && Busiest(qs, c) == Some(v)
    requires !StealTakesNoPinned(qs, c)
    ensures !(RespectsAffinity(AfterSchedule(qs, c)) && AllowedOn(Dispatched(qs, c), c))
  {
    var q, qs' := qs[v], AfterSchedule(qs, c);
    StealReversesBackHalf(qs, c, v);
    var j :| |q| - |q| / 2 <= j < |q| && q[j].affinity.Some?;
    assert q[j].affinity.value == v;
    assert j < |q| - 1 ==> qs'[c][|q| - 2 - j] == q[j];
  }

  /**
   * The documented promise that a pinned task only runs on its core is not kept by
   * stealing: a call keeps it exactly when the stolen half holds no pinned task.
   */
  lemma StealKeepsAffinityIff(qs: seq<seq<Task>>, c: nat)
    requires c < |qs| && RespectsAffinity(qs)
    ensures RespectsAffinity(AfterSchedule(qs, c)) && AllowedOn(Dispatched(qs, c), c)
        <==> StealTakesNoPinned(qs, c)
  {
    if qs[c] != [] || Busiest(qs, c).None? {
      OwnTaskKeepsAffinity(qs, c);
    } else if StealTakesNoPinned(qs, c) {
      UnpinnedStealKeepsAffinity(qs, c, Busiest(qs, c).value);
    } else {
      PinnedStealBreaksAffinity(qs, c, Busiest(qs, c).value);
    }
  }

  /** Two tasks pinned to core 0: an idle core 1 steals one and runs it. */
  lemma PinnedTaskCanBeStolen(t: Task, u: Task)
    requires t.affinity == Some(0) && u.affinity == Some(0)
    ensures Dispatched([[t, u], []], 1) == Some(u) && !AllowedOn(Some(u), 1)
  {
    var qs := [[t, u], []];
    BusiestIsFirstLongest(qs, 1);
    assert |qs[0]| == 2;
    assert Busiest(qs, 1) == Some(0);
  }
}
