/**
 * Once: one-time initialisation through a three-state word.  A call loads the
 * word, tries to swap UNINIT for RUNNING, and either runs the closure or waits.
 */
module Onces {
  import opened Common

  const UNINIT := 0
  const RUNNING := 1
  const DONE := 2

  type Tid = nat

  /** `starts` and `finished` record the closure body's observable effects. */
  datatype Shared = Shared(word: nat, starts: nat, finished: bool)

  datatype Pc =
    | Outside        // not in call_once
    | Checked        // the first load did not say DONE
    | Won            // the swap succeeded; the body has not begun
    | InBody
    | BodyOver       // the body returned; DONE not yet stored
    | Spinning
    | Finished

  datatype Action = Check | Swap | BeginBody | EndBody | StoreDone | Poll | CallAgain

  predicate CanAct(pc: Pc, a: Action) {
    match a
    case Check => pc.Outside?
    case Swap => pc.Checked?
    case BeginBody => pc.Won?
    case EndBody => pc.InBody?
    case StoreDone => pc.BodyOver?
    case Poll => pc.Spinning?
    case CallAgain => pc.Finished?
  }

  function Act(m: Shared, pc: Pc, a: Action): (Shared, Pc)
    requires CanAct(pc, a)
  {
    match a
    case Check => (m, if m.word == DONE then Finished else Checked)
    case Swap => if m.word == UNINIT then (m.(word := RUNNING), Won) else (m, Spinning)
    case BeginBody => (m.(starts := m.starts + 1), InBody)
    case EndBody => (m.(finished := true), BodyOver)
    case StoreDone => (m.(word := DONE), Finished)
    case Poll => (m, if m.word == DONE then Finished else Spinning)
    case CallAgain => (m, Outside)
  }

  /** The word of a Once; the closure's own effects are not part of the object. */
  class Once {
    var word: nat
    ghost var starts: nat
    ghost var finished: bool

    constructor ()
      ensures View() == Shared(UNINIT, 0, false)
    {
      word, starts, finished := UNINIT, 0, false;
    }

    ghost function View(): Shared
      reads this
    {
      Shared(word, starts, finished)
    }

    method LoadFirst() returns (done: bool)
      ensures (View(), if done then Finished else Checked) == Act(View(), Outside, Check)
      ensures done <==> word == DONE
    {
      done := word == DONE;
    }

    method CompareExchangeUninit() returns (won: bool)
      modifies this`word
      ensures (View(), if won then Won else Spinning) == Act(old(View()), Checked, Swap)
      ensures won <==> old(word) == UNINIT
      ensures word == if won then RUNNING else old(word)
    {
      won := word == UNINIT;
      if won {
        word := RUNNING;
      }
    }

    method StoreDoneWord()
      modifies this`word
      ensures (View(), Finished) == Act(old(View()), BodyOver, StoreDone)
      ensures word == DONE
    {
      word := DONE;
    }

    method LoadInSpin() returns (done: bool)
      ensures (View(), if done then Finished else Spinning) == Act(View(), Spinning, Poll)
      ensures done <==> word == DONE
    {
      done := word == DONE;
    }
  }

  datatype State = State(mem: Shared, threads: map<Tid, Pc>)

  datatype Event = Event(t: Tid, a: Action)

  const INIT := State(Shared(UNINIT, 0, false), map[])

  function PcOf(s: State, t: Tid): Pc {
    if t in s.threads then s.threads[t] else Outside
  }

  predicate Enabled(s: State, e: Event) {
    CanAct(PcOf(s, e.t), e.a)
  }

  function Next(s: State, e: Event): State
    requires Enabled(s, e)
  {
    var (mem, pc) := Act(s.mem, PcOf(s, e.t), e.a);
    State(mem, s.threads[e.t := pc])
  }

  function Exec(s: State, es: seq<Event>): Option<State> {
    if es == [] then Some(s)
    else
      match Exec(s, es[..|es| - 1])
      case None => None
      case Some(u) =>
        if Enabled(u, es[|es| - 1]) then Some(Next(u, es[|es| - 1])) else None
  }

  /** The thread that won the swap and has not stored DONE yet. */
  predicate Runs(s: State, t: Tid) {
    PcOf(s, t).Won? || PcOf(s, t).InBody? || PcOf(s, t).BodyOver?
  }

  predicate LocalsOk(m: Shared, pc: Pc) {
    match pc
    case Outside => true
    case Checked => true
    case Won => m.word == RUNNING && m.starts == 0 && !m.finished
    case InBody => m.word == RUNNING && m.starts == 1 && !m.finished
    case BodyOver => m.word == RUNNING && m.starts == 1 && m.finished
    case Spinning => m.word != UNINIT
    case Finished => m.word == DONE
  }

  ghost predicate Inv(s: State) {
    && (s.mem.word == UNINIT || s.mem.word == RUNNING || s.mem.word == DONE)
    && (s.mem.word == UNINIT ==> s.mem.starts == 0 && !s.mem.finished)
    && (s.mem.word == DONE ==> s.mem.starts == 1 && s.mem.finished)
    && (s.mem.word == RUNNING <==> exists t :: Runs(s, t))
    && (forall t, u :: Runs(s, t) && Runs(s, u) ==> t == u)
    && (forall t :: LocalsOk(s.mem, PcOf(s, t)))
  }

  lemma StepInv(s: State, e: Event)
    requires Inv(s) && Enabled(s, e)
    ensures Inv(Next(s, e))
    ensures s.mem.word <= Next(s, e).mem.word <= s.mem.word + 1
  {
    var s' := Next(s, e);
    assert LocalsOk(s.mem, PcOf(s, e.t));
    forall t
      ensures t != e.t ==> Runs(s', t) == Runs(s, t)
      ensures LocalsOk(s'.mem, PcOf(s', t))
    {
      assert LocalsOk(s.mem, PcOf(s, t));
      if Runs(s, t) && Runs(s, e.t) {
        assert t == e.t;
      }
    }
    if s'.mem.word == RUNNING {
      if s.mem.word == RUNNING {
        var t :| Runs(s, t);
        assert Runs(s', t);
      } else {
        assert Runs(s', e.t);
      }
    }
  }

  lemma {:induction false} RunInv(s: State, es: seq<Event>)
    requires Inv(s) && Exec(s, es).Some?
    ensures Inv(Exec(s, es).value)
    ensures s.mem.word <= Exec(s, es).value.mem.word
  {
    if es != [] {
      RunInv(s, es[..|es| - 1]);
      StepInv(Exec(s, es[..|es| - 1]).value, es[|es| - 1]);
    }
  }

  /** The body starts at most once, and whoever has returned did so after it finished. */
  lemma BodyRunsExactlyOnce(es: seq<Event>, t: Tid)
    requires Exec(INIT, es).Some?
    ensures var s := Exec(INIT, es).value;
      && s.mem.starts <= 1
      && (s.mem.finished ==> s.mem.starts == 1)
      && (PcOf(s, t).Finished? ==> s.mem.starts == 1 && s.mem.finished && s.mem.word == DONE)
  {
    RunInv(INIT, es);
    var s := Exec(INIT, es).value;
    assert LocalsOk(s.mem, PcOf(s, t));
    if s.mem.word == RUNNING {
      var u :| Runs(s, u);
      assert LocalsOk(s.mem, PcOf(s, u));
    }
  }

  /** The word only moves forward, and never leaves DONE. */
  lemma WordOnlyMovesForward(es: seq<Event>, more: seq<Event>)
    requires Exec(INIT, es).Some? && Exec(Exec(INIT, es).value, more).Some?
    ensures var s, s' := Exec(INIT, es).value, Exec(Exec(INIT, es).value, more).value;
      s.mem.word <= s'.mem.word <= DONE
  {
    RunInv(INIT, es);
    RunInv(Exec(INIT, es).value, more);
  }

  lemma Extend(es: seq<Event>, e: Event) returns (longer: seq<Event>)
    requires Exec(INIT, es).Some? && Enabled(Exec(INIT, es).value, e)
    ensures longer == es + [e]
    ensures Exec(INIT, longer) == Some(Next(Exec(INIT, es).value, e))
  {
    longer := es + [e];
    assert longer[..|longer| - 1] == es;
  }

  /** The runner can always go on to store DONE by itself, in at most three actions. */
  lemma {:induction false} RunnerStoresDone(es: seq<Event>, u: Tid) returns (full: seq<Event>)
    requires Exec(INIT, es).Some? && Runs(Exec(INIT, es).value, u)
    ensures es <= full && |full| <= |es| + 3 && Exec(INIT, full).Some?
    ensures Exec(INIT, full).value.mem.word == DONE
    ensures forall t :: t != u ==> PcOf(Exec(INIT, full).value, t) == PcOf(Exec(INIT, es).value, t)
    ensures !PcOf(Exec(INIT, es).value, u).Won? ==> |full| <= |es| + 2
    ensures PcOf(Exec(INIT, es).value, u).BodyOver? ==> |full| <= |es| + 1
    decreases match PcOf(Exec(INIT, es).value, u) case Won => 3 case InBody => 2 case _ => 1
  {
    match PcOf(Exec(INIT, es).value, u)
    case Won =>
      full := Extend(es, Event(u, BeginBody));
      full := RunnerStoresDone(full, u);
    case InBody =>
      full := Extend(es, Event(u, EndBody));
      full := RunnerStoresDone(full, u);
    case BodyOver =>
      full := Extend(es, Event(u, StoreDone));
  }

  /** The winner runs the body and stores DONE. */
  lemma WinnerRunsBody(es: seq<Event>, t: Tid) returns (full: seq<Event>)
    requires Exec(INIT, es).Some? && PcOf(Exec(INIT, es).value, t).Checked?
    requires Exec(INIT, es).value.mem == Shared(UNINIT, 0, false)
    ensures es <= full && Exec(INIT, full).Some? && PcOf(Exec(INIT, full).value, t).Finished?
    ensures Exec(INIT, full).value.mem == Shared(DONE, 1, true)
  {
    full := Extend(es, Event(t, Swap));
    full := Extend(full, Event(t, BeginBody));
    full := Extend(full, Event(t, EndBody));
    full := Extend(full, Event(t, StoreDone));
  }

  /**
   * A call that nobody interrupts, a thread's first or a later one, returns at once if
   * the body is done, runs it if nobody has, and else spins.
   */
  lemma CallGoesTheRightWay(es: seq<Event>, t: Tid) returns (full: seq<Event>)
    requires Exec(INIT, es).Some?
    requires PcOf(Exec(INIT, es).value, t).Outside? || PcOf(Exec(INIT, es).value, t).Finished?
    ensures es <= full && Exec(INIT, full).Some?
    ensures var s, s' := Exec(INIT, es).value, Exec(INIT, full).value;
      && (s.mem.word == DONE ==> full[|es|..] == AgainFor(s, t) + [Event(t, Check)])
      && (s.mem.word == DONE ==> PcOf(s', t).Finished? && s'.mem == s.mem)
      && (s.mem.word == UNINIT ==> PcOf(s', t).Finished? && s'.mem == Shared(DONE, 1, true))
      && (s.mem.word == RUNNING ==> PcOf(s', t).Spinning? && s'.mem == s.mem)
  {
    RunInv(INIT, es);
    var s := Exec(INIT, es).value;
    assert LocalsOk(s.mem, PcOf(s, t));
    full := es;
    if PcOf(s, t).Finished? {
      full := Extend(full, Event(t, CallAgain));
    }
    full := Extend(full, Event(t, Check));
    if s.mem.word == UNINIT {
      full := WinnerRunsBody(full, t);
    } else if s.mem.word == RUNNING {
      full := Extend(full, Event(t, Swap));
    }
  }

  /** How a thread gets to call: by itself, or after its earlier call has returned. */
  function AgainFor(s: State, t: Tid): seq<Event> {
    if PcOf(s, t).Finished? then [Event(t, CallAgain)] else []
  }

  /** A spinning caller never waits for nobody: at most four more actions let it return. */
  lemma SpinnerCanReturn(es: seq<Event>, t: Tid) returns (full: seq<Event>)
    requires Exec(INIT, es).Some? && PcOf(Exec(INIT, es).value, t).Spinning?
    ensures es <= full && |full| <= |es| + 4 && Exec(INIT, full).Some?
    ensures PcOf(Exec(INIT, full).value, t).Finished?
  {
    RunInv(INIT, es);
    var s := Exec(INIT, es).value;
    assert LocalsOk(s.mem, PcOf(s, t));
    full := es;
    if s.mem.word == RUNNING {
      var u :| Runs(s, u);
      full := RunnerStoresDone(es, u);
    }
    full := Extend(full, Event(t, Poll));
  }
}
