/**
 * When a call of `RwLock::read` or `RwLock::write` can get in, given that some of
 * the threads make no further step: say because they are waiting themselves, or
 * because their guards belong to the caller.
 */
module RwLockProgress {
  import opened Common
  import opened RwLocks

  /** None of the threads acts in the run. */
  ghost predicate NoneOf<V>(es: seq<Event<V>>, keep: set<Tid>) {
    forall i :: 0 <= i < |es| ==> es[i].t !in keep
  }

  lemma {:induction false} ExecConcat<V>(s: State<V>, a: seq<Event<V>>, b: seq<Event<V>>)
    requires Exec(s, a).Some?
    ensures Exec(s, a + b) == Exec(Exec(s, a).value, b)
  {
    if b == [] {
      assert a + b == a;
    } else {
      ExecConcat(s, a, b[..|b| - 1]);
      assert (a + b)[..|a + b| - 1] == a + b[..|b| - 1];
    }
  }

  lemma {:induction false} OthersKeepPc<V>(s: State<V>, es: seq<Event<V>>, keep: set<Tid>, u: Tid)
    requires Exec(s, es).Some? && NoneOf(es, keep) && u in keep
    ensures PcOf(Exec(s, es).value, u) == PcOf(s, u)
  {
    assert NoEventOf(es, u);
    BystanderKeepsPc(s, es, u);
  }

  /** Guards in the given threads outlast the run. */
  lemma GuardsStay<V>(s: State<V>, es: seq<Event<V>>, keep: set<Tid>)
    requires Exec(s, es).Some? && NoneOf(es, keep)
    ensures Readers(s) * keep <= Readers(Exec(s, es).value)
    ensures Writers(s) * keep <= Writers(Exec(s, es).value)
  {
    forall u | u in keep
      ensures PcOf(Exec(s, es).value, u) == PcOf(s, u)
    {
      OthersKeepPc(s, es, keep, u);
    }
  }

  /** A guard's drop takes its thread from the readers or the writers and does not move another thread t. */
  lemma DropOne<V>(init: V, s: State<V>, u: Tid, t: Tid)
    requires Inv(init, s) && (u in Readers(s) || u in Writers(s)) && t != u
    ensures var e := Event(u, if u in Readers(s) then DropRead else DropWrite);
      && Enabled(s, e) && Inv(init, Next(s, e))
      && Readers(Next(s, e)) == Readers(s) - {u} && Writers(Next(s, e)) == Writers(s) - {u}
      && PcOf(Next(s, e), t) == PcOf(s, t)
  {
    var e := Event(u, if u in Readers(s) then DropRead else DropWrite);
    StepInv(init, s, e);
    SetsAfter(s, Next(s, e), u, PcOf(Next(s, e), u));
  }

  /** One run after another, with the same threads standing still in both. */
  lemma Then<V>(s: State<V>, a: seq<Event<V>>, b: seq<Event<V>>, keep: set<Tid>) returns (es: seq<Event<V>>)
    requires Exec(s, a).Some? && NoneOf(a, keep) && NoneOf(b, keep)
    ensures Exec(s, es) == Exec(Exec(s, a).value, b) && NoneOf(es, keep)
  {
    ExecConcat(s, a, b);
    es := a + b;
  }

  lemma One<V>(s: State<V>, e: Event<V>, keep: set<Tid>) returns (es: seq<Event<V>>)
    requires Enabled(s, e) && e.t !in keep
    ensures Exec(s, es) == Some(Next(s, e)) && NoneOf(es, keep)
  {
    ExecAppend(s, [], e);
    es := [] + [e];
  }

  /** The guards still to be dropped. */
  function Excess<V>(s: State<V>, keep: set<Tid>): set<Tid> {
    (Readers(s) + Writers(s)) - keep
  }

  lemma DrainStep<V>(init: V, s: State<V>, t: Tid, keep: set<Tid>, u: Tid) returns (es: seq<Event<V>>)
    requires Inv(init, s) && t !in Readers(s) && t !in Writers(s) && u in Excess(s, keep)
    ensures Exec(s, es).Some? && NoneOf(es, keep)
    ensures var s' := Exec(s, es).value;
      && Inv(init, s') && PcOf(s', t) == PcOf(s, t) && Excess(s', keep) == Excess(s, keep) - {u}
      && Readers(s') == Readers(s) - {u} && Writers(s') == Writers(s) - {u}
  {
    DropOne(init, s, u, t);
    es := One(s, Event(u, if u in Readers(s) then DropRead else DropWrite), keep);
  }

  /** All guards but those in `keep` can be dropped while t stands still. */
  lemma {:induction false} Drain<V>(init: V, s: State<V>, t: Tid, keep: set<Tid>) returns (es: seq<Event<V>>)
    requires Inv(init, s) && t !in Readers(s) && t !in Writers(s)
    ensures Exec(s, es).Some? && NoneOf(es, keep)
    ensures var s' := Exec(s, es).value;
      && Inv(init, s') && PcOf(s', t) == PcOf(s, t)
      && Readers(s') == Readers(s) * keep && Writers(s') == Writers(s) * keep
    decreases Excess(s, keep)
  {
    if Excess(s, keep) != {} {
      var u :| u in Excess(s, keep);
      var first := DrainStep(init, s, t, keep, u);
      var s1 := Exec(s, first).value;
      assert u in Excess(s, keep) && u !in Excess(s1, keep);
      var rest := Drain(init, s1, t, keep);
      WithoutOne(Readers(s), keep, u);
      WithoutOne(Writers(s), keep, u);
      es := Then(s, first, rest, keep);
    } else {
      es := [];
      NothingLeft(Readers(s), Writers(s), keep);
    }
  }

  lemma WithoutOne(who: set<Tid>, keep: set<Tid>, u: Tid)
    requires u !in keep
    ensures (who - {u}) * keep == who * keep
  {
  }

  lemma NothingLeft(readers: set<Tid>, writers: set<Tid>, keep: set<Tid>)
    requires (readers + writers) - keep == {}
    ensures readers * keep == readers && writers * keep == writers
  {
    forall u | u in readers || u in writers
      ensures u in keep
    {
      assert u !in (readers + writers) - keep;
    }
  }

  /** A reader gets in by itself when no writer is in and the word can count it. */
  lemma ReadNow<V>(s: State<V>, t: Tid, keep: set<Tid>) returns (es: seq<Event<V>>)
    requires s.mem.word != WRITER_BIT && t !in keep && LocalsOk(s.mem, PcOf(s, t))
    requires PcOf(s, t).Outside? || PcOf(s, t).ReadLoaded?
    ensures Exec(s, es).Some? && NoneOf(es, keep) && PcOf(Exec(s, es).value, t).Reading?
    decreases PcOf(s, t).ReadLoaded?, PcOf(s, t) != ReadLoaded(s.mem.word)
  {
    if PcOf(s, t) == ReadLoaded(s.mem.word) {
      es := One(s, Event(t, CasRead(false)), keep);
    } else if PcOf(s, t).Outside? {
      var load := One(s, Event(t, LoadWord), keep);
      var cas := One(Exec(s, load).value, Event(t, CasRead(false)), keep);
      es := Then(s, load, cas, keep);
    } else {
      var fail := One(s, Event(t, CasRead(false)), keep);
      var again := ReadNow(Exec(s, fail).value, t, keep);
      es := Then(s, fail, again, keep);
    }
  }

  lemma ReadEnters<V>(init: V, s: State<V>, t: Tid, keep: set<Tid>) returns (es: seq<Event<V>>)
    requires Inv(init, s) && t !in Readers(s) && t !in Writers(s) && t !in keep
    requires Writers(s) * keep == {} && |Readers(s) * keep| < U32_MAX
    ensures Exec(s, es).Some? && NoneOf(es, keep) && PcOf(Exec(s, es).value, t).Reading?
  {
    var drain := Drain(init, s, t, keep);
    var s' := Exec(s, drain).value;
    assert LocalsOk(s'.mem, PcOf(s', t));
    var enter := ReadNow(s', t, keep);
    es := Then(s, drain, enter, keep);
  }

  lemma ReaderCounts<V>(init: V, s: State<V>, es: seq<Event<V>>, t: Tid, keep: set<Tid>)
    requires Inv(init, s) && t !in Readers(s)
    requires Exec(s, es).Some? && NoneOf(es, keep) && PcOf(Exec(s, es).value, t).Reading?
    ensures Writers(s) * keep == {} && |Readers(s) * keep| < U32_MAX
  {
    RunInv(init, s, es);
    GuardsStay(s, es, keep);
    assert t in Readers(Exec(s, es).value);
    ProperSubset(Readers(s) * keep, Readers(Exec(s, es).value), t);
  }

  /**
   * From any state of any run, a call of `read` can get in while the threads in `keep`
   * stand still if and only if none of them writes and fewer than 2^32 - 1 of them read.
   */
  lemma ReadCanEnterIff<V>(init: V, es: seq<Event<V>>, t: Tid, keep: set<Tid>)
    requires Exec(Init(init), es).Some? && t !in keep
    requires var s := Exec(Init(init), es).value; t !in Readers(s) && t !in Writers(s)
    ensures var s := Exec(Init(init), es).value;
      Writers(s) * keep == {} && |Readers(s) * keep| < U32_MAX <==>
        exists more: seq<Event<V>> ::
          Exec(s, more).Some? && NoneOf(more, keep) && PcOf(Exec(s, more).value, t).Reading?
  {
    var s := Exec(Init(init), es).value;
    ReachableInv(init, es);
    if Writers(s) * keep == {} && |Readers(s) * keep| < U32_MAX {
      var more := ReadEnters(init, s, t, keep);
    }
    if more: seq<Event<V>> :|
      Exec(s, more).Some? && NoneOf(more, keep) && PcOf(Exec(s, more).value, t).Reading?
    {
      ReaderCounts(init, s, more, t, keep);
    }
  }

  lemma WriteEnters<V>(init: V, s: State<V>, t: Tid, keep: set<Tid>) returns (es: seq<Event<V>>)
    requires Inv(init, s) && PcOf(s, t).Outside? && t !in keep
    requires Readers(s) * keep == {} && Writers(s) * keep == {}
    ensures Exec(s, es).Some? && NoneOf(es, keep) && PcOf(Exec(s, es).value, t).Writing?
  {
    var drain := Drain(init, s, t, keep);
    var enter := One(Exec(s, drain).value, Event(t, CasWrite(false)), keep);
    es := Then(s, drain, enter, keep);
  }

  lemma WriterIsAlone<V>(init: V, s: State<V>, es: seq<Event<V>>, t: Tid, keep: set<Tid>)
    requires Inv(init, s) && t !in keep
    requires Exec(s, es).Some? && NoneOf(es, keep) && PcOf(Exec(s, es).value, t).Writing?
    ensures Readers(s) * keep == {} && Writers(s) * keep == {}
  {
    RunInv(init, s, es);
    GuardsStay(s, es, keep);
    assert t in Writers(Exec(s, es).value);
    Singleton(Writers(Exec(s, es).value), t);
  }

  /**
   * From any state of any run, a call of `write` can get in while the threads in `keep`
   * stand still if and only if none of them has a guard.
   */
  lemma WriteCanEnterIff<V>(init: V, es: seq<Event<V>>, t: Tid, keep: set<Tid>)
    requires Exec(Init(init), es).Some? && PcOf(Exec(Init(init), es).value, t).Outside? && t !in keep
    ensures var s := Exec(Init(init), es).value;
      Readers(s) * keep == {} && Writers(s) * keep == {} <==>
        exists more: seq<Event<V>> ::
          Exec(s, more).Some? && NoneOf(more, keep) && PcOf(Exec(s, more).value, t).Writing?
  {
    var s := Exec(Init(init), es).value;
    ReachableInv(init, es);
    if Readers(s) * keep == {} && Writers(s) * keep == {} {
      var more := WriteEnters(init, s, t, keep);
    }
    if more: seq<Event<V>> :|
      Exec(s, more).Some? && NoneOf(more, keep) && PcOf(Exec(s, more).value, t).Writing?
    {
      WriterIsAlone(init, s, more, t, keep);
    }
  }

  lemma {:induction false} ProperSubset(some: set<Tid>, all: set<Tid>, t: Tid)
    requires some <= all && t in all && t !in some
    ensures |some| < |all|
    decreases some
  {
    if some == {} {
      assert |all - {t}| == |all| - 1;
    } else {
      var u :| u in some;
      ProperSubset(some - {u}, all - {u}, t);
    }
  }

  lemma ReachableInv<V>(init: V, es: seq<Event<V>>)
    requires Exec(Init(init), es).Some?
    ensures Inv(init, Exec(Init(init), es).value)
  {
    assert Readers(Init(init)) == {} && Writers(Init(init)) == {};
    RunInv(init, Init(init), es);
  }
}
