/**
 * RwLock: a reader-writer spinlock packed into one 32-bit word.
 *
 * `read` loads the word, and later tries to swap in the loaded value plus one;
 * the swap may fail because the word moved or, being weak, for no reason.  The
 * word u32::MAX stands for a writer, and is also what 2^32 - 1 readers add up to.
 */
module RwLocks {
  import opened Common

  const WRITER_BIT := U32_MAX

  type Tid = nat

  datatype Shared<V> = Shared(word: U32, data: V)

  /** Each thread stands for one guard; `seen` is the data at the moment the read guard was made. */
  datatype Pc<V> =
    | Outside
    | ReadLoaded(current: U32)
    | Reading(seen: V)
    | Writing(copy: Option<V>)

  datatype Action<!V> =
    | LoadWord
    | CasRead(spurious: bool)
    | DropRead
    | CasWrite(spurious: bool)
    | ReadData
    | WriteData(f: V -> V)
    | DropWrite

  predicate CanAct<V>(pc: Pc<V>, a: Action<V>) {
    match a
    case LoadWord => pc.Outside?
    case CasRead(_) => pc.ReadLoaded? && pc.current != WRITER_BIT
    case DropRead => pc.Reading?
    case CasWrite(_) => pc.Outside?
    case ReadData => pc.Writing?
    case WriteData(_) => pc.Writing? && pc.copy.Some?
    case DropWrite => pc.Writing?
  }

  /** fetch_sub(1) on the 32-bit word. */
  function Decrement(word: U32): U32 {
    if word == 0 then U32_MAX else word - 1
  }

  function Act<V>(m: Shared<V>, pc: Pc<V>, a: Action<V>): (Shared<V>, Pc<V>)
    requires CanAct(pc, a)
  {
    match a
    case LoadWord => (m, if m.word == WRITER_BIT then Outside else ReadLoaded(m.word))
    case CasRead(spurious) =>
      if !spurious && m.word == pc.current then
        (m.(word := pc.current + 1), Reading(m.data))
      else
        (m, Outside)
    case DropRead => (m.(word := Decrement(m.word)), Outside)
    case CasWrite(spurious) =>
      if !spurious && m.word == 0 then (m.(word := WRITER_BIT), Writing(None)) else (m, Outside)
    case ReadData => (m, Writing(Some(m.data)))
    case WriteData(f) => (m.(data := f(pc.copy.value)), Writing(None))
    case DropWrite => (m.(word := 0), Outside)
  }

  /** The lock: one method per atomic access of `read`, `write`, their try forms and the guards. */
  class RwLock<V> {
    var word: U32
    var data: V

    constructor (data: V)
      ensures View() == Shared(0, data)
    {
      this.word, this.data := 0, data;
    }

    ghost function View(): Shared<V>
      reads this
    {
      Shared(word, data)
    }

    /** The load at the top of `read` and `try_read`; None means a writer was seen. */
    method LoadForRead() returns (current: Option<U32>)
      ensures (View(), if current.Some? then ReadLoaded(current.value) else Outside)
           == Act(View(), Outside, LoadWord)
      ensures current == if word == WRITER_BIT then None else Some(word)
    {
      current := if word == WRITER_BIT then None else Some(word);
    }

    method CompareExchangeRead(current: U32, spurious: bool) returns (taken: bool)
      requires current != WRITER_BIT
      modifies this`word
      ensures (View(), if taken then Reading(data) else Outside)
           == Act(old(View()), ReadLoaded(current), CasRead(spurious))
      ensures taken <==> !spurious && old(word) == current
      ensures word == if taken then old(word) + 1 else old(word)
    {
      taken := !spurious && word == current;
      if taken {
        word := current + 1;
      }
    }

    method DropReadGuard(ghost seen: V)
      modifies this`word
      ensures (View(), Outside) == Act(old(View()), Reading(seen), DropRead)
      ensures word == (old(word) - 1) % 0x1_0000_0000
    {
      word := if word == 0 then U32_MAX else word - 1;
    }

    method CompareExchangeWrite(spurious: bool) returns (taken: bool)
      modifies this`word
      ensures (View(), if taken then Writing(None) else Outside)
           == Act(old(View()), Outside, CasWrite(spurious))
      ensures taken <==> !spurious && old(word) == 0
      ensures word == if taken then WRITER_BIT else old(word)
    {
      taken := !spurious && word == 0;
      if taken {
        word := WRITER_BIT;
      }
    }

    method DerefWriteGuard(ghost copy: Option<V>) returns (value: V)
      ensures (View(), Writing(Some(value))) == Act(View(), Writing(copy), ReadData)
      ensures value == data
    {
      value := data;
    }

    method DerefMutWriteGuard(copy: V, f: V -> V)
      modifies this`data
      ensures (View(), Writing(None)) == Act(old(View()), Writing(Some(copy)), WriteData(f))
      ensures data == f(copy)
    {
      data := f(copy);
    }

    method DropWriteGuard(ghost copy: Option<V>)
      modifies this`word
      ensures (View(), Outside) == Act(old(View()), Writing(copy), DropWrite)
      ensures word == 0
    {
      word := 0;
    }
  }

  // -------------------------------------------------------------------------
  // The machine
  // -------------------------------------------------------------------------

  /** `log` is history: the writes completed so far. */
  datatype State<!V> = State(mem: Shared<V>, threads: map<Tid, Pc<V>>, log: seq<V -> V>)

  datatype Event<!V> = Event(t: Tid, a: Action<V>)

  function Init<V>(data: V): State<V> {
    State(Shared(0, data), map[], [])
  }

  function PcOf<V>(s: State<V>, t: Tid): Pc<V> {
    if t in s.threads then s.threads[t] else Outside
  }

  predicate Enabled<V>(s: State<V>, e: Event<V>) {
    CanAct(PcOf(s, e.t), e.a)
  }

  function Next<V>(s: State<V>, e: Event<V>): State<V>
    requires Enabled(s, e)
  {
    var (mem, pc) := Act(s.mem, PcOf(s, e.t), e.a);
    State(mem, s.threads[e.t := pc], if e.a.WriteData? then s.log + [e.a.f] else s.log)
  }

  function Exec<V>(s: State<V>, es: seq<Event<V>>): Option<State<V>> {
    if es == [] then Some(s)
    else
      match Exec(s, es[..|es| - 1])
      case None => None
      case Some(u) =>
        if Enabled(u, es[|es| - 1]) then Some(Next(u, es[|es| - 1])) else None
  }

  function Replay<V>(data: V, log: seq<V -> V>): V {
    if log == [] then data
    else log[|log| - 1](Replay(data, log[..|log| - 1]))
  }

  /** The writes of a run, in order. */
  function WritesIn<V>(es: seq<Event<V>>): seq<V -> V> {
    if es == [] then []
    else
      var before, last := es[..|es| - 1], es[|es| - 1];
      if last.a.WriteData? then WritesIn(before) + [last.a.f] else WritesIn(before)
  }

  function Readers<V>(s: State<V>): set<Tid> {
    set t | t in s.threads && s.threads[t].Reading?
  }

  function Writers<V>(s: State<V>): set<Tid> {
    set t | t in s.threads && s.threads[t].Writing?
  }

  // -------------------------------------------------------------------------
  // The invariant: no bound on the number of threads is needed
  // -------------------------------------------------------------------------

  predicate LocalsOk<V(==)>(m: Shared<V>, pc: Pc<V>) {
    match pc
    case Outside => true
    case ReadLoaded(current) => current != WRITER_BIT
    case Reading(seen) => seen == m.data
    case Writing(copy) => copy.Some? ==> copy.value == m.data
  }

  /** One writer alone, or any number of readers that the word can count. */
  predicate Counted(word: U32, readers: set<Tid>, writers: set<Tid>) {
    && |writers| <= 1
    && (writers != {} ==> readers == {})
    && |readers| <= U32_MAX
    && word == if writers != {} then WRITER_BIT else |readers|
  }

  ghost predicate Inv<V>(init: V, s: State<V>) {
    && Counted(s.mem.word, Readers(s), Writers(s))
    && (forall t :: LocalsOk(s.mem, PcOf(s, t)))
    && s.mem.data == Replay(init, s.log)
  }

  /** `who` after one thread's membership is set to `member`. */
  function Moved(who: set<Tid>, t: Tid, member: bool): set<Tid> {
    if member then who + {t} else who - {t}
  }

  /** How a change of one thread's position moves the sets of readers and writers. */
  lemma SetsAfter<V>(s: State<V>, s': State<V>, t: Tid, pc: Pc<V>)
    requires s'.threads == s.threads[t := pc]
    ensures Readers(s') == Moved(Readers(s), t, pc.Reading?)
    ensures Writers(s') == Moved(Writers(s), t, pc.Writing?)
    ensures t in Readers(s) <==> PcOf(s, t).Reading?
    ensures t in Writers(s) <==> PcOf(s, t).Writing?
  {
  }

  lemma Singleton(who: set<Tid>, t: Tid)
    requires |who| <= 1 && t in who
    ensures who == {t}
  {
    assert |who - {t}| == |who| - 1;
  }

  lemma LeaveCount(who: set<Tid>, t: Tid)
    ensures |who - {t}| == |who| - if t in who then 1 else 0
    ensures t !in who ==> who - {t} == who
  {
    if t !in who {
      assert who - {t} == who;
    }
  }

  /** One action keeps the word an exact count of the guards. */
  lemma ActCounts<V>(m: Shared<V>, pc: Pc<V>, a: Action<V>, t: Tid, readers: set<Tid>, writers: set<Tid>)
    requires CanAct(pc, a) && LocalsOk(m, pc) && Counted(m.word, readers, writers)
    requires t in readers <==> pc.Reading?
    requires t in writers <==> pc.Writing?
    ensures var (m', pc') := Act(m, pc, a);
      Counted(m'.word, Moved(readers, t, pc'.Reading?), Moved(writers, t, pc'.Writing?))
  {
    LeaveCount(readers, t);
    LeaveCount(writers, t);
    if pc.Writing? {
      Singleton(writers, t);
      assert writers + {t} == writers && writers - {t} == {};
    }
  }

  lemma StepLocals<V>(init: V, s: State<V>, e: Event<V>, t: Tid)
    requires Inv(init, s) && Enabled(s, e)
    ensures LocalsOk(Next(s, e).mem, PcOf(Next(s, e), t))
  {
    assert LocalsOk(s.mem, PcOf(s, t)) && LocalsOk(s.mem, PcOf(s, e.t));
    if e.a.WriteData? && t != e.t {
      assert e.t in Writers(s);
      Singleton(Writers(s), e.t);
      assert t !in Writers(s) && t !in Readers(s);
    }
  }

  lemma StepLog<V>(init: V, s: State<V>, e: Event<V>)
    requires Inv(init, s) && Enabled(s, e)
    ensures Next(s, e).mem.data == Replay(init, Next(s, e).log)
  {
    assert LocalsOk(s.mem, PcOf(s, e.t));
    if e.a.WriteData? {
      assert Next(s, e).log[..|Next(s, e).log| - 1] == s.log;
    }
  }

  lemma StepCount<V>(init: V, s: State<V>, e: Event<V>)
    requires Inv(init, s) && Enabled(s, e)
    ensures Counted(Next(s, e).mem.word, Readers(Next(s, e)), Writers(Next(s, e)))
  {
    assert LocalsOk(s.mem, PcOf(s, e.t));
    SetsAfter(s, Next(s, e), e.t, PcOf(Next(s, e), e.t));
    ActCounts(s.mem, PcOf(s, e.t), e.a, e.t, Readers(s), Writers(s));
  }

  lemma StepInv<V>(init: V, s: State<V>, e: Event<V>)
    requires Inv(init, s) && Enabled(s, e)
    ensures Inv(init, Next(s, e))
  {
    StepCount(init, s, e);
    StepLog(init, s, e);
    forall t
      ensures LocalsOk(Next(s, e).mem, PcOf(Next(s, e), t))
    {
      StepLocals(init, s, e, t);
    }
  }

  lemma {:induction false} RunInv<V>(init: V, s: State<V>, es: seq<Event<V>>)
    requires Inv(init, s) && Exec(s, es).Some?
    ensures Inv(init, Exec(s, es).value)
  {
    if es != [] {
      RunInv(init, s, es[..|es| - 1]);
      StepInv(init, Exec(s, es[..|es| - 1]).value, es[|es| - 1]);
    }
  }

  // -------------------------------------------------------------------------
  // Results
  // -------------------------------------------------------------------------

  lemma {:induction false} LogIsTheRunsWrites<V>(init: V, es: seq<Event<V>>)
    requires Exec(Init(init), es).Some?
    ensures Exec(Init(init), es).value.log == WritesIn(es)
  {
    if es != [] {
      LogIsTheRunsWrites(init, es[..|es| - 1]);
    }
  }

  /**
   * Readers and writers exclude one another and writes are applied whole, in every
   * run of any number of threads: `read` refuses to count past 2^32 - 1.
   */
  lemma EveryRunExcludes<V>(init: V, es: seq<Event<V>>)
    requires Exec(Init(init), es).Some?
    ensures var s := Exec(Init(init), es).value;
      && |Writers(s)| <= 1
      && (Writers(s) != {} ==> Readers(s) == {})
      && s.mem.word == (if Writers(s) != {} then WRITER_BIT else |Readers(s)|)
      && s.mem.data == Replay(init, WritesIn(es))
      && forall t :: PcOf(s, t).Reading? ==> PcOf(s, t).seen == s.mem.data
  {
    assert Readers(Init(init)) == {} && Writers(Init(init)) == {};
    RunInv(init, Init(init), es);
    LogIsTheRunsWrites(init, es);
    var s := Exec(Init(init), es).value;
    forall t | PcOf(s, t).Reading?
      ensures PcOf(s, t).seen == s.mem.data
    {
      assert LocalsOk(s.mem, PcOf(s, t));
    }
  }

  /** Dropping a read guard never takes the word below zero. */
  lemma DropReadNeverUnderflows<V>(init: V, es: seq<Event<V>>, t: Tid)
    requires Exec(Init(init), es).Some? && PcOf(Exec(Init(init), es).value, t).Reading?
    ensures var m := Exec(Init(init), es).value.mem;
      m.word >= 1 && Act(m, PcOf(Exec(Init(init), es).value, t), DropRead).0.word == m.word - 1
  {
    EveryRunExcludes(init, es);
    var s := Exec(Init(init), es).value;
    assert t in Readers(s);
    assert |Readers(s) - {t}| == |Readers(s)| - 1;
  }

  /** The documented reading of the word, "u32::MAX means a writer", holds unless 2^32 - 1 guards read at once. */
  lemma WriterBitMeansWriterIff<V>(init: V, es: seq<Event<V>>)
    requires Exec(Init(init), es).Some?
    ensures var s := Exec(Init(init), es).value;
      (s.mem.word == WRITER_BIT <==> Writers(s) != {}) <==> |Readers(s)| != U32_MAX
  {
    EveryRunExcludes(init, es);
  }

  ghost predicate NoEventOf<V>(es: seq<Event<V>>, t: Tid) {
    forall i :: 0 <= i < |es| ==> es[i].t != t
  }

  lemma {:induction false} BystanderKeepsPc<V>(s: State<V>, es: seq<Event<V>>, t: Tid)
    requires Exec(s, es).Some? && NoEventOf(es, t)
    ensures PcOf(Exec(s, es).value, t) == PcOf(s, t)
  {
    if es != [] {
      BystanderKeepsPc(s, es[..|es| - 1], t);
      assert es[|es| - 1].t != t;
    }
  }

  /** Whatever the other threads do, the data does not change under a live read guard. */
  lemma DataFrozenUnderReadGuard<V>(init: V, s: State<V>, es: seq<Event<V>>, t: Tid)
    requires Inv(init, s) && PcOf(s, t).Reading?
    requires Exec(s, es).Some? && NoEventOf(es, t)
    ensures Exec(s, es).value.mem.data == s.mem.data
  {
    RunInv(init, s, es);
    BystanderKeepsPc(s, es, t);
    var s' := Exec(s, es).value;
    assert LocalsOk(s.mem, PcOf(s, t)) && LocalsOk(s'.mem, PcOf(s', t));
  }

  lemma ExecAppend<V>(s: State<V>, es: seq<Event<V>>, e: Event<V>)
    requires Exec(s, es).Some? && Enabled(Exec(s, es).value, e)
    ensures Exec(s, es + [e]) == Some(Next(Exec(s, es).value, e))
  {
    assert (es + [e])[..|es + [e]| - 1] == es;
  }

  /** A read followed by a write under the write guard stores the function of the data, and logs it. */
  lemma GuardUpdatesData<V>(s: State<V>, t: Tid, f: V -> V)
    requires PcOf(s, t).Writing?
    ensures Enabled(s, Event(t, ReadData)) && Enabled(Next(s, Event(t, ReadData)), Event(t, WriteData(f)))
    ensures var s' := Next(Next(s, Event(t, ReadData)), Event(t, WriteData(f)));
      s'.mem == s.mem.(data := f(s.mem.data)) && PcOf(s', t).Writing? && s'.log == s.log + [f]
  {
  }

  ghost predicate OnlyReaders<V>(s: State<V>, n: nat) {
    && s.mem.word == n && Writers(s) == {}
    && forall t: Tid :: t in s.threads <==> t < n
  }

  lemma OneMoreReader<V>(s: State<V>, n: nat)
    requires n < U32_MAX && OnlyReaders(s, n)
    ensures Enabled(s, Event(n, LoadWord))
    ensures var s1 := Next(s, Event(n, LoadWord));
      Enabled(s1, Event(n, CasRead(false))) && OnlyReaders(Next(s1, Event(n, CasRead(false))), n + 1)
  {
    var s1 := Next(s, Event(n, LoadWord));
    SetsAfter(s, s1, n, ReadLoaded(n));
    SetsAfter(s1, Next(s1, Event(n, CasRead(false))), n, Reading(s.mem.data));
  }

  /** Threads 0 to n-1 take a read guard each. */
  lemma {:induction false} ManyReaders<V>(init: V, n: nat) returns (es: seq<Event<V>>)
    requires n <= U32_MAX
    ensures Exec(Init(init), es).Some? && OnlyReaders(Exec(Init(init), es).value, n)
  {
    if n == 0 {
      es := [];
    } else {
      es := ManyReaders(init, n - 1);
      OneMoreReader(Exec(Init(init), es).value, n - 1);
      ExecAppend(Init(init), es, Event(n - 1, LoadWord));
      es := es + [Event(n - 1, LoadWord)];
      ExecAppend(Init(init), es, Event(n - 1, CasRead(false)));
      es := es + [Event(n - 1, CasRead(false))];
    }
  }

  /** The collision can happen: a run with no writer whose word is the writer's. */
  lemma ReadersCanSpellWriterBit<V>(init: V) returns (es: seq<Event<V>>)
    ensures Exec(Init(init), es).Some?
    ensures var s := Exec(Init(init), es).value; s.mem.word == WRITER_BIT && Writers(s) == {}
  {
    es := ManyReaders(init, U32_MAX);
  }
}
