/** The `create` command of the benchmark: jobs that insert records into partitions and post
    their own successors, with inserts batched into transactions on each partition's strand.

    A handler runs in three steps, since other threads see only its effect on the shared record
    counter: insert (and begin a transaction if due), count, finish (commit or not, and post a
    successor or not). Strands run one handler at a time; different strands interleave freely. */
module CreateRun {
  import opened Common

  const REQUEST_QUEUE_MAX: nat := 1000
  const TRANSACTION_SZ: nat := 100

  /** `records` is the target; at least one partition. */
  datatype Config = Config(records: nat, partitions: nat)
  {
    /** The first jobs: as many as records, but at most the queue's limit. */
    function Jobs(): (k: nat)
      ensures k <= records && k <= REQUEST_QUEUE_MAX && (k == records || k == REQUEST_QUEUE_MAX)
    {
      if records < REQUEST_QUEUE_MAX then records else REQUEST_QUEUE_MAX
    }

    /** Inserts of a whole run. */
    function Expected(): int { records + Jobs() - 1 }

    /** What the command line demands. */
    ghost predicate Accepted() { 1 <= records < TWO_64 && partitions >= 1 }

    /** A counter that does not wrap before the end, either. */
    ghost predicate Valid() { Accepted() && Expected() < TWO_64 }
  }

  datatype Phase = Idle | Inserted | Counted(done: bool)

  /** A partition: its strand's queue and handler, the transaction as the code tracks it
      (`curTx`) and as the database knows it (`open`), and what became of the inserts. */
  datatype Part = Part(
    queued: nat,
    phase: Phase,
    curTx: nat,
    open: bool,
    uncommitted: nat,
    committed: nat,
    failed: nat,   // commits attempted with nothing open
    plain: nat,    // handlers finished with is_done() false
    drained: nat)  // handlers finished with is_done() true

  datatype State = State(cfg: Config, records: nat, counted: nat, parts: seq<Part>)

  /** A job starts, is counted, or finishes; a successor goes to any partition. */
  datatype Event = Start(p: nat) | Count(p: nat) | Finish(p: nat, successor: nat)

  function Fresh(queued: nat): Part { Part(queued, Idle, 0, false, 0, 0, 0, 0, 0) }

  predicate Enabled(s: State, e: Event) {
    match e
    case Start(p) => p < |s.parts| && s.parts[p].phase == Idle && s.parts[p].queued > 0
    case Count(p) => p < |s.parts| && s.parts[p].phase == Inserted
    case Finish(p, q) => p < |s.parts| && s.parts[p].phase.Counted? && q < |s.parts|
  }

  /** Begin if `curTx` is zero, then insert: inside the open transaction, or committed at once. */
  function Insert(x: Part): Part
    requires x.queued > 0
  {
    var open := x.open || x.curTx == 0;
    x.(queued := x.queued - 1, phase := Inserted, open := open,
       uncommitted := if open then x.uncommitted + 1 else x.uncommitted,
       committed := if open then x.committed else x.committed + 1)
  }

  function Commit(x: Part): Part {
    if x.open then x.(open := false, uncommitted := 0, committed := x.committed + x.uncommitted)
    else x.(failed := x.failed + 1)
  }

  /** The end of a handler whose job goes on: commit after every hundredth insert. A commit that
      throws keeps the code after it from running. */
  function GoOn(x: Part): Part {
    var y := x.(phase := Idle, plain := x.plain + 1, curTx := x.curTx + 1);
    if y.curTx != TRANSACTION_SZ then y
    else if y.open then Commit(y).(curTx := 0)
    else Commit(y)
  }

  predicate PostsSuccessor(x: Part) { x.curTx + 1 != TRANSACTION_SZ || x.open }

  /** The end of a handler whose job is the last of its chain: commit; `curTx` stays. */
  function Drain(x: Part): Part {
    Commit(x.(phase := Idle, drained := x.drained + 1))
  }

  function Post(parts: seq<Part>, q: nat): seq<Part>
    requires q < |parts|
  {
    parts[q := parts[q].(queued := parts[q].queued + 1)]
  }

  function Step(s: State, e: Event): State
    requires Enabled(s, e)
  {
    match e
    case Start(p) => s.(parts := s.parts[p := Insert(s.parts[p])])
    case Count(p) =>
      var records := (s.records + 1) % TWO_64;
      s.(records := records, counted := s.counted + 1,
         parts := s.parts[p := s.parts[p].(phase := Counted(records >= s.cfg.records))])
    case Finish(p, q) =>
      var x := s.parts[p];
      if x.phase.done then s.(parts := s.parts[p := Drain(x)])
      else
        var parts := s.parts[p := GoOn(x)];
        s.(parts := if PostsSuccessor(x) then Post(parts, q) else parts)
  }

  ghost predicate Run(s: State, es: seq<Event>, t: State)
    decreases es
  {
    if es == [] then s == t else Enabled(s, es[0]) && Run(Step(s, es[0]), es[1..], t)
  }

  /** `worker::init`: the first jobs, posted to any partitions. */
  ghost predicate Init(cfg: Config, s: State) {
    && s.cfg == cfg && s.records == 0 && s.counted == 0 && |s.parts| == cfg.partitions
    && (forall p :: 0 <= p < |s.parts| ==> s.parts[p] == Fresh(s.parts[p].queued))
    && Total(Load, s.parts) == cfg.Jobs()
  }

  // ----- totals over partitions -----

  function Values(f: Part -> int, parts: seq<Part>): seq<int> {
    seq(|parts|, i requires 0 <= i < |parts| => f(parts[i]))
  }

  function Total(f: Part -> int, parts: seq<Part>): int { Sum(Values(f, parts)) }

  lemma TotalUpdate(f: Part -> int, parts: seq<Part>, p: nat, x: Part)
    requires p < |parts|
    ensures Total(f, parts[p := x]) == Total(f, parts) - f(parts[p]) + f(x)
  {
    assert Values(f, parts[p := x]) == Values(f, parts)[p := f(x)];
    SumUpdate(Values(f, parts), p, f(x));
  }

  lemma {:induction false} TotalOrder(f: Part -> int, g: Part -> int, parts: seq<Part>)
    requires forall x :: f(x) <= g(x)
    ensures Total(f, parts) <= Total(g, parts)
  {
    if parts != [] {
      assert Values(f, parts)[1..] == Values(f, parts[1..]);
      assert Values(g, parts)[1..] == Values(g, parts[1..]);
      TotalOrder(f, g, parts[1..]);
    }
  }

  /** Handlers queued or running. */
  function InFlight(x: Part): int { x.queued + if x.phase == Idle then 0 else 1 }

  /** Chains of jobs still going: a job queued, inserting, or about to post a successor. */
  function Load(x: Part): int {
    x.queued + if x.phase == Inserted || x.phase == Counted(false) then 1 else 0
  }

  /** Chains of jobs that have come to their end. */
  function Ended(x: Part): int { x.drained + if x.phase == Counted(true) then 1 else 0 }

  function Inserts(x: Part): int { x.plain + x.drained + if x.phase == Idle then 0 else 1 }

  function Counts(x: Part): int { x.plain + x.drained + if x.phase.Counted? then 1 else 0 }

  function Steps(x: Part): int {
    3 * (x.plain + x.drained) + match x.phase case Idle => 0 case Inserted => 1 case Counted(_) => 2
  }

  /** All totals when one partition changes. */
  lemma TotalsUpdate(parts: seq<Part>, p: nat, x: Part)
    requires p < |parts|
    ensures Total(Load, parts[p := x]) == Total(Load, parts) - Load(parts[p]) + Load(x)
    ensures Total(Ended, parts[p := x]) == Total(Ended, parts) - Ended(parts[p]) + Ended(x)
    ensures Total(Inserts, parts[p := x]) == Total(Inserts, parts) - Inserts(parts[p]) + Inserts(x)
    ensures Total(Counts, parts[p := x]) == Total(Counts, parts) - Counts(parts[p]) + Counts(x)
    ensures Total(Steps, parts[p := x]) == Total(Steps, parts) - Steps(parts[p]) + Steps(x)
  {
    TotalUpdate(Load, parts, p, x);
    TotalUpdate(Ended, parts, p, x);
    TotalUpdate(Inserts, parts, p, x);
    TotalUpdate(Counts, parts, p, x);
    TotalUpdate(Steps, parts, p, x);
  }

  // ----- the invariant -----

  /** Batching on one partition. Until the first drained job the code and the database agree. The
      drain commits but leaves `curTx`: if it was zero every later job begins and commits its
      own transaction, otherwise later inserts are committed at once and later commits fail. */
  ghost predicate Batching(x: Part) {
    && x.curTx == x.plain % TRANSACTION_SZ
    && x.committed + x.uncommitted == Inserts(x)
    && var extra := if x.phase == Idle then 0 else 1;
       if x.drained == 0 then
         && (x.open <==> x.curTx + extra > 0)
         && x.uncommitted == x.curTx + extra
         && x.failed == 0
       else
         && x.phase != Counted(false)
         && (x.open <==> x.curTx == 0 && x.phase != Idle)
         && x.uncommitted == (if x.open then 1 else 0)
         && x.failed == if x.curTx > 0 then x.drained - 1 else 0
  }

  /** How many chains have ended once `counted` jobs were counted. */
  function EndedAt(cfg: Config, counted: nat): nat {
    if counted < cfg.records then 0 else counted - cfg.records + 1
  }

  ghost predicate Tallies(s: State) {
    && s.records == s.counted < TWO_64
    && s.counted == Total(Counts, s.parts)
    && Total(Load, s.parts) + Total(Ended, s.parts) == s.cfg.Jobs()
    && Total(Ended, s.parts) == EndedAt(s.cfg, s.counted)
  }

  ghost predicate PartsOk(s: State) {
    forall p :: 0 <= p < |s.parts| ==> Batching(s.parts[p]) && (Ended(s.parts[p]) > 0 ==> s.counted >= s.cfg.records)
  }

  ghost predicate Inv(s: State) {
    s.cfg.Accepted() && |s.parts| == s.cfg.partitions && Tallies(s) && PartsOk(s)
  }

  lemma InsertBatches(x: Part)
    requires Batching(x) && x.phase == Idle && x.queued > 0
    ensures Batching(Insert(x))
  {
  }

  lemma GoOnBatches(x: Part)
    requires Batching(x) && x.phase == Counted(false)
    ensures Batching(GoOn(x)) && PostsSuccessor(x) && GoOn(x).phase == Idle
  {
    var c := x.plain % TRANSACTION_SZ;
    assert (x.plain + 1) % TRANSACTION_SZ == if c + 1 == TRANSACTION_SZ then 0 else c + 1;
  }

  lemma DrainBatches(x: Part)
    requires Batching(x) && x.phase == Counted(true)
    ensures Batching(Drain(x))
  {
  }

  lemma LoadBounds(parts: seq<Part>, p: nat)
    requires p < |parts|
    ensures Load(parts[p]) <= Total(Load, parts) && 0 <= Total(Ended, parts)
  {
    assert forall j :: 0 <= j < |parts| ==> Values(Load, parts)[j] == Load(parts[j]) >= 0;
    assert forall j :: 0 <= j < |parts| ==> Values(Ended, parts)[j] == Ended(parts[j]) >= 0;
    SumBoundsElement(Values(Load, parts), p);
    SumNonNegative(Values(Ended, parts));
  }

  /** While a job waits to be counted, not all inserts of the run have been. */
  lemma CountHasRoom(s: State, p: nat)
    requires Inv(s) && p < |s.parts| && s.parts[p].phase == Inserted
    ensures s.counted + 1 <= s.cfg.Expected()
  {
    LoadBounds(s.parts, p);
  }

  lemma CountTallies(s: State, p: nat)
    requires Inv(s) && Enabled(s, Count(p)) && s.counted + 1 < TWO_64
    ensures Tallies(Step(s, Count(p)))
    ensures Total(Steps, Step(s, Count(p)).parts) == Total(Steps, s.parts) + 1
  {
    TotalsUpdate(s.parts, p, s.parts[p].(phase := Counted(s.counted + 1 >= s.cfg.records)));
    hide Total, Batching, PartsOk;
  }

  lemma StartTallies(s: State, p: nat)
    requires Inv(s) && Enabled(s, Start(p))
    ensures Tallies(Step(s, Start(p)))
    ensures Total(Steps, Step(s, Start(p)).parts) == Total(Steps, s.parts) + 1
  {
    TotalsUpdate(s.parts, p, Insert(s.parts[p]));
    hide Total, Batching, PartsOk;
  }

  lemma PostTotals(parts: seq<Part>, q: nat)
    requires q < |parts|
    ensures Total(Load, Post(parts, q)) == Total(Load, parts) + 1
    ensures Total(Ended, Post(parts, q)) == Total(Ended, parts)
    ensures Total(Counts, Post(parts, q)) == Total(Counts, parts)
    ensures Total(Steps, Post(parts, q)) == Total(Steps, parts)
  {
    TotalsUpdate(parts, q, parts[q].(queued := parts[q].queued + 1));
  }

  lemma GoOnTotals(parts: seq<Part>, p: nat)
    requires p < |parts| && parts[p].phase == Counted(false)
    ensures Total(Load, parts[p := GoOn(parts[p])]) == Total(Load, parts) - 1
    ensures Total(Ended, parts[p := GoOn(parts[p])]) == Total(Ended, parts)
    ensures Total(Counts, parts[p := GoOn(parts[p])]) == Total(Counts, parts)
    ensures Total(Steps, parts[p := GoOn(parts[p])]) == Total(Steps, parts) + 1
  {
    TotalsUpdate(parts, p, GoOn(parts[p]));
  }

  lemma DrainTotals(parts: seq<Part>, p: nat)
    requires p < |parts| && parts[p].phase == Counted(true)
    ensures Total(Load, parts[p := Drain(parts[p])]) == Total(Load, parts)
    ensures Total(Ended, parts[p := Drain(parts[p])]) == Total(Ended, parts)
    ensures Total(Counts, parts[p := Drain(parts[p])]) == Total(Counts, parts)
    ensures Total(Steps, parts[p := Drain(parts[p])]) == Total(Steps, parts) + 1
  {
    TotalsUpdate(parts, p, Drain(parts[p]));
  }

  lemma FinishTallies(s: State, p: nat, q: nat)
    requires Inv(s) && Enabled(s, Finish(p, q))
    ensures Tallies(Step(s, Finish(p, q)))
    ensures Total(Steps, Step(s, Finish(p, q)).parts) == Total(Steps, s.parts) + 1
  {
    var x := s.parts[p];
    assert Batching(x);
    hide Total, Batching, PartsOk, GoOn, Drain, Load, Ended, Counts, Steps, PostsSuccessor;
    if x.phase.done {
      DrainTotals(s.parts, p);
    } else {
      GoOnBatches(x);
      GoOnTotals(s.parts, p);
      PostTotals(s.parts[p := GoOn(x)], q);
    }
  }

  lemma StepKeepsTallies(s: State, e: Event)
    requires Inv(s) && Enabled(s, e) && (e.Count? ==> s.counted + 1 < TWO_64)
    ensures Tallies(Step(s, e))
    ensures Total(Steps, Step(s, e).parts) == Total(Steps, s.parts) + 1
  {
    match e {
      case Start(p) => StartTallies(s, p);
      case Count(p) => CountTallies(s, p);
      case Finish(p, q) => FinishTallies(s, p, q);
    }
  }

  /** A queue that grows does not concern the batching. */
  lemma PostBatches(x: Part, queued: nat)
    requires Batching(x)
    ensures Batching(x.(queued := queued)) && Ended(x.(queued := queued)) == Ended(x)
  {
  }

  lemma FinishKeepsParts(s: State, p: nat, q: nat)
    requires Inv(s) && Enabled(s, Finish(p, q))
    ensures PartsOk(Step(s, Finish(p, q)))
  {
    var x := s.parts[p];
    assert Batching(x);
    if x.phase.done {
      DrainBatches(x);
    } else {
      GoOnBatches(x);
      assert Ended(GoOn(x)) == Ended(x);
      hide Total, Batching, GoOn, Ended, PostsSuccessor;
      var parts := s.parts[p := GoOn(x)];
      PostBatches(parts[q], parts[q].queued + 1);
    }
    hide Total, Batching, GoOn, Drain;
  }

  lemma StepKeepsParts(s: State, e: Event)
    requires Inv(s) && Enabled(s, e) && (e.Count? ==> s.counted + 1 < TWO_64)
    ensures PartsOk(Step(s, e))
  {
    assert Batching(s.parts[e.p]);
    match e {
      case Start(p) => InsertBatches(s.parts[p]);
      case Count(p) =>
      case Finish(p, q) => FinishKeepsParts(s, p, q);
    }
    hide Total;
  }

  lemma StepKeepsInv(s: State, e: Event)
    requires Inv(s) && Enabled(s, e) && (e.Count? ==> s.counted + 1 < TWO_64)
    ensures Inv(Step(s, e))
    ensures Total(Steps, Step(s, e).parts) == Total(Steps, s.parts) + 1
  {
    StepKeepsTallies(s, e);
    StepKeepsParts(s, e);
    hide Tallies, PartsOk;
  }

  lemma {:induction false} RunKeepsInv(s: State, es: seq<Event>, t: State)
    requires Inv(s) && s.cfg.Valid() && Run(s, es, t)
    ensures Inv(t) && t.cfg == s.cfg
    ensures Total(Steps, t.parts) == Total(Steps, s.parts) + |es|
    decreases es
  {
    if es != [] {
      if es[0].Count? {
        CountHasRoom(s, es[0].p);
      }
      StepKeepsInv(s, es[0]);
      RunKeepsInv(Step(s, es[0]), es[1..], t);
    }
  }

  // ----- main results -----

  lemma {:induction false} TotalZero(f: Part -> int, parts: seq<Part>)
    requires forall p :: 0 <= p < |parts| ==> f(parts[p]) == 0
    ensures Total(f, parts) == 0
  {
    if parts != [] {
      assert Values(f, parts)[1..] == Values(f, parts[1..]);
      TotalZero(f, parts[1..]);
    }
  }

  lemma {:induction false} TotalAdd(f: Part -> int, g: Part -> int, h: Part -> int, parts: seq<Part>)
    requires forall x :: h(x) == f(x) + g(x)
    ensures Total(h, parts) == Total(f, parts) + Total(g, parts)
  {
    if parts != [] {
      assert Values(f, parts)[1..] == Values(f, parts[1..]);
      assert Values(g, parts)[1..] == Values(g, parts[1..]);
      assert Values(h, parts)[1..] == Values(h, parts[1..]);
      TotalAdd(f, g, h, parts[1..]);
    }
  }

  lemma InitInv(cfg: Config, s: State)
    requires cfg.Accepted() && Init(cfg, s)
    ensures Inv(s) && Total(Steps, s.parts) == 0
  {
    TotalZero(Ended, s.parts);
    TotalZero(Counts, s.parts);
    TotalZero(Steps, s.parts);
  }

  ghost predicate Reached(cfg: Config, s: State, es: seq<Event>, t: State) {
    cfg.Valid() && Init(cfg, s) && Run(s, es, t)
  }

  lemma ReachedInv(cfg: Config, s: State, es: seq<Event>, t: State)
    requires Reached(cfg, s, es, t)
    ensures Inv(t) && t.cfg == cfg && Total(Steps, t.parts) == |es|
  {
    InitInv(cfg, s);
    RunKeepsInv(s, es, t);
  }

  function Reserve(x: Part): int { Counts(x) + Load(x) }

  function Chains(x: Part): int { Load(x) + Ended(x) }

  function Twice(x: Part): int { Inserts(x) + Inserts(x) }

  function Thrice(x: Part): int { Twice(x) + Inserts(x) }

  lemma InsertsBounded(s: State)
    requires Inv(s)
    ensures Total(Inserts, s.parts) <= s.cfg.Expected()
  {
    LoadBounds(s.parts, 0);
    TotalOrder(Inserts, Reserve, s.parts);
    TotalAdd(Counts, Load, Reserve, s.parts);
  }

  /** In every schedule: at most k handlers are queued or running, at most R + k - 1 records are
      ever inserted, and the run ends within 3(R + k - 1) steps. */
  lemma Terminates(cfg: Config, s: State, es: seq<Event>, t: State)
    requires Reached(cfg, s, es, t)
    ensures Total(InFlight, t.parts) <= cfg.Jobs()
    ensures Total(Inserts, t.parts) <= cfg.Expected()
    ensures |es| <= 3 * cfg.Expected()
  {
    ReachedInv(cfg, s, es, t);
    InsertsBounded(t);
    TotalOrder(InFlight, Chains, t.parts);
    TotalAdd(Load, Ended, Chains, t.parts);
    TotalOrder(Steps, Thrice, t.parts);
    TotalAdd(Twice, Inserts, Thrice, t.parts);
    TotalAdd(Inserts, Inserts, Twice, t.parts);
  }

  ghost predicate Over(t: State) { forall e :: !Enabled(t, e) }

  /** A run that cannot go on is complete: every strand is idle with an empty queue, and exactly
      R + k - 1 records were inserted and counted. */
  lemma ExactCount(cfg: Config, s: State, es: seq<Event>, t: State)
    requires Reached(cfg, s, es, t) && Over(t)
    ensures forall p :: 0 <= p < |t.parts| ==> t.parts[p].phase == Idle && t.parts[p].queued == 0
    ensures t.counted == cfg.Expected() == Total(Inserts, t.parts)
  {
    ReachedInv(cfg, s, es, t);
    forall p: nat | p < |t.parts| ensures t.parts[p].phase == Idle && t.parts[p].queued == 0 {
      assert !Enabled(t, Start(p)) && !Enabled(t, Count(p)) && !Enabled(t, Finish(p, 0));
    }
    TotalZero(Load, t.parts);
    forall p | 0 <= p < |t.parts| ensures Values(Inserts, t.parts)[p] == Values(Counts, t.parts)[p] {
      assert t.parts[p].phase == Idle && Inserts(t.parts[p]) == Counts(t.parts[p]);
    }
    assert Values(Inserts, t.parts) == Values(Counts, t.parts);
  }

  /** Until the target is reached, a partition at rest has a transaction open exactly when
      `curTx` is positive, and `curTx` is the number of its uncommitted inserts, below 100. A
      transaction is never begun inside another. */
  lemma BatchesBeforeTarget(cfg: Config, s: State, es: seq<Event>, t: State, p: nat)
    requires Reached(cfg, s, es, t) && p < |t.parts|
    ensures var x := t.parts[p];
            x.phase == Idle && t.counted < cfg.records ==>
              (x.open <==> x.curTx > 0) && x.curTx == x.uncommitted < TRANSACTION_SZ
    ensures Enabled(t, Start(p)) && t.parts[p].curTx == 0 ==> !t.parts[p].open
  {
    ReachedInv(cfg, s, es, t);
    assert Batching(t.parts[p]);
  }

  /** After the drain, exactly: with `plain` successors posted and `drained` chains ended on a
      partition at rest, all its inserts are committed, none is open, and the commits that
      failed with nothing to commit number `drained - 1` unless `plain` is a multiple of 100. */
  lemma DrainExactly(cfg: Config, s: State, es: seq<Event>, t: State, p: nat)
    requires Reached(cfg, s, es, t) && p < |t.parts| && t.parts[p].phase == Idle && t.parts[p].drained > 0
    ensures var x := t.parts[p];
            && !x.open && x.uncommitted == 0 && x.committed == x.plain + x.drained
            && x.curTx == x.plain % TRANSACTION_SZ
            && x.failed == if x.plain % TRANSACTION_SZ == 0 then 0 else x.drained - 1
  {
    ReachedInv(cfg, s, es, t);
    assert Batching(t.parts[p]);
  }

  /** No insert is lost or doubled on the way, but when the run is over a partition still holds an
      open transaction exactly if no chain ended on it and its inserts do not fill whole batches. */
  lemma LeftOpen(cfg: Config, s: State, es: seq<Event>, t: State, p: nat)
    requires Reached(cfg, s, es, t) && Over(t) && p < |t.parts|
    ensures var x := t.parts[p];
            && x.committed + x.uncommitted == x.plain + x.drained
            && x.uncommitted == (if x.drained == 0 then x.plain % TRANSACTION_SZ else 0)
            && (x.open <==> x.drained == 0 && x.plain % TRANSACTION_SZ != 0)
  {
    ReachedInv(cfg, s, es, t);
    ExactCount(cfg, s, es, t);
    assert Batching(t.parts[p]);
  }

  lemma Prepend(s: State, e: Event, s': State, es: seq<Event>, t: State)
    requires Enabled(s, e) && Step(s, e) == s' && Run(s', es, t)
    ensures Run(s, [e] + es, t)
  {
    assert ([e] + es)[1..] == es;
  }

  lemma {:induction false} Append(s: State, es: seq<Event>, t: State, e: Event)
    requires Run(s, es, t) && Enabled(t, e)
    ensures Run(s, es + [e], Step(t, e))
    decreases es
  {
    if es == [] {
      Prepend(t, e, Step(t, e), [], Step(t, e));
      assert es + [e] == [e] + es;
    } else {
      Append(Step(s, es[0]), es[1..], t, e);
      assert (es + [e])[1..] == es[1..] + [e];
    }
  }

  // ----- schedules -----

  /** Every strand rests, and only partition `q` has jobs queued. */
  ghost predicate AllOn(s: State, q: nat) {
    && q < |s.parts|
    && (forall p :: 0 <= p < |s.parts| ==> s.parts[p].phase == Idle)
    && (forall p :: 0 <= p < |s.parts| && p != q ==> s.parts[p].queued == 0)
  }

  /** A total to which only one partition contributes. */
  lemma OnlyOne(f: Part -> int, parts: seq<Part>, q: nat)
    requires q < |parts| && f(Fresh(0)) == 0
    requires forall p :: 0 <= p < |parts| && p != q ==> f(parts[p]) == 0
    ensures Total(f, parts) == f(parts[q])
  {
    TotalUpdate(f, parts, q, Fresh(0));
    TotalZero(f, parts[q := Fresh(0)]);
  }

  /** One job from start to finish on partition `p`, its successor for partition `q`. */
  lemma OneJob(s: State, p: nat, q: nat) returns (t: State)
    requires Inv(s) && p < |s.parts| && q < |s.parts| && s.counted + 1 < TWO_64
    requires forall j :: 0 <= j < |s.parts| ==> s.parts[j].phase == Idle
    requires s.parts[p].queued > 0
    ensures forall es, u :: Run(t, es, u) ==> Run(s, [Start(p), Count(p), Finish(p, q)] + es, u)
    ensures Inv(t) && t.cfg == s.cfg && |t.parts| == |s.parts| && t.counted == s.counted + 1
    ensures forall j :: 0 <= j < |s.parts| ==> t.parts[j].phase == Idle
    ensures forall j :: 0 <= j < |s.parts| && j != p && j != q ==> t.parts[j] == s.parts[j]
    ensures s.counted + 1 < s.cfg.records && p != q ==>
              t.parts[p] == GoOn(Insert(s.parts[p]).(phase := Counted(false)))
  {
    assert s.records == s.counted;
    hide Inv;
    var s1 := Step(s, Start(p));
    StepKeepsInv(s, Start(p));
    var s2 := Step(s1, Count(p));
    StepKeepsInv(s1, Count(p));
    t := Step(s2, Finish(p, q));
    StepKeepsInv(s2, Finish(p, q));
    forall es, u | Run(t, es, u) ensures Run(s, [Start(p), Count(p), Finish(p, q)] + es, u) {
      JobRuns(s, s1, s2, t, p, q, es, u);
    }
  }

  lemma JobRuns(s: State, s1: State, s2: State, t: State, p: nat, q: nat, es: seq<Event>, u: State)
    requires Enabled(s, Start(p)) && s1 == Step(s, Start(p))
    requires Enabled(s1, Count(p)) && s2 == Step(s1, Count(p))
    requires Enabled(s2, Finish(p, q)) && t == Step(s2, Finish(p, q)) && Run(t, es, u)
    ensures Run(s, [Start(p), Count(p), Finish(p, q)] + es, u)
  {
    hide Step, Run, Enabled;
    Prepend(s2, Finish(p, q), t, es, u);
    Prepend(s1, Count(p), s2, [Finish(p, q)] + es, u);
    Prepend(s, Start(p), s1, [Count(p)] + ([Finish(p, q)] + es), u);
    assert [Start(p)] + ([Count(p)] + ([Finish(p, q)] + es)) == [Start(p), Count(p), Finish(p, q)] + es;
  }

  /** While fewer than R + k - 1 inserts are counted, a resting run still has a job somewhere. */
  lemma JobLeft(s: State, q: nat)
    requires Inv(s) && AllOn(s, q)
    ensures s.counted <= s.cfg.Expected()
    ensures s.parts[q].queued > 0 <==> s.counted < s.cfg.Expected()
  {
    OnlyOne(Load, s.parts, q);
  }

  /** With all jobs on one partition, that partition alone takes the run to any number of inserts. */
  lemma {:induction false} RunUntil(s: State, q: nat, n: nat) returns (es: seq<Event>, t: State)
    requires Inv(s) && AllOn(s, q) && s.counted <= n <= s.cfg.Expected() && n < TWO_64
    ensures Run(s, es, t) && Inv(t) && AllOn(t, q) && t.counted == n && t.cfg == s.cfg
    ensures |t.parts| == |s.parts| && forall p :: 0 <= p < |s.parts| && p != q ==> t.parts[p] == s.parts[p]
    decreases n - s.counted
  {
    if s.counted == n {
      es, t := [], s;
    } else {
      JobLeft(s, q);
      var s' := OneJob(s, q, q);
      es, t := RunUntil(s', q, n);
      es := [Start(q), Count(q), Finish(q, q)] + es;
    }
  }

  /** A complete run. */
  ghost predicate Complete(cfg: Config, s: State, es: seq<Event>, t: State) {
    Reached(cfg, s, es, t) && Over(t)
  }

  lemma RunToEnd(s: State, q: nat) returns (es: seq<Event>, t: State)
    requires Inv(s) && s.cfg.Valid() && AllOn(s, q)
    ensures Run(s, es, t) && Over(t)
    ensures |t.parts| == |s.parts| && forall p :: 0 <= p < |s.parts| && p != q ==> t.parts[p] == s.parts[p]
  {
    JobLeft(s, q);
    es, t := RunUntil(s, q, s.cfg.Expected());
    JobLeft(t, q);
  }

  /** All first jobs on partition 0. */
  function Stacked(cfg: Config): State
    requires cfg.partitions >= 1
  {
    State(cfg, 0, 0, seq(cfg.partitions, i => Fresh(0))[0 := Fresh(cfg.Jobs())])
  }

  /** One first job on partition 0, the others on partition 1. */
  function Split(cfg: Config): State
    requires cfg.partitions >= 2 && cfg.records >= 2
  {
    State(cfg, 0, 0, seq(cfg.partitions, i => Fresh(0))[0 := Fresh(1)][1 := Fresh(cfg.Jobs() - 1)])
  }

  lemma StackedStarts(cfg: Config)
    requires cfg.Accepted()
    ensures Init(cfg, Stacked(cfg)) && AllOn(Stacked(cfg), 0)
  {
    OnlyOne(Load, Stacked(cfg).parts, 0);
  }

  lemma SplitStarts(cfg: Config)
    requires cfg.Accepted() && cfg.partitions >= 2 && cfg.records >= 2
    ensures Init(cfg, Split(cfg))
  {
    var parts := seq(cfg.partitions, i => Fresh(0))[0 := Fresh(1)];
    OnlyOne(Load, parts, 0);
    TotalUpdate(Load, parts, 1, Fresh(cfg.Jobs() - 1));
  }

  // ----- conditions on the configuration -----

  /** Jobs of the run that went on. */
  function Going(x: Part): int { x.plain + if x.phase == Inserted || x.phase == Counted(false) then 1 else 0 }

  /** Of a complete run's jobs exactly R - 1 go on and exactly k are the last of their chains. */
  lemma FinalTotals(cfg: Config, s: State, es: seq<Event>, t: State)
    requires Complete(cfg, s, es, t)
    ensures Total(Ended, t.parts) == cfg.Jobs() && Total(Going, t.parts) == cfg.records - 1
  {
    ReachedInv(cfg, s, es, t);
    ExactCount(cfg, s, es, t);
    TotalAdd(Going, Ended, Inserts, t.parts);
  }

  /** Everything happens on partition 0: R - 1 jobs go on there and k chains end there. */
  lemma StackedRun(cfg: Config) returns (s: State, es: seq<Event>, t: State)
    requires cfg.Valid()
    ensures Complete(cfg, s, es, t) && |t.parts| == cfg.partitions
    ensures t.parts[0].plain == cfg.records - 1 && t.parts[0].drained == cfg.Jobs()
  {
    s := Stacked(cfg);
    StackedStarts(cfg);
    InitInv(cfg, s);
    es, t := RunToEnd(s, 0);
    ExactCount(cfg, s, es, t);
    FinalTotals(cfg, s, es, t);
    OnlyOne(Ended, t.parts, 0);
    OnlyOne(Going, t.parts, 0);
  }

  /** A partition after one insert whose job went on elsewhere. */
  const OPEN_PART := Part(0, Idle, 1, true, 1, 0, 0, 1, 0)

  /** The first insert on partition 0, whose job goes on to partition 1. */
  lemma SplitFirst(cfg: Config) returns (t: State)
    requires cfg.Valid() && cfg.partitions >= 2 && cfg.records >= 2
    ensures forall es, u :: Run(t, es, u) ==> Run(Split(cfg), [Start(0), Count(0), Finish(0, 1)] + es, u)
    ensures Inv(t) && AllOn(t, 1) && t.cfg == cfg && |t.parts| == cfg.partitions
    ensures t.parts[0] == OPEN_PART && forall p :: 2 <= p < |t.parts| ==> t.parts[p] == Fresh(0)
  {
    var s := Split(cfg);
    SplitStarts(cfg);
    InitInv(cfg, s);
    assert s.parts[0] == Fresh(1);
    assert GoOn(Insert(Fresh(1)).(phase := Counted(false))) == OPEN_PART;
    hide Inv, Init, Total, Run, GoOn, Insert;
    t := OneJob(s, 0, 1);
  }

  lemma SplitTotals(parts: seq<Part>)
    requires |parts| >= 2 && parts[0] == OPEN_PART && forall p :: 2 <= p < |parts| ==> parts[p] == Fresh(0)
    ensures Total(Ended, parts) == Ended(parts[1]) && Total(Going, parts) == Going(parts[1]) + 1
  {
    OnlyOne(Ended, parts, 1);
    TotalUpdate(Going, parts, 0, Fresh(0));
    OnlyOne(Going, parts[0 := Fresh(0)], 1);
  }

  /** One insert goes on from partition 0; all the rest happens on partition 1. */
  lemma SplitRun(cfg: Config) returns (s: State, es: seq<Event>, t: State)
    requires cfg.Valid() && cfg.partitions >= 2 && cfg.records >= 2
    ensures Complete(cfg, s, es, t) && |t.parts| == cfg.partitions
    ensures t.parts[0] == OPEN_PART
    ensures t.parts[1].plain == cfg.records - 2 && t.parts[1].drained == cfg.Jobs()
  {
    hide Inv, Run, Total, Over, AllOn;
    s := Split(cfg);
    SplitStarts(cfg);
    var s' := SplitFirst(cfg);
    es, t := RunToEnd(s', 1);
    es := [Start(0), Count(0), Finish(0, 1)] + es;
    ExactCount(cfg, s, es, t);
    FinalTotals(cfg, s, es, t);
    SplitTotals(t.parts);
  }

  /** Given two partitions and two records, a complete run can leave an insert uncommitted. */
  lemma CanLeaveOpen(cfg: Config) returns (s: State, es: seq<Event>, t: State)
    requires cfg.Valid() && cfg.partitions >= 2 && cfg.records >= 2
    ensures Complete(cfg, s, es, t)
    ensures |t.parts| >= 1 && t.parts[0].open && t.parts[0].uncommitted == 1
  {
    s, es, t := SplitRun(cfg);
  }

  /** A partition on which all k chains end makes k - 1 commits fail, unless the jobs that went on
      there fill whole batches; one of the two schedules above does not. */
  lemma CanFailCommit(cfg: Config) returns (s: State, es: seq<Event>, t: State, p: nat)
    requires cfg.Valid() && cfg.records >= 2
    requires cfg.partitions >= 2 || (cfg.records - 1) % TRANSACTION_SZ != 0
    ensures Complete(cfg, s, es, t)
    ensures p < |t.parts| && t.parts[p].failed == cfg.Jobs() - 1 > 0
  {
    if (cfg.records - 1) % TRANSACTION_SZ != 0 {
      s, es, t := StackedRun(cfg);
      p := 0;
    } else {
      s, es, t := SplitRun(cfg);
      p := 1;
    }
    ExactCount(cfg, s, es, t);
    DrainExactly(cfg, s, es, t, p);
  }

  /** No complete run ends with an open transaction. */
  ghost predicate NeverLeavesOpen(cfg: Config) {
    forall s, es, t, p :: Complete(cfg, s, es, t) && 0 <= p < |t.parts| ==> !t.parts[p].open
  }

  /** No complete run makes a commit fail. */
  ghost predicate NeverFailsCommit(cfg: Config) {
    forall s, es, t, p :: Complete(cfg, s, es, t) && 0 <= p < |t.parts| ==> t.parts[p].failed == 0
  }

  /** Where a complete run's jobs can have gone: no partition has more of them than the run, and
      a single partition has them all. */
  lemma Shares(cfg: Config, s: State, es: seq<Event>, t: State, p: nat)
    requires Complete(cfg, s, es, t) && p < |t.parts|
    ensures t.parts[p].plain <= cfg.records - 1 && t.parts[p].drained <= cfg.Jobs()
    ensures cfg.partitions == 1 ==> t.parts[p].plain == cfg.records - 1 && t.parts[p].drained == cfg.Jobs()
  {
    ReachedInv(cfg, s, es, t);
    ExactCount(cfg, s, es, t);
    FinalTotals(cfg, s, es, t);
    ElementBound(Ended, t.parts, p);
    ElementBound(Going, t.parts, p);
    if cfg.partitions == 1 {
      OnlyOne(Ended, t.parts, p);
      OnlyOne(Going, t.parts, p);
    }
  }

  /** The finished run always has its inserts committed exactly if there is but one partition, or
      but one record. */
  lemma NeverLeavesOpenExactly(cfg: Config)
    requires cfg.Valid()
    ensures NeverLeavesOpen(cfg) <==> cfg.partitions == 1 || cfg.records == 1
  {
    if cfg.partitions == 1 || cfg.records == 1 {
      forall s, es, t, p: nat | Complete(cfg, s, es, t) && p < |t.parts| ensures !t.parts[p].open {
        Shares(cfg, s, es, t, p);
        LeftOpen(cfg, s, es, t, p);
      }
    } else {
      var s, es, t := CanLeaveOpen(cfg);
      assert Complete(cfg, s, es, t) && t.parts[0].open;
    }
  }

  /** With one partition, k - 1 commits fail in every complete run, or none if whole batches fit. */
  lemma OnePartitionFails(cfg: Config, s: State, es: seq<Event>, t: State)
    requires Complete(cfg, s, es, t) && cfg.partitions == 1
    ensures |t.parts| == 1
    ensures t.parts[0].failed == if (cfg.records - 1) % TRANSACTION_SZ == 0 then 0 else cfg.Jobs() - 1
  {
    ReachedInv(cfg, s, es, t);
    ExactCount(cfg, s, es, t);
    Shares(cfg, s, es, t, 0);
    DrainExactly(cfg, s, es, t, 0);
  }

  /** No commit ever fails exactly if there is but one record, or one partition whose inserts before
      the drain fill whole batches. */
  lemma NeverFailsCommitExactly(cfg: Config)
    requires cfg.Valid()
    ensures NeverFailsCommit(cfg) <==>
              cfg.records == 1 || (cfg.partitions == 1 && (cfg.records - 1) % TRANSACTION_SZ == 0)
  {
    if cfg.records == 1 || (cfg.partitions == 1 && (cfg.records - 1) % TRANSACTION_SZ == 0) {
      forall s, es, t, p: nat | Complete(cfg, s, es, t) && p < |t.parts| ensures t.parts[p].failed == 0 {
        FailsLess(cfg, s, es, t, p);
        if cfg.records != 1 {
          OnePartitionFails(cfg, s, es, t);
        }
      }
    } else {
      var s, es, t, p := CanFailCommit(cfg);
      assert Complete(cfg, s, es, t) && t.parts[p].failed != 0;
    }
  }

  /** Fewer commits fail on a partition than chains end there. */
  lemma FailsLess(cfg: Config, s: State, es: seq<Event>, t: State, p: nat)
    requires Complete(cfg, s, es, t) && p < |t.parts|
    ensures t.parts[p].failed == 0 || t.parts[p].failed < t.parts[p].drained <= cfg.Jobs()
  {
    ReachedInv(cfg, s, es, t);
    ExactCount(cfg, s, es, t);
    Shares(cfg, s, es, t, p);
    assert Batching(t.parts[p]);
  }

  /** Every job of every run is told rightly whether the target has been reached. */
  ghost predicate IsDoneRight(cfg: Config) {
    forall s, es, t, p: nat ::
      Init(cfg, s) && Run(s, es, t) && Enabled(t, Count(p)) ==>
        (Step(t, Count(p)).parts[p].phase.done <==> t.counted + 1 >= cfg.records)
  }

  /** A run in which the counter wraps to zero before the last job is counted. */
  lemma CanWrap(cfg: Config) returns (s: State, es: seq<Event>, t: State)
    requires cfg.Accepted() && cfg.Expected() >= TWO_64
    ensures Init(cfg, s) && Run(s, es, t) && Enabled(t, Count(0)) && t.counted + 1 == TWO_64
    ensures Step(t, Count(0)).records == 0 && !Step(t, Count(0)).parts[0].phase.done
  {
    s := Stacked(cfg);
    StackedStarts(cfg);
    InitInv(cfg, s);
    es, t := RunUntil(s, 0, TWO_64 - 1);
    JobLeft(t, 0);
    Append(s, es, t, Start(0));
    es, t := es + [Start(0)], Step(t, Start(0));
  }

  lemma ToldRightly(cfg: Config, s: State, es: seq<Event>, t: State, p: nat)
    requires Reached(cfg, s, es, t) && Enabled(t, Count(p))
    ensures Step(t, Count(p)).parts[p].phase.done <==> t.counted + 1 >= cfg.records
  {
    ReachedInv(cfg, s, es, t);
    CountHasRoom(t, p);
    hide Run, Init, Total, PartsOk;
  }

  /** `is_done` is right in every run exactly if R + k - 1 is below 2^64: otherwise there is a run
      whose counter wraps and a job that goes on after the target. */
  lemma IsDoneExact(cfg: Config)
    requires cfg.Accepted()
    ensures IsDoneRight(cfg) <==> cfg.Expected() < TWO_64
  {
    hide Run, Init;
    if cfg.Expected() < TWO_64 {
      forall s, es, t, p: nat | Init(cfg, s) && Run(s, es, t) && Enabled(t, Count(p))
        ensures Step(t, Count(p)).parts[p].phase.done <==> t.counted + 1 >= cfg.records
      {
        ToldRightly(cfg, s, es, t, p);
      }
    } else {
      var s, es, t := CanWrap(cfg);
      assert Init(cfg, s) && Run(s, es, t) && Enabled(t, Count(0));
    }
  }

  lemma ElementBound(f: Part -> int, parts: seq<Part>, p: nat)
    requires p < |parts| && forall x :: f(x) >= 0
    ensures f(parts[p]) <= Total(f, parts)
  {
    assert forall j :: 0 <= j < |parts| ==> Values(f, parts)[j] == f(parts[j]);
    SumBoundsElement(Values(f, parts), p);
  }

  // ----- past the hundred -----

  /** A commit that throws on a job meant to go on: nothing is posted, so its chain is broken off,
      and `curTx` is left at a hundred. */
  lemma ThrowBreaksChain(s: State, p: nat, q: nat)
    requires Enabled(s, Finish(p, q)) && s.parts[p].phase == Counted(false)
    requires s.parts[p].curTx + 1 == TRANSACTION_SZ && !s.parts[p].open
    ensures var t := Step(s, Finish(p, q));
            && (forall j :: 0 <= j < |s.parts| ==> t.parts[j].queued == s.parts[j].queued)
            && t.parts[p].curTx == TRANSACTION_SZ && t.parts[p].failed == s.parts[p].failed + 1
            && !t.parts[p].open && t.parts[p].plain == s.parts[p].plain + 1
  {
  }

  /** From then on the partition never batches again, however the run goes on: its inserts are
      committed one by one, and commits are tried, and fail, only where chains end. */
  lemma {:induction false} NeverBatchesAgain(s: State, es: seq<Event>, t: State, p: nat)
    requires Run(s, es, t) && p < |s.parts|
    requires s.parts[p].curTx >= TRANSACTION_SZ && !s.parts[p].open && s.parts[p].uncommitted == 0
    ensures p < |t.parts|
    ensures var x, y := s.parts[p], t.parts[p];
            && y.curTx >= TRANSACTION_SZ && !y.open && y.uncommitted == 0
            && y.failed - x.failed == y.drained - x.drained
            && y.committed - x.committed == Inserts(y) - Inserts(x)
    decreases es
  {
    if es != [] {
      NeverBatchesAgain(Step(s, es[0]), es[1..], t, p);
    }
  }

  // ----- the partition object -----

  /** A partition's transaction state, and `handle_create` run on its strand. */
  class Partition {
    var curTx: nat
    var open: bool
    var uncommitted: nat
    var committed: nat
    var failed: nat
    var plain: nat
    var drained: nat

    ghost function View(queued: nat, phase: Phase): Part
      reads this
    {
      Part(queued, phase, curTx, open, uncommitted, committed, failed, plain, drained)
    }

    constructor ()
      ensures View(0, Idle) == Fresh(0)
    {
      curTx, open, uncommitted, committed, failed, plain, drained := 0, false, 0, 0, 0, 0, 0;
    }

    /** The commit statement; `ok` is false if it throws. */
    method CommitTransaction(ghost phase: Phase) returns (ok: bool)
      modifies this
      ensures ok == old(open)
      ensures View(0, phase) == Commit(old(View(0, phase)))
    {
      ok := open;
      if open {
        open, committed, uncommitted := false, committed + uncommitted, 0;
      } else {
        failed := failed + 1;
      }
    }

    /** `handle_create` with the answer `isDone` of the shared counter; `posts` tells whether a
        successor is posted. */
    method HandleCreate(isDone: bool) returns (posts: bool)
      modifies this
      ensures var x := Insert(old(View(1, Idle))).(phase := Counted(isDone));
              View(0, Idle) == if isDone then Drain(x) else GoOn(x)
      ensures posts <==> !isDone && (old(curTx) + 1 != TRANSACTION_SZ || old(open))
      ensures old(Batching(View(1, Idle))) && (old(drained) > 0 ==> isDone) ==>
                Batching(View(0, Idle)) && (posts <==> !isDone)
    {
      ghost var before := View(1, Idle);
      if curTx == 0 {
        open := true;
      }
      if open {
        uncommitted := uncommitted + 1;
      } else {
        committed := committed + 1;
      }
      ghost var x := Insert(before).(phase := Counted(isDone));
      assert View(0, Counted(isDone)) == x;
      if !isDone {
        curTx, plain := curTx + 1, plain + 1;
        posts := true;
        if curTx == TRANSACTION_SZ {
          posts := CommitTransaction(Idle);
          if posts {
            curTx := 0;
          }
        }
      } else {
        drained := drained + 1;
        var ok := CommitTransaction(Idle);
        posts := false;
      }
      if Batching(before) && (before.drained > 0 ==> isDone) {
        HandlerBatches(before, isDone);
      }
      hide Batching, Insert, Drain, GoOn;
    }
  }

  lemma HandlerBatches(before: Part, isDone: bool)
    requires Batching(before) && before.phase == Idle && before.queued > 0 && (before.drained > 0 ==> isDone)
    ensures var x := Insert(before).(phase := Counted(isDone));
            Batching(if isDone then Drain(x) else GoOn(x)) && (!isDone ==> PostsSuccessor(x))
  {
    InsertBatches(before);
    var x := Insert(before).(phase := Counted(isDone));
    if isDone {
      DrainBatches(x);
    } else {
      GoOnBatches(x);
    }
  }
}
