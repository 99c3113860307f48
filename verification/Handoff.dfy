/** A query's journey between executors: from the connection that awaits it, through the
    database pool's queue and a database thread, to a completion posted back to the
    connection's own executor. */
module Handoff {
  import opened Common

  /** Protobuf messages; nothing here looks inside them. */
  type Request = string
  type Response = string

  /** A posted closure, or the job running it. It captures the executor, the suspended coroutine
      (`conn`, at its await number `ticket`), the request and, later, the response. */
  datatype Item = Item(conn: nat, executor: nat, ticket: nat, request: Request, response: Option<Response>)

  datatype Submission = Submission(conn: nat, request: Request)

  /** Who is connected, who awaits what, and what was submitted and answered so far. */
  datatype Context = Context(
    executors: map<nat, nat>,     // the executor of every connection
    awaiting: map<nat, nat>,      // suspended connections, each with its ticket
    gone: set<nat>,               // connections ended by the end of their job
    submitted: seq<Submission>,
    answers: map<nat, Response>)  // what `run_query` returned, by ticket

  datatype State = State(
    threads: nat,          // threads of the database pool
    ctx: Context,
    queue: seq<Item>,      // posted to the database pool
    running: seq<Item>,    // being run by a database thread
    posted: seq<Item>,     // posted to connections' executors
    dying: seq<Item>,      // jobs that died with a foreign exception, their coroutine's end still posted
    delivered: seq<Item>,  // handlers run, and on which executor
    unwound: seq<Item>)    // jobs whose coroutine was destroyed instead of resumed

  datatype Event =
    | Connect(conn: nat, executor: nat)
    | Submit(conn: nat, request: Request)      // co_await call_query
    | Dequeue                                   // a database thread takes the next job
    | Finish(i: nat, response: Response)        // run_query returns; the handler posts the completion
    | Throw(i: nat)                             // anything but sqlite::error escapes run_query
    | Resume(i: nat)                            // an executor runs a completion
    | Unwind(i: nat)                            // an executor destroys a coroutine that nobody can resume

  function Init(threads: nat): State {
    State(threads, Context(map[], map[], {}, [], map[]), [], [], [], [], [], [])
  }

  predicate Enabled(s: State, e: Event) {
    match e
    case Connect(c, _) => c !in s.ctx.executors
    case Submit(c, _) => c in s.ctx.executors && c !in s.ctx.awaiting && c !in s.ctx.gone
    case Dequeue => |s.queue| > 0 && |s.running| < s.threads
    case Finish(i, _) => i < |s.running|
    case Throw(i) => i < |s.running|
    case Resume(i) => i < |s.posted| && s.posted[i].response.Some?
    case Unwind(i) => i < |s.dying|
  }

  function Without<T>(s: seq<T>, i: nat): seq<T>
    requires i < |s|
  {
    s[..i] + s[i + 1..]
  }

  function Suspend(x: Context, c: nat, request: Request): Context {
    x.(awaiting := x.awaiting[c := |x.submitted|], submitted := x.submitted + [Submission(c, request)])
  }

  function Answer(x: Context, ticket: nat, response: Response): Context {
    x.(answers := x.answers[ticket := response])
  }

  function Continue(x: Context, c: nat): Context {
    x.(awaiting := x.awaiting - {c})
  }

  function End(x: Context, c: nat): Context {
    Continue(x, c).(gone := x.gone + {c})
  }

  function Step(s: State, e: Event): State
    requires Enabled(s, e)
  {
    match e
    case Connect(c, x) => s.(ctx := s.ctx.(executors := s.ctx.executors[c := x]))
    case Submit(c, request) =>
      s.(ctx := Suspend(s.ctx, c, request),
         queue := s.queue + [Item(c, s.ctx.executors[c], |s.ctx.submitted|, request, None)])
    case Dequeue => s.(queue := s.queue[1..], running := s.running + [s.queue[0]])
    case Finish(i, response) =>
      var job := s.running[i];
      s.(ctx := Answer(s.ctx, job.ticket, response),
         running := Without(s.running, i),
         posted := s.posted + [job.(response := Some(response))])
    case Throw(i) => s.(running := Without(s.running, i), dying := s.dying + [s.running[i]])
    case Resume(i) =>
      s.(ctx := Continue(s.ctx, s.posted[i].conn),
         posted := Without(s.posted, i),
         delivered := s.delivered + [s.posted[i]])
    case Unwind(i) =>
      s.(ctx := End(s.ctx, s.dying[i].conn),
         dying := Without(s.dying, i),
         unwound := s.unwound + [s.dying[i]])
  }

  ghost predicate Run(s: State, es: seq<Event>, t: State)
    decreases es
  {
    if es == [] then s == t else Enabled(s, es[0]) && Run(Step(s, es[0]), es[1..], t)
  }

  // ----- counting items -----

  /** How many items of a queue belong to a connection. */
  function Count(q: seq<Item>, c: nat): nat {
    if q == [] then 0 else (if q[0].conn == c then 1 else 0) + Count(q[1..], c)
  }

  lemma {:induction false} CountConcat(a: seq<Item>, b: seq<Item>, c: nat)
    ensures Count(a + b, c) == Count(a, c) + Count(b, c)
  {
    if a == [] {
      assert a + b == b;
    } else {
      assert (a + b)[1..] == a[1..] + b;
      CountConcat(a[1..], b, c);
    }
  }

  lemma CountAppend(q: seq<Item>, x: Item, c: nat)
    ensures Count(q + [x], c) == Count(q, c) + if x.conn == c then 1 else 0
  {
    CountConcat(q, [x], c);
  }

  lemma CountWithout(q: seq<Item>, i: nat, c: nat)
    requires i < |q|
    ensures Count(Without(q, i), c) == Count(q, c) - if q[i].conn == c then 1 else 0
  {
    CountConcat(q[..i], q[i + 1..], c);
    assert q == q[..i] + ([q[i]] + q[i + 1..]);
    CountConcat(q[..i], [q[i]] + q[i + 1..], c);
    CountConcat([q[i]], q[i + 1..], c);
  }

  lemma {:induction false} CountMember(q: seq<Item>, i: nat)
    requires i < |q|
    ensures Count(q, q[i].conn) >= 1
  {
    if i > 0 {
      CountMember(q[1..], i - 1);
    }
  }

  lemma {:induction false} CountZero(q: seq<Item>, c: nat)
    requires Count(q, c) == 0
    ensures forall x :: x in q ==> x.conn != c
  {
    if q != [] {
      CountZero(q[1..], c);
      assert q == [q[0]] + q[1..];
    }
  }

  /** All items of a connection, wherever they are. */
  function Items(s: State, c: nat): nat {
    Count(s.queue, c) + Count(s.running, c) + Count(s.posted, c) + Count(s.dying, c)
  }

  // ----- the invariant -----

  ghost predicate OneEach(s: State) {
    forall c: nat :: Items(s, c) == if c in s.ctx.awaiting then 1 else 0
  }

  /** The item belongs to the await its connection is suspended in. */
  ghost predicate Fits(ctx: Context, x: Item) {
    && x.conn in ctx.awaiting && ctx.awaiting[x.conn] == x.ticket
    && x.conn in ctx.executors && ctx.executors[x.conn] == x.executor
    && x.ticket < |ctx.submitted| && ctx.submitted[x.ticket] == Submission(x.conn, x.request)
    && (x.response.Some? ==> x.ticket in ctx.answers && ctx.answers[x.ticket] == x.response.value)
    && (x.response.None? ==> x.ticket !in ctx.answers)
  }

  ghost predicate AllFit(ctx: Context, q: seq<Item>) {
    forall x :: x in q ==> Fits(ctx, x)
  }

  ghost predicate EveryFit(s: State) {
    && AllFit(s.ctx, s.queue) && AllFit(s.ctx, s.running) && AllFit(s.ctx, s.posted) && AllFit(s.ctx, s.dying)
  }

  ghost predicate Stages(s: State) {
    && (forall x :: x in s.queue || x in s.running || x in s.dying ==> x.response.None?)
    && (forall x :: x in s.posted ==> x.response.Some?)
  }

  ghost predicate Tickets(ctx: Context) {
    && (forall c :: c in ctx.awaiting ==> c in ctx.executors && ctx.awaiting[c] < |ctx.submitted|)
    && (forall t :: t in ctx.answers ==> t < |ctx.submitted|)
    && (forall c, d :: c in ctx.awaiting && d in ctx.awaiting && ctx.awaiting[c] == ctx.awaiting[d] ==> c == d)
  }

  /** A handler that was run was run for its own await, where it belongs, with its own answer. */
  ghost predicate Correct(ctx: Context, x: Item) {
    && x.ticket < |ctx.submitted| && ctx.submitted[x.ticket] == Submission(x.conn, x.request)
    && x.conn in ctx.executors && ctx.executors[x.conn] == x.executor
    && x.ticket in ctx.answers && x.response == Some(ctx.answers[x.ticket])
  }

  ghost predicate Deliveries(ctx: Context, delivered: seq<Item>) {
    && (forall x :: x in delivered ==> Correct(ctx, x))
    && (forall i, j :: 0 <= i < j < |delivered| ==> delivered[i].ticket != delivered[j].ticket)
    && (forall x, c :: x in delivered && c in ctx.awaiting ==> ctx.awaiting[c] != x.ticket)
  }

  /** An unwound await ended unanswered, and its connection with it, where it belongs. */
  ghost predicate Ended(ctx: Context, x: Item) {
    && x.conn in ctx.gone && x.ticket !in ctx.answers
    && x.conn in ctx.executors && ctx.executors[x.conn] == x.executor
    && x.ticket < |ctx.submitted| && ctx.submitted[x.ticket] == Submission(x.conn, x.request)
  }

  ghost predicate Endings(ctx: Context, unwound: seq<Item>) {
    && (forall x :: x in unwound ==> Ended(ctx, x))
    && (forall c :: c in ctx.gone ==> c in ctx.executors && c !in ctx.awaiting && exists x :: x in unwound && x.conn == c)
    && (forall i, j :: 0 <= i < j < |unwound| ==> unwound[i].conn != unwound[j].conn)
  }

  ghost predicate Balanced(s: State) {
    |s.ctx.submitted| == |s.queue| + |s.running| + |s.posted| + |s.dying| + |s.delivered| + |s.unwound|
  }

  ghost predicate Inv(s: State) {
    && OneEach(s) && EveryFit(s) && Stages(s) && Tickets(s.ctx)
    && Deliveries(s.ctx, s.delivered) && Endings(s.ctx, s.unwound) && Balanced(s)
  }

  // ----- one item per connection -----

  lemma StepCounts(s: State, e: Event, c: nat)
    requires Enabled(s, e)
    ensures Items(Step(s, e), c) == match e
                                    case Submit(d, _) => Items(s, c) + (if c == d then 1 else 0)
                                    case Resume(i) => Items(s, c) - (if c == s.posted[i].conn then 1 else 0)
                                    case Unwind(i) => Items(s, c) - (if c == s.dying[i].conn then 1 else 0)
                                    case _ => Items(s, c)
  {
    var t := Step(s, e);
    match e {
      case Connect(_, _) =>
      case Submit(_, _) => CountAppend(s.queue, t.queue[|s.queue|], c);
      case Dequeue => CountAppend(s.running, s.queue[0], c);
      case Finish(i, _) =>
        CountWithout(s.running, i, c);
        CountAppend(s.posted, t.posted[|s.posted|], c);
      case Throw(i) =>
        CountWithout(s.running, i, c);
        CountAppend(s.dying, s.running[i], c);
      case Resume(i) => CountWithout(s.posted, i, c);
      case Unwind(i) => CountWithout(s.dying, i, c);
    }
  }

  lemma StepKeepsOneEach(s: State, e: Event)
    requires OneEach(s) && EveryFit(s) && Enabled(s, e)
    ensures OneEach(Step(s, e))
  {
    if e.Resume? {
      assert Fits(s.ctx, s.posted[e.i]);
    } else if e.Unwind? {
      assert Fits(s.ctx, s.dying[e.i]);
    }
    hide Count;
    forall c: nat ensures Items(Step(s, e), c) == if c in Step(s, e).ctx.awaiting then 1 else 0 {
      StepCounts(s, e, c);
    }
  }

  /** With one item per connection, the items left behind belong to other connections. */
  lemma OthersThanRunning(s: State, i: nat)
    requires OneEach(s) && i < |s.running|
    ensures forall x :: x in s.queue + Without(s.running, i) + s.posted + s.dying ==> x.conn != s.running[i].conn
  {
    var c := s.running[i].conn;
    assert Items(s, c) <= 1;
    CountWithout(s.running, i, c);
    CountZero(s.queue, c);
    CountZero(Without(s.running, i), c);
    CountZero(s.posted, c);
    CountZero(s.dying, c);
  }

  lemma OthersThanPosted(s: State, i: nat)
    requires OneEach(s) && i < |s.posted|
    ensures forall x :: x in s.queue + s.running + Without(s.posted, i) + s.dying ==> x.conn != s.posted[i].conn
  {
    var c := s.posted[i].conn;
    assert Items(s, c) <= 1;
    CountWithout(s.posted, i, c);
    CountZero(s.queue, c);
    CountZero(s.running, c);
    CountZero(Without(s.posted, i), c);
    CountZero(s.dying, c);
  }

  lemma OthersThanDying(s: State, i: nat)
    requires OneEach(s) && i < |s.dying|
    ensures forall x :: x in s.queue + s.running + s.posted + Without(s.dying, i) ==> x.conn != s.dying[i].conn
  {
    var c := s.dying[i].conn;
    assert Items(s, c) <= 1;
    CountWithout(s.dying, i, c);
    CountZero(s.queue, c);
    CountZero(s.running, c);
    CountZero(s.posted, c);
    CountZero(Without(s.dying, i), c);
  }

  // ----- items keep fitting -----

  lemma SuspendFits(ctx: Context, c: nat, request: Request, q: seq<Item>)
    requires AllFit(ctx, q) && Tickets(ctx) && c in ctx.executors && c !in ctx.awaiting
    ensures AllFit(Suspend(ctx, c, request), q)
    ensures Fits(Suspend(ctx, c, request), Item(c, ctx.executors[c], |ctx.submitted|, request, None))
  {
  }

  lemma AnswerFits(ctx: Context, job: Item, response: Response, q: seq<Item>)
    requires AllFit(ctx, q) && Tickets(ctx) && Fits(ctx, job)
    requires forall x :: x in q ==> x.conn != job.conn
    ensures AllFit(Answer(ctx, job.ticket, response), q)
    ensures Fits(Answer(ctx, job.ticket, response), job.(response := Some(response)))
  {
  }

  lemma ContinueFits(ctx: Context, c: nat, q: seq<Item>)
    requires AllFit(ctx, q)
    requires forall x :: x in q ==> x.conn != c
    ensures AllFit(Continue(ctx, c), q) && AllFit(End(ctx, c), q)
  {
  }

  lemma AppendFits(ctx: Context, q: seq<Item>, x: Item)
    requires AllFit(ctx, q) && Fits(ctx, x)
    ensures AllFit(ctx, q + [x])
  {
  }

  lemma WithoutFits(ctx: Context, q: seq<Item>, i: nat)
    requires AllFit(ctx, q) && i < |q|
    ensures AllFit(ctx, Without(q, i)) && Fits(ctx, q[i])
  {
  }

  lemma ConnectFits(ctx: Context, c: nat, x: nat, q: seq<Item>)
    requires AllFit(ctx, q) && c !in ctx.executors
    ensures AllFit(ctx.(executors := ctx.executors[c := x]), q)
  {
  }

  lemma StepKeepsFit(s: State, e: Event)
    requires OneEach(s) && EveryFit(s) && Tickets(s.ctx) && Enabled(s, e)
    ensures EveryFit(Step(s, e))
  {
    var ctx := Step(s, e).ctx;
    match e {
      case Connect(c, x) =>
        ConnectFits(s.ctx, c, x, s.queue);
        ConnectFits(s.ctx, c, x, s.running);
        ConnectFits(s.ctx, c, x, s.posted);
        ConnectFits(s.ctx, c, x, s.dying);
      case Submit(c, request) =>
        SuspendFits(s.ctx, c, request, s.queue);
        SuspendFits(s.ctx, c, request, s.running);
        SuspendFits(s.ctx, c, request, s.posted);
        SuspendFits(s.ctx, c, request, s.dying);
        hide AllFit, Fits, OneEach, Tickets;
        AppendFits(ctx, s.queue, Item(c, s.ctx.executors[c], |s.ctx.submitted|, request, None));
      case Dequeue =>
        assert s.queue[1..] == Without(s.queue, 0);
        WithoutFits(s.ctx, s.queue, 0);
        AppendFits(s.ctx, s.running, s.queue[0]);
      case Finish(i, response) =>
        var job := s.running[i];
        OthersThanRunning(s, i);
        hide AllFit, Fits, OneEach, Tickets;
        WithoutFits(s.ctx, s.running, i);
        AnswerFits(s.ctx, job, response, s.queue);
        AnswerFits(s.ctx, job, response, Without(s.running, i));
        AnswerFits(s.ctx, job, response, s.posted);
        AnswerFits(s.ctx, job, response, s.dying);
        AppendFits(ctx, s.posted, job.(response := Some(response)));
      case Throw(i) =>
        WithoutFits(s.ctx, s.running, i);
        AppendFits(s.ctx, s.dying, s.running[i]);
      case Resume(i) =>
        OthersThanPosted(s, i);
        hide AllFit, Fits, OneEach, Tickets;
        WithoutFits(s.ctx, s.posted, i);
        ContinueFits(s.ctx, s.posted[i].conn, s.queue);
        ContinueFits(s.ctx, s.posted[i].conn, s.running);
        ContinueFits(s.ctx, s.posted[i].conn, Without(s.posted, i));
        ContinueFits(s.ctx, s.posted[i].conn, s.dying);
      case Unwind(i) =>
        OthersThanDying(s, i);
        hide AllFit, Fits, OneEach, Tickets;
        WithoutFits(s.ctx, s.dying, i);
        ContinueFits(s.ctx, s.dying[i].conn, s.queue);
        ContinueFits(s.ctx, s.dying[i].conn, s.running);
        ContinueFits(s.ctx, s.dying[i].conn, s.posted);
        ContinueFits(s.ctx, s.dying[i].conn, Without(s.dying, i));
    }
  }

  lemma StepKeepsStages(s: State, e: Event)
    requires Stages(s) && Enabled(s, e)
    ensures Stages(Step(s, e))
  {
  }

  lemma StepKeepsTickets(s: State, e: Event)
    requires Tickets(s.ctx) && EveryFit(s) && Enabled(s, e)
    ensures Tickets(Step(s, e).ctx)
  {
    if e.Finish? {
      assert Fits(s.ctx, s.running[e.i]);
    }
    hide AllFit, Fits;
  }

  lemma StepKeepsDeliveries(s: State, e: Event)
    requires Deliveries(s.ctx, s.delivered) && Tickets(s.ctx) && EveryFit(s) && Stages(s) && Enabled(s, e)
    ensures Deliveries(Step(s, e).ctx, Step(s, e).delivered)
  {
    if e.Finish? {
      assert Fits(s.ctx, s.running[e.i]);
    } else if e.Resume? {
      assert Fits(s.ctx, s.posted[e.i]);
    }
    hide AllFit, EveryFit, Stages;
  }

  lemma StepKeepsEndings(s: State, e: Event)
    requires Endings(s.ctx, s.unwound) && Tickets(s.ctx) && EveryFit(s) && Stages(s) && Enabled(s, e)
    ensures Endings(Step(s, e).ctx, Step(s, e).unwound)
  {
    if e.Finish? {
      assert Fits(s.ctx, s.running[e.i]);
      AnswerEnds(s.ctx, s.running[e.i], e.response, s.unwound);
    } else if e.Unwind? {
      assert Fits(s.ctx, s.dying[e.i]) && s.dying[e.i] in s.dying;
      EndEnds(s.ctx, s.dying[e.i], s.unwound);
    } else {
      hide AllFit, EveryFit, Stages, Tickets, Fits;
      forall x | x in s.unwound ensures Ended(Step(s, e).ctx, x) {
        assert Ended(s.ctx, x);
      }
    }
  }

  lemma AnswerEnds(ctx: Context, job: Item, response: Response, unwound: seq<Item>)
    requires Endings(ctx, unwound) && Fits(ctx, job)
    ensures Endings(Answer(ctx, job.ticket, response), unwound)
  {
    forall x | x in unwound ensures Ended(Answer(ctx, job.ticket, response), x) {
      assert Ended(ctx, x);
    }
  }

  lemma EndEnds(ctx: Context, job: Item, unwound: seq<Item>)
    requires Endings(ctx, unwound) && Fits(ctx, job) && job.response.None?
    ensures Endings(End(ctx, job.conn), unwound + [job])
  {
    var ctx', all := End(ctx, job.conn), unwound + [job];
    forall x | x in unwound ensures Ended(ctx', x) && x.conn != job.conn {
      assert Ended(ctx, x);
    }
    forall c | c in ctx'.gone ensures exists x :: x in all && x.conn == c {
      if c == job.conn {
        assert job in all;
      } else {
        var x :| x in unwound && x.conn == c;
        assert x in all;
      }
    }
  }

  lemma StepKeepsInv(s: State, e: Event)
    requires Inv(s) && Enabled(s, e)
    ensures Inv(Step(s, e)) && Step(s, e).threads == s.threads
  {
    hide OneEach, EveryFit, Stages, Tickets, Deliveries, Endings;
    StepKeepsEndings(s, e);
    StepKeepsOneEach(s, e);
    StepKeepsFit(s, e);
    StepKeepsStages(s, e);
    StepKeepsTickets(s, e);
    StepKeepsDeliveries(s, e);
  }

  lemma {:induction false} RunKeepsInv(s: State, es: seq<Event>, t: State)
    requires Inv(s) && Run(s, es, t)
    ensures Inv(t) && t.threads == s.threads
    decreases es
  {
    if es != [] {
      StepKeepsInv(s, es[0]);
      RunKeepsInv(Step(s, es[0]), es[1..], t);
    }
  }

  // ----- main results -----

  /** A connection that awaits has exactly one item, among queued job, running job, posted
      completion and dying job; one that does not await has none. */
  lemma ExactlyOneItem(threads: nat, es: seq<Event>, s: State, c: nat)
    requires Run(Init(threads), es, s)
    ensures Items(s, c) == if c in s.ctx.awaiting then 1 else 0
  {
    RunKeepsInv(Init(threads), es, s);
    assert OneEach(s);
  }

  /** Every resumption runs on the connection's own executor, with the answer to the request the
      connection submitted, and no await is resumed twice. */
  lemma ResumedOnceWithOwnAnswer(threads: nat, es: seq<Event>, s: State, i: nat, j: nat)
    requires Run(Init(threads), es, s) && i < |s.delivered| && j < |s.delivered|
    ensures i != j ==> s.delivered[i].ticket != s.delivered[j].ticket
    ensures var x := s.delivered[i];
            && x.conn in s.ctx.executors && x.executor == s.ctx.executors[x.conn]
            && x.ticket < |s.ctx.submitted| && s.ctx.submitted[x.ticket] == Submission(x.conn, x.request)
            && x.ticket in s.ctx.answers && x.response == Some(s.ctx.answers[x.ticket])
  {
    RunKeepsInv(Init(threads), es, s);
    assert Correct(s.ctx, s.delivered[i]);
  }

  lemma {:induction false} DiesOnlyByThrow(s: State, es: seq<Event>, t: State)
    requires Run(s, es, t)
    ensures |t.dying| + |t.unwound| >= |s.dying| + |s.unwound|
    ensures |t.dying| + |t.unwound| == |s.dying| + |s.unwound| <==> forall e :: e in es ==> !e.Throw?
    decreases es
  {
    if es != [] {
      DiesOnlyByThrow(Step(s, es[0]), es[1..], t);
      assert es == [es[0]] + es[1..];
    }
  }

  /** The executors have nothing left to do. */
  predicate Drained(s: State) {
    !Enabled(s, Dequeue) && |s.running| == 0 && |s.posted| == 0 && |s.dying| == 0
  }

  /** Conservation, and when it is enough: once all executors are drained nobody waits, and every
      query ever submitted was answered to its connection, or died with its connection; queries
      die only by throwing something other than `sqlite::error`. */
  lemma NothingForgotten(threads: nat, es: seq<Event>, s: State)
    requires threads >= 1 && Run(Init(threads), es, s)
    ensures |s.ctx.submitted| == |s.queue| + |s.running| + |s.posted| + |s.dying| + |s.delivered| + |s.unwound|
    ensures s.dying == [] && s.unwound == [] <==> forall e :: e in es ==> !e.Throw?
    ensures Drained(s) ==> |s.ctx.submitted| == |s.delivered| + |s.unwound| && s.ctx.awaiting == map[]
  {
    RunKeepsInv(Init(threads), es, s);
    DiesOnlyByThrow(Init(threads), es, s);
    if Drained(s) {
      forall c: nat ensures c !in s.ctx.awaiting {
        assert Items(s, c) == if c in s.ctx.awaiting then 1 else 0;
      }
    }
  }

  /** A connection ends this way exactly if one of its jobs died, and then only once and with that
      query unanswered for ever. */
  lemma UnwoundUnanswered(threads: nat, es: seq<Event>, s: State, c: nat)
    requires Run(Init(threads), es, s)
    ensures c in s.ctx.gone <==> exists x :: x in s.unwound && x.conn == c
    ensures c in s.ctx.gone ==> c !in s.ctx.awaiting && Items(s, c) == 0
    ensures forall x :: x in s.unwound ==> x.ticket !in s.ctx.answers
    ensures forall i, j :: 0 <= i < j < |s.unwound| ==> s.unwound[i].conn != s.unwound[j].conn
    ensures forall x, y :: x in s.unwound && y in s.delivered ==> x.ticket != y.ticket
  {
    RunKeepsInv(Init(threads), es, s);
    assert OneEach(s);
    forall x, y | x in s.unwound && y in s.delivered ensures x.ticket != y.ticket {
      assert Ended(s.ctx, x) && Correct(s.ctx, y);
    }
  }

  // ----- from the events alone -----

  /** What a run never takes back. */
  ghost predicate Keeps(x: Context, y: Context) {
    && (forall c :: c in x.executors ==> c in y.executors && y.executors[c] == x.executors[c])
    && x.submitted <= y.submitted
    && (forall t :: t in x.answers ==> t in y.answers && y.answers[t] == x.answers[t])
  }

  lemma {:induction false} RunKeeps(s: State, es: seq<Event>, t: State)
    requires Inv(s) && Run(s, es, t)
    ensures Inv(t) && Keeps(s.ctx, t.ctx)
    decreases es
  {
    if es != [] {
      StepKeepsInv(s, es[0]);
      StepKeeps(s, es[0]);
      RunKeeps(Step(s, es[0]), es[1..], t);
      hide Inv, Step, Enabled;
    }
  }

  lemma StepKeeps(s: State, e: Event)
    requires EveryFit(s) && Stages(s) && Enabled(s, e)
    ensures Keeps(s.ctx, Step(s, e).ctx)
  {
    if e.Finish? {
      assert Fits(s.ctx, s.running[e.i]);
    }
  }

  function Everything(s: State): seq<Item> {
    s.queue + s.running + s.posted + s.dying + s.delivered + s.unwound
  }

  /** The item carries what was submitted as its ticket, and its connection's executor. */
  ghost predicate Labelled(ctx: Context, x: Item) {
    && x.ticket < |ctx.submitted| && ctx.submitted[x.ticket] == Submission(x.conn, x.request)
    && x.conn in ctx.executors && ctx.executors[x.conn] == x.executor
  }

  lemma AllLabelled(s: State, x: Item)
    requires Inv(s) && x in Everything(s)
    ensures Labelled(s.ctx, x)
  {
    if x in s.delivered {
      assert Correct(s.ctx, x);
    } else if x in s.unwound {
      assert Ended(s.ctx, x);
    } else {
      assert Fits(s.ctx, x);
    }
  }

  lemma SubmittedAs(s: State, c: nat, executor: nat, request: Request, es: seq<Event>, t: State, x: Item)
    requires Inv(s) && Enabled(s, Submit(c, request)) && s.ctx.executors[c] == executor
    requires Run(Step(s, Submit(c, request)), es, t) && x in Everything(t) && x.ticket == |s.ctx.submitted|
    ensures x.conn == c && x.request == request && x.executor == executor
  {
    var s' := Step(s, Submit(c, request));
    StepKeepsInv(s, Submit(c, request));
    assert s'.ctx.submitted[x.ticket] == Submission(c, request) && s'.ctx.executors[c] == executor;
    RunKeeps(s', es, t);
    AllLabelled(t, x);
  }

  lemma ConnectedOn(s: State, c: nat, executor: nat, es: seq<Event>, t: State)
    requires Inv(s) && Enabled(s, Connect(c, executor)) && Run(Step(s, Connect(c, executor)), es, t)
    ensures Inv(t) && c in t.ctx.executors && t.ctx.executors[c] == executor
  {
    StepKeepsInv(s, Connect(c, executor));
    RunKeeps(Step(s, Connect(c, executor)), es, t);
  }

  /** The events decide whose a query is. After `Connect(c, executor)` and, as submission number
      `ticket`, `Submit(c, request)`, whatever carries that ticket, wherever it is, is that
      connection's, with that request, for that executor. */
  lemma QueryIsItsConnections(threads: nat, es: seq<Event>, s: State, c: nat, executor: nat, fs: seq<Event>, t: State,
                              request: Request, gs: seq<Event>, u: State, x: Item)
    requires Run(Init(threads), es, s) && Enabled(s, Connect(c, executor))
    requires Run(Step(s, Connect(c, executor)), fs, t) && Enabled(t, Submit(c, request))
    requires Run(Step(t, Submit(c, request)), gs, u) && x in Everything(u) && x.ticket == |t.ctx.submitted|
    ensures x.conn == c && x.request == request && x.executor == executor
  {
    RunKeepsInv(Init(threads), es, s);
    hide Inv, Run, Step, Everything;
    ConnectedOn(s, c, executor, fs, t);
    SubmittedAs(t, c, executor, request, gs, u, x);
  }

  lemma FinishedWith(s: State, i: nat, response: Response, es: seq<Event>, t: State, x: Item)
    requires Inv(s) && Enabled(s, Finish(i, response)) && Run(Step(s, Finish(i, response)), es, t)
    requires x in t.delivered && x.ticket == s.running[i].ticket
    ensures x.response == Some(response)
  {
    StepKeepsInv(s, Finish(i, response));
    RunKeeps(Step(s, Finish(i, response)), es, t);
    assert Correct(t.ctx, x);
  }

  /** What `run_query` returns for a job is what its connection gets: after `Finish(i, response)`
      that response and no other is ever delivered for the job's ticket. */
  lemma AnswerComesBack(threads: nat, es: seq<Event>, s: State, i: nat, response: Response, fs: seq<Event>, t: State,
                        x: Item)
    requires Run(Init(threads), es, s) && Enabled(s, Finish(i, response))
    requires Run(Step(s, Finish(i, response)), fs, t) && x in t.delivered && x.ticket == s.running[i].ticket
    ensures x.response == Some(response)
  {
    RunKeepsInv(Init(threads), es, s);
    hide Inv, Run, Step;
    FinishedWith(s, i, response, fs, t, x);
  }

  /** Jobs are taken in the order of their submission, by no more threads than there are. */
  ghost predicate InOrder(s: State) {
    && |s.running| <= s.threads && |s.queue| <= |s.ctx.submitted|
    && forall k :: 0 <= k < |s.queue| ==> s.queue[k].ticket == |s.ctx.submitted| - |s.queue| + k
  }

  lemma {:induction false} RunInOrder(s: State, es: seq<Event>, t: State)
    requires InOrder(s) && Run(s, es, t)
    ensures InOrder(t) && t.threads == s.threads
    decreases es
  {
    if es != [] {
      RunInOrder(Step(s, es[0]), es[1..], t);
    }
  }

  /** First come, first served: the next job is the oldest not yet taken, and never are more jobs
      under way than the pool has threads. */
  lemma FirstComeFirstServed(threads: nat, es: seq<Event>, s: State)
    requires Run(Init(threads), es, s)
    ensures |s.running| <= threads && |s.queue| <= |s.ctx.submitted|
    ensures Enabled(s, Dequeue) ==>
              var job := Step(s, Dequeue).running[|s.running|];
              job.ticket == |s.ctx.submitted| - |s.queue| && forall x :: x in s.queue ==> job.ticket <= x.ticket
  {
    RunInOrder(Init(threads), es, s);
  }
}
