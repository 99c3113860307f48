/** One connection: the request loop of `handle_connection`, from the first header to the end
    of the connection's accounting.

    The peer, the parser and the socket are an arbitrary script of answers, one per
    suspension. A script may stop anywhere, so every statement about the trace holds at every
    moment of every run, whether or not the connection has ended. */
module Connection {
  /** `keepAliveRequests` is the configured cap on requests per connection; 0 means no cap. */
  datatype Config = Config(keepAliveRequests: nat)
  {
    predicate Below(n: nat) { keepAliveRequests == 0 || n < keepAliveRequests }

    predicate Within(n: nat) { keepAliveRequests == 0 || n <= keepAliveRequests }
  }

  datatype ReadResult = ReadOk | BodyLimit | ReadError

  /** What the environment says when the coroutine resumes. Each suspension uses only the
      fields that concern it; a write can succeed or fail but never report `body_limit`. */
  datatype Answer = Answer(
    read: ReadResult,
    written: bool,
    wantsKeepAlive: bool,
    expectsContinue: bool,
    parsed: bool,          // parser.is_done() after this read
    handlerThrows: bool)

  datatype Event =
    | Begin
    | HeaderRead(n: nat, wantsKeepAlive: bool, expectsContinue: bool)
    | Counted(n: nat)                                // ++stat->data.requests
    | Continue(n: nat, written: bool)                // 100
    | ReadFailed(n: nat, limit: bool)
    | Final(n: nat, keepAlive: bool, written: bool)  // the response to request n
    | TooLarge(n: nat, written: bool)                // 413
    | End(requests: nat)                             // active_connection_end

  /** A position on the connection's timeline. Both kinds of final response to request `n`
      share one position, so a strictly increasing trace cannot hold two of them. */
  function Position(e: Event): nat {
    match e
    case Begin => 0
    case HeaderRead(n, _, _) => 8 * n
    case Counted(n) => 8 * n + 1
    case Continue(n, _) => 8 * n + 2
    case ReadFailed(n, _) => 8 * n + 3
    case Final(n, _, _) => 8 * n + 4
    case TooLarge(n, _) => 8 * n + 4
    case End(n) => 8 * n + 16
  }

  predicate IsMessage(e: Event) { e.Continue? || e.Final? || e.TooLarge? }

  /** Events after which nothing may follow but the end of the connection. A failed read may
      still be followed by one 413. */
  predicate Closes(e: Event) {
    || (e.Final? && !(e.keepAlive && e.written))
    || (e.Continue? && !e.written)
    || e.TooLarge?
    || (e.ReadFailed? && !e.limit)
    || e.End?
  }

  ghost predicate Increasing(t: seq<Event>) {
    forall i, j :: 0 <= i < j < |t| ==> Position(t[i]) < Position(t[j])
  }

  ghost predicate ClosedStaysClosed(t: seq<Event>) {
    forall i, j :: 0 <= i < j < |t| && Closes(t[i]) ==> !t[i].End? && t[j].End?
  }

  /** What else must be in the trace if `e` is. Positions tell that it came earlier. */
  ghost predicate Justified(cfg: Config, t: seq<Event>, e: Event) {
    match e
    case Begin => true
    case HeaderRead(n, _, _) => n >= 1 && cfg.Within(n) && (n > 1 ==> Final(n - 1, true, true) in t)
    case Counted(n) => HasHeader(t, n)
    case Continue(n, _) => exists w :: HeaderRead(n, w, true) in t
    case ReadFailed(n, _) => n >= 1 && (n > 1 ==> Final(n - 1, true, true) in t)
    case Final(n, keepAlive, _) =>
      && Counted(n) in t
      && exists w, x :: HeaderRead(n, w, x) in t && keepAlive == (w && cfg.Below(n)) && (x ==> Continue(n, true) in t)
    case TooLarge(n, _) => ReadFailed(n, true) in t
    case End(_) => true
  }

  ghost predicate HasHeader(t: seq<Event>, n: nat) {
    exists w, x :: HeaderRead(n, w, x) in t
  }

  ghost predicate AllJustified(cfg: Config, t: seq<Event>) {
    forall e :: e in t ==> Justified(cfg, t, e)
  }

  ghost predicate Conforms(cfg: Config, t: seq<Event>) {
    Increasing(t) && ClosedStaysClosed(t) && AllJustified(cfg, t)
  }

  /** The trace may go on: it has not closed, and stands before position `p`. */
  ghost predicate OpenBefore(t: seq<Event>, p: nat) {
    forall i :: 0 <= i < |t| ==> !Closes(t[i]) && Position(t[i]) < p
  }

  /** An ordered block placed after an open trace. */
  lemma ConcatOrdered(t: seq<Event>, es: seq<Event>, p: nat)
    requires Increasing(t) && OpenBefore(t, p)
    requires Increasing(es)
    requires forall i :: 0 <= i < |es| ==> p <= Position(es[i]) && (i < |es| - 1 ==> !Closes(es[i]))
    ensures Increasing(t + es) && ClosedStaysClosed(t + es)
  {
  }

  /** Justification needs events, never their absence, so it survives growth. */
  lemma JustifiedGrows(cfg: Config, t: seq<Event>, es: seq<Event>, e: Event)
    requires Justified(cfg, t, e)
    ensures Justified(cfg, t + es, e)
  {
  }

  /** How one turn of the request loop ends. */
  datatype Turn =
    | Suspended    // the script has no further answer
    | Again        // response written, keep-alive on
    | Last         // response written, keep-alive off
    | LimitAbort   // goto abort_connection with body_limit
    | OtherAbort   // goto abort_connection with any other error
    | Threw        // a handler's exception unwinds the coroutine

  /** The request part of a turn: header, count and, if asked for, the 100 response. */
  function Opening(n: nat, w: bool, x: bool): seq<Event> {
    [HeaderRead(n, w, x), Counted(n)] + if x then [Continue(n, true)] else []
  }

  /** The events one turn can produce, by the way it ends. */
  ghost predicate TurnShape(cfg: Config, n: nat, w: bool, x: bool, es: seq<Event>, turn: Turn) {
    match turn
    case Suspended => es == [] || es == [HeaderRead(n, w, x), Counted(n)] || es == Opening(n, w, x)
    case Again => w && cfg.Below(n) && es == Opening(n, w, x) + [Final(n, true, true)]
    case Last => !(w && cfg.Below(n)) && es == Opening(n, w, x) + [Final(n, false, true)]
    case LimitAbort => es == [ReadFailed(n, true)] || es == Opening(n, w, x) + [ReadFailed(n, true)]
    case OtherAbort =>
      || es == [ReadFailed(n, false)]
      || es == Opening(n, w, x) + [ReadFailed(n, false)]
      || (x && es == [HeaderRead(n, w, x), Counted(n), Continue(n, false)])
      || es == Opening(n, w, x) + [Final(n, w && cfg.Below(n), false)]
    case Threw => es == Opening(n, w, x)
  }

  /** A turn counts its request exactly when it read the header. */
  function NewlyCounted(es: seq<Event>): nat {
    if |es| >= 2 then 1 else 0
  }

  // ----- the reference: one answer at a time -----

  /** Where the coroutine is suspended, and what it remembers there. */
  datatype Stage =
    | AtHeader(n: nat)
    | AtContinue(n: nat, w: bool, parsed: bool)
    | AtBody(n: nat, w: bool)
    | AtHandler(n: nat, w: bool)
    | AtResponse(n: nat, w: bool)
    | AtRefusal(n: nat, requests: nat)
    | Gone(requests: nat, finished: bool)

  /** `req_n` at a suspension. */
  function Requests(s: Stage): nat {
    match s
    case AtHeader(n) => if n > 0 then n - 1 else 0
    case AtRefusal(_, requests) => requests
    case Gone(requests, _) => requests
    case _ => s.n
  }

  function BodyOrHandler(n: nat, w: bool, parsed: bool): Stage {
    if parsed then AtHandler(n, w) else AtBody(n, w)
  }

  /** What a suspended connection does with one answer: where it suspends next, and the events on
      the way. Loops, early exits and the destructor of the code are all gone here. */
  function React(cfg: Config, s: Stage, a: Answer): (Stage, seq<Event>) {
    match s
    case AtHeader(n) =>
      (match a.read
       case ReadOk =>
         (if a.expectsContinue then AtContinue(n, a.wantsKeepAlive, a.parsed)
          else BodyOrHandler(n, a.wantsKeepAlive, a.parsed),
          [HeaderRead(n, a.wantsKeepAlive, a.expectsContinue), Counted(n)])
       case BodyLimit => (AtRefusal(n, Requests(s)), [ReadFailed(n, true)])
       case ReadError => (Gone(Requests(s), false), [ReadFailed(n, false), End(Requests(s))]))
    case AtContinue(n, w, parsed) =>
      if a.written then (BodyOrHandler(n, w, parsed), [Continue(n, true)])
      else (Gone(n, false), [Continue(n, false), End(n)])
    case AtBody(n, w) =>
      (match a.read
       case ReadOk => (BodyOrHandler(n, w, a.parsed), [])
       case BodyLimit => (AtRefusal(n, n), [ReadFailed(n, true)])
       case ReadError => (Gone(n, false), [ReadFailed(n, false), End(n)]))
    case AtHandler(n, w) =>
      if a.handlerThrows then (Gone(n, false), [End(n)]) else (AtResponse(n, w), [])
    case AtResponse(n, w) =>
      var keepAlive := w && cfg.Below(n);
      if !a.written then (Gone(n, false), [Final(n, keepAlive, false), End(n)])
      else if keepAlive then (AtHeader(n + 1), [Final(n, true, true)])
      else (Gone(n, true), [Final(n, false, true), End(n)])
    case AtRefusal(n, requests) => (Gone(requests, false), [TooLarge(n, a.written), End(requests)])
    case Gone(_, _) => (s, [])
  }

  datatype Run = Run(stage: Stage, trace: seq<Event>)

  /** The connection after a whole script. */
  function Play(cfg: Config, script: seq<Answer>): Run {
    if script == [] then Run(AtHeader(1), [Begin])
    else
      var before := Play(cfg, script[..|script| - 1]);
      var (stage, es) := React(cfg, before.stage, script[|script| - 1]);
      Run(stage, before.trace + es)
  }

  lemma PlayNext(cfg: Config, script: seq<Answer>, k: nat)
    requires k < |script|
    ensures var before := Play(cfg, script[..k]);
            var (stage, es) := React(cfg, before.stage, script[k]);
            Play(cfg, script[..k + 1]) == Run(stage, before.trace + es)
  {
    assert script[..k + 1][..k] == script[..k];
  }

  /** Once the connection is gone nothing more happens. */
  lemma {:induction false} PlayGone(cfg: Config, script: seq<Answer>, k: nat)
    requires k <= |script| && Play(cfg, script[..k]).stage.Gone?
    ensures Play(cfg, script) == Play(cfg, script[..k])
    decreases |script| - k
  {
    if k == |script| {
      assert script[..k] == script;
    } else {
      PlayNext(cfg, script, k);
      PlayGone(cfg, script, k + 1);
    }
  }

  /** The turn's outcome as the reference has it: the code has yet to write the 413, to run the
      destructor or to go round again. */
  ghost predicate Tracks(r: Run, t: seq<Event>, requests: nat, turn: Turn) {
    match turn
    case Suspended => r.trace == t && !r.stage.Gone? && Requests(r.stage) == requests
    case Again => r == Run(AtHeader(requests + 1), t)
    case Last => r == Run(Gone(requests, true), t + [End(requests)])
    case LimitAbort => r.stage.AtRefusal? && r.stage.requests == requests && r.trace == t
    case OtherAbort => r == Run(Gone(requests, false), t + [End(requests)])
    case Threw => r == Run(Gone(requests, false), t + [End(requests)])
  }

  // ----- what every answer is used for -----

  /** What a suspension waits for: a header, the 100 written, more of the body, the handler, the
      response written, the 413 written. */
  datatype Kind = Header | Hundred | Body | Handler | Response | Refusal

  /** An answer's use, and the number of the request it is used for. */
  datatype Use = Use(kind: Kind, n: nat)

  predicate IsRead(u: Use) { u.kind == Header || u.kind == Body }

  /** The latest header read so far, and the latest read of any kind; 0 if there is none. */
  function LastHeader(us: seq<Use>): (i: nat)
    ensures us != [] ==> i < |us|
  {
    if us == [] then 0 else if us[|us| - 1].kind == Header then |us| - 1 else LastHeader(us[..|us| - 1])
  }

  function LastRead(us: seq<Use>): (i: nat)
    ensures us != [] ==> i < |us|
  {
    if us == [] then 0 else if IsRead(us[|us| - 1]) then |us| - 1 else LastRead(us[..|us| - 1])
  }

  /** Keep-alive, once the header of request `n` is the latest one. */
  predicate KeepsAlive(cfg: Config, script: seq<Answer>, us: seq<Use>, n: nat)
    requires 0 < |us| <= |script|
  {
    script[LastHeader(us)].wantsKeepAlive && (cfg.keepAliveRequests == 0 || n < cfg.keepAliveRequests)
  }

  /** The history `us` has come to the body or the handler of request `n`: the header is in and no 100
      is asked for, or the 100 is written, or some of the body is in. */
  predicate BodyDue(script: seq<Answer>, us: seq<Use>, n: nat)
    requires 0 < |us| <= |script|
  {
    var last, a := us[|us| - 1], script[|us| - 1];
    || (last == Use(Header, n) && a.read == ReadOk && !a.expectsContinue)
    || (last == Use(Hundred, n) && a.written)
    || (last == Use(Body, n) && a.read == ReadOk)
  }

  /** When the history `us` leads to `u`. */
  ghost predicate Next(cfg: Config, script: seq<Answer>, us: seq<Use>, u: Use)
    requires |us| <= |script|
  {
    if us == [] then u == Use(Header, 1)
    else
      var last, a := us[|us| - 1], script[|us| - 1];
      match u.kind
      case Header => u.n > 0 && last == Use(Response, u.n - 1) && a.written && KeepsAlive(cfg, script, us, u.n - 1)
      case Hundred => last == Use(Header, u.n) && a.read == ReadOk && a.expectsContinue
      case Body => BodyDue(script, us, u.n) && !script[LastRead(us)].parsed
      case Handler => BodyDue(script, us, u.n) && script[LastRead(us)].parsed
      case Response => last == Use(Handler, u.n) && !a.handlerThrows
      case Refusal => IsRead(last) && last.n == u.n && a.read == BodyLimit
  }

  /** The history `us` is that of a connection that is over. */
  ghost predicate Over(cfg: Config, script: seq<Answer>, us: seq<Use>)
    requires |us| <= |script|
  {
    && us != []
    && var last, a := us[|us| - 1], script[|us| - 1];
       match last.kind
       case Header => a.read == ReadError
       case Hundred => !a.written
       case Body => a.read == ReadError
       case Handler => a.handlerThrows
       case Response => !a.written || !KeepsAlive(cfg, script, us, last.n)
       case Refusal => true
  }

  /** What an answer and its use look like from outside. */
  function Seen(cfg: Config, script: seq<Answer>, us: seq<Use>): seq<Event>
    requires 0 < |us| <= |script|
  {
    var u, a := us[|us| - 1], script[|us| - 1];
    match u.kind
    case Header =>
      if a.read == ReadOk then [HeaderRead(u.n, a.wantsKeepAlive, a.expectsContinue), Counted(u.n)]
      else [ReadFailed(u.n, a.read == BodyLimit)]
    case Hundred => [Continue(u.n, a.written)]
    case Body => if a.read == ReadOk then [] else [ReadFailed(u.n, a.read == BodyLimit)]
    case Handler => []
    case Response => [Final(u.n, KeepsAlive(cfg, script, us, u.n), a.written)]
    case Refusal => [TooLarge(u.n, a.written)]
  }

  function AllSeen(cfg: Config, script: seq<Answer>, us: seq<Use>): seq<Event>
    requires |us| <= |script|
  {
    if us == [] then [Begin] else AllSeen(cfg, script, us[..|us| - 1]) + Seen(cfg, script, us)
  }

  /** The history so far was led to step by step. */
  ghost predicate Led(cfg: Config, script: seq<Answer>, us: seq<Use>)
    requires |us| <= |script|
  {
    forall k :: 0 <= k < |us| ==> Next(cfg, script, us[..k], us[k])
  }

  /** The whole connection, told by its uses: each is the one its history leads to, and the trace is
      what they look like. */
  ghost predicate Tells(cfg: Config, script: seq<Answer>, us: seq<Use>, trace: seq<Event>, waiting: bool) {
    && |us| <= |script|
    && Led(cfg, script, us)
    && (waiting <==> !Over(cfg, script, us))
    && (waiting ==> |us| == |script|)
    && var seen := AllSeen(cfg, script, us);
       if waiting then trace == seen else |trace| > 0 && trace[|trace| - 1].End? && trace[..|trace| - 1] == seen
  }

  lemma NextUnique(cfg: Config, script: seq<Answer>, us: seq<Use>, u: Use, v: Use)
    requires |us| <= |script| && Next(cfg, script, us, u)
    ensures Next(cfg, script, us, v) ==> u == v
    ensures !Over(cfg, script, us)
  {
  }

  lemma {:induction false} SamePrefix(cfg: Config, script: seq<Answer>, us: seq<Use>, vs: seq<Use>, k: nat)
    requires |us| <= |script| && |vs| <= |script| && Led(cfg, script, us) && Led(cfg, script, vs)
    requires k <= |us| && k <= |vs|
    ensures us[..k] == vs[..k]
  {
    hide Next;
    if k > 0 {
      SamePrefix(cfg, script, us, vs, k - 1);
      NextUnique(cfg, script, us[..k - 1], us[k - 1], vs[k - 1]);
      assert us[..k] == us[..k - 1] + [us[k - 1]] && vs[..k] == vs[..k - 1] + [vs[k - 1]];
    }
  }

  lemma NotShorter(cfg: Config, script: seq<Answer>, us: seq<Use>, vs: seq<Use>, trace: seq<Event>, waiting: bool)
    requires Tells(cfg, script, us, trace, waiting) && |vs| <= |script| && Led(cfg, script, vs)
    ensures |us| >= |vs|
  {
    if |us| < |vs| {
      var k := |us|;
      SamePrefix(cfg, script, us, vs, k);
      assert us[..k] == us;
      hide AllSeen, Over, Next;
      assert Next(cfg, script, vs[..k], vs[k]);
      NextUnique(cfg, script, vs[..k], vs[k], vs[k]);
    }
  }

  /** One story only: a script determines the uses, and with them everything seen of the connection. */
  lemma TellsOnce(cfg: Config, script: seq<Answer>, us: seq<Use>, t: seq<Event>, w: bool,
                  vs: seq<Use>, u: seq<Event>, v: bool)
    requires Tells(cfg, script, us, t, w) && Tells(cfg, script, vs, u, v)
    ensures us == vs && w == v && (w ==> t == u) && (!w ==> t[..|t| - 1] == u[..|u| - 1])
  {
    NotShorter(cfg, script, us, vs, t, w);
    NotShorter(cfg, script, vs, us, u, v);
    SamePrefix(cfg, script, us, vs, |us|);
    assert us[..|us|] == us && vs[..|vs|] == vs;
    hide AllSeen, Over, Next, Led;
  }

  // the reference does as told

  function UseOf(s: Stage): Use
    requires !s.Gone?
  {
    match s
    case AtHeader(n) => Use(Header, n)
    case AtContinue(n, _, _) => Use(Hundred, n)
    case AtBody(n, _) => Use(Body, n)
    case AtHandler(n, _) => Use(Handler, n)
    case AtResponse(n, _) => Use(Response, n)
    case AtRefusal(n, _) => Use(Refusal, n)
  }

  /** The uses of the first `k` answers. */
  function Uses(cfg: Config, script: seq<Answer>, k: nat): (us: seq<Use>)
    requires k <= |script|
    ensures |us| <= k
  {
    if k == 0 then []
    else
      var before, stage := Uses(cfg, script, k - 1), Play(cfg, script[..k - 1]).stage;
      if stage.Gone? then before else before + [UseOf(stage)]
  }

  /** What the reference remembers is what the header and the latest read said. */
  ghost predicate Remembers(script: seq<Answer>, us: seq<Use>, s: Stage)
    requires |us| <= |script|
  {
    s.AtContinue? || s.AtBody? || s.AtHandler? || s.AtResponse? ==>
      && us != [] && script[LastHeader(us)].wantsKeepAlive == s.w
      && (s.AtContinue? ==> script[LastRead(us)].parsed == s.parsed)
  }

  ghost predicate Linked(cfg: Config, script: seq<Answer>, us: seq<Use>, r: Run)
    requires |us| <= |script|
  {
    if r.stage.Gone? then
      Over(cfg, script, us) && r.trace == AllSeen(cfg, script, us) + [End(r.stage.requests)]
    else
      && Next(cfg, script, us, UseOf(r.stage)) && !Over(cfg, script, us)
      && Remembers(script, us, r.stage) && r.trace == AllSeen(cfg, script, us)
  }

  lemma StepSeen(cfg: Config, script: seq<Answer>, us: seq<Use>, s: Stage)
    requires |us| < |script| && !s.Gone? && Next(cfg, script, us, UseOf(s)) && Remembers(script, us, s)
    ensures var (stage, es) := React(cfg, s, script[|us|]);
            es == Seen(cfg, script, us + [UseOf(s)]) + if stage.Gone? then [End(stage.requests)] else []
  {
    var vs := us + [UseOf(s)];
    assert vs[..|vs| - 1] == us;
    hide Next;
  }

  lemma StepLeads(cfg: Config, script: seq<Answer>, us: seq<Use>, s: Stage)
    requires |us| < |script| && !s.Gone? && Next(cfg, script, us, UseOf(s)) && Remembers(script, us, s)
    ensures var (stage, es) := React(cfg, s, script[|us|]);
            var vs := us + [UseOf(s)];
            if stage.Gone? then Over(cfg, script, vs)
            else !Over(cfg, script, vs) && Next(cfg, script, vs, UseOf(stage)) && Remembers(script, vs, stage)
  {
    var vs := us + [UseOf(s)];
    assert vs[..|vs| - 1] == us;
  }

  lemma LinkedStep(cfg: Config, script: seq<Answer>, us: seq<Use>, r: Run)
    requires |us| < |script| && !r.stage.Gone? && Linked(cfg, script, us, r)
    ensures var (stage, es) := React(cfg, r.stage, script[|us|]);
            Linked(cfg, script, us + [UseOf(r.stage)], Run(stage, r.trace + es))
  {
    var vs := us + [UseOf(r.stage)];
    assert vs[..|vs| - 1] == us;
    assert AllSeen(cfg, script, vs) == AllSeen(cfg, script, us) + Seen(cfg, script, vs);
    hide React, Next, Over, Remembers, AllSeen, Seen;
    StepSeen(cfg, script, us, r.stage);
    StepLeads(cfg, script, us, r.stage);
  }

  lemma LedStep(cfg: Config, script: seq<Answer>, us: seq<Use>, u: Use)
    requires |us| < |script| && Led(cfg, script, us) && Next(cfg, script, us, u)
    ensures Led(cfg, script, us + [u])
  {
    hide Next;
    var vs := us + [u];
    forall k | 0 <= k < |vs| ensures Next(cfg, script, vs[..k], vs[k]) {
      assert vs[..k] == us[..k];
    }
  }

  lemma UsesNext(cfg: Config, script: seq<Answer>, k: nat)
    requires k < |script|
    ensures var us, stage := Uses(cfg, script, k), Play(cfg, script[..k]).stage;
            Uses(cfg, script, k + 1) == if stage.Gone? then us else us + [UseOf(stage)]
  {
  }

  lemma NoUses(cfg: Config, script: seq<Answer>)
    ensures Uses(cfg, script, 0) == [] && Led(cfg, script, []) && Linked(cfg, script, [], Play(cfg, script[..0]))
  {
  }

  lemma {:induction false} PlayLinked(cfg: Config, script: seq<Answer>, k: nat)
    requires k <= |script|
    ensures Led(cfg, script, Uses(cfg, script, k)) && Linked(cfg, script, Uses(cfg, script, k), Play(cfg, script[..k]))
    ensures !Play(cfg, script[..k]).stage.Gone? ==> |Uses(cfg, script, k)| == k
  {
    hide Play, Next, Over, AllSeen, React, Led, Uses, Remembers;
    if k == 0 {
      NoUses(cfg, script);
    } else {
      PlayLinked(cfg, script, k - 1);
      PlayNext(cfg, script, k - 1);
      UsesNext(cfg, script, k - 1);
      var us, r := Uses(cfg, script, k - 1), Play(cfg, script[..k - 1]);
      if r.stage.Gone? {
        GoneStays(cfg, r.stage, script[k - 1]);
        assert r.trace + [] == r.trace;
      } else {
        LinkedStep(cfg, script, us, r);
        LedStep(cfg, script, us, UseOf(r.stage));
      }
    }
  }

  lemma GoneStays(cfg: Config, s: Stage, a: Answer)
    requires s.Gone?
    ensures React(cfg, s, a) == (s, [])
  {
  }

  lemma PlayTells(cfg: Config, script: seq<Answer>)
    ensures var r := Play(cfg, script);
            Tells(cfg, script, Uses(cfg, script, |script|), r.trace, !r.stage.Gone?)
  {
    PlayLinked(cfg, script, |script|);
    assert script[..|script|] == script;
    hide Play, Uses, AllSeen, Over, Next, Led;
    var r, seen := Play(cfg, script), AllSeen(cfg, script, Uses(cfg, script, |script|));
    if r.stage.Gone? {
      assert r.trace[..|r.trace| - 1] == seen;
    }
  }

  // ----- the code -----

  /** One turn of the request loop: the next request, read and answered. `k` is the number of
      answers of the script used so far; `w` and `x` are what the header asked for. */
  method ServeRequest(cfg: Config, script: seq<Answer>, k0: nat, requests0: nat, ghost t0: seq<Event>)
      returns (es: seq<Event>, k: nat, requests: nat, w: bool, x: bool, turn: Turn)
    requires k0 <= |script|
    requires Play(cfg, script[..k0]) == Run(AtHeader(requests0 + 1), t0)
    ensures requests == requests0 + NewlyCounted(es)
    ensures k0 <= k <= |script| && (turn != Suspended ==> k0 < k) && (turn == Suspended ==> k == |script|)
    ensures TurnShape(cfg, requests0 + 1, w, x, es, turn)
    ensures Tracks(Play(cfg, script[..k]), t0 + es, requests, turn)
    ensures turn == LimitAbort ==> Play(cfg, script[..k]).stage.n == requests0 + 1
  {
    hide Play;
    var n := requests0 + 1;
    es, k, requests, w, x, turn := [], k0, requests0, false, false, Suspended;
    assert t0 + [] == t0;
    // Read request headers
    if k == |script| { return; }
    var header := script[k];
    PlayNext(cfg, script, k);
    k, w, x := k + 1, header.wantsKeepAlive, header.expectsContinue;
    if header.read != ReadOk {
      es := [ReadFailed(n, header.read == BodyLimit)];
      turn := if header.read == BodyLimit then LimitAbort else OtherAbort;
      assert t0 + [ReadFailed(n, false), End(requests)] == t0 + [ReadFailed(n, false)] + [End(requests)];
      return;
    }
    es := [HeaderRead(n, w, x)];
    requests := requests + 1;
    es := es + [Counted(n)];
    // Handle 100-continue
    if x {
      if k == |script| { return; }
      var ok := script[k].written;
      PlayNext(cfg, script, k);
      k := k + 1;
      es := es + [Continue(n, ok)];
      if !ok {
        turn := OtherAbort;
        return;
      }
    }
    assert es == Opening(n, w, x);
    es, k, turn := FinishRequest(cfg, script, k, n, w, x, header.parsed, es, t0);
  }

  /** The rest of the turn: read the body, run the handler, send the response. */
  method FinishRequest(cfg: Config, script: seq<Answer>, k0: nat, n: nat, w: bool, ghost x: bool, parsed0: bool,
                       opening: seq<Event>, ghost t0: seq<Event>)
      returns (es: seq<Event>, k: nat, turn: Turn)
    requires k0 <= |script| && opening == Opening(n, w, x)
    requires Play(cfg, script[..k0]) == Run(BodyOrHandler(n, w, parsed0), t0 + opening)
    ensures k0 <= k <= |script| && (turn == Suspended ==> k == |script|)
    ensures TurnShape(cfg, n, w, x, es, turn) && |es| >= 2
    ensures Tracks(Play(cfg, script[..k]), t0 + es, n, turn)
    ensures turn == LimitAbort ==> Play(cfg, script[..k]).stage.n == n
  {
    hide Play;
    es, k, turn := opening, k0, Suspended;
    // Read request body
    var parsed := parsed0;
    while !parsed
      invariant k0 <= k <= |script|
      invariant Play(cfg, script[..k]) == Run(BodyOrHandler(n, w, parsed), t0 + opening)
      decreases |script| - k
    {
      if k == |script| { return; }
      var body := script[k];
      PlayNext(cfg, script, k);
      k := k + 1;
      if body.read != ReadOk {
        es := es + [ReadFailed(n, body.read == BodyLimit)];
        turn := if body.read == BodyLimit then LimitAbort else OtherAbort;
        assert (t0 + opening) + [ReadFailed(n, true)] == t0 + (opening + [ReadFailed(n, true)]);
        assert (t0 + opening) + [ReadFailed(n, false), End(n)] == t0 + (opening + [ReadFailed(n, false)]) + [End(n)];
        return;
      }
      assert (t0 + opening) + [] == t0 + opening;
      parsed := body.parsed;
    }
    // Create a response
    if k == |script| { return; }
    var throws := script[k].handlerThrows;
    PlayNext(cfg, script, k);
    k := k + 1;
    if throws {
      turn := Threw;
      return;
    }
    assert (t0 + opening) + [] == t0 + opening;
    var keepAlive := w && cfg.Below(n);
    // Send the response
    if k == |script| { return; }
    var ok := script[k].written;
    PlayNext(cfg, script, k);
    k := k + 1;
    es := es + [Final(n, keepAlive, ok)];
    turn := if !ok then OtherAbort else if keepAlive then Again else Last;
    assert (t0 + opening) + [Final(n, keepAlive, ok)] == t0 + (opening + [Final(n, keepAlive, ok)]);
    assert (t0 + opening) + [Final(n, keepAlive, ok), End(n)] == t0 + (opening + [Final(n, keepAlive, ok)]) + [End(n)];
  }

  /** The trace is ready for request `n`. */
  ghost predicate ReadyFor(cfg: Config, t: seq<Event>, n: nat) {
    && n >= 1 && cfg.Within(n)
    && Conforms(cfg, t) && OpenBefore(t, 8 * n)
    && (n > 1 ==> Final(n - 1, true, true) in t)
  }

  /** The events of one request: ordered, on the request's own stretch of the timeline, and
      only the last of them can close the connection. */
  ghost predicate Block(n: nat, es: seq<Event>) {
    && Increasing(es)
    && (forall i :: 0 <= i < |es| ==> 8 * n <= Position(es[i]) < 8 * n + 5)
    && (forall i :: 0 <= i < |es| - 1 ==> !Closes(es[i]))
  }

  lemma OpeningBlock(n: nat, w: bool, x: bool)
    ensures Block(n, Opening(n, w, x)) && OpenBefore(Opening(n, w, x), 8 * n + 3)
  {
    var o := Opening(n, w, x);
    assert o[0] == HeaderRead(n, w, x) && o[1] == Counted(n) && (x ==> o[2] == Continue(n, true));
  }

  lemma BlockThen(n: nat, o: seq<Event>, e: Event)
    requires Block(n, o) && OpenBefore(o, 8 * n + 3) && 8 * n + 3 <= Position(e) < 8 * n + 5
    ensures Block(n, o + [e])
  {
  }

  lemma OpeningThen(n: nat, w: bool, x: bool, e: Event)
    requires 8 * n + 3 <= Position(e) < 8 * n + 5
    ensures Block(n, Opening(n, w, x) + [e])
    ensures Block(n, Opening(n, w, x)) && OpenBefore(Opening(n, w, x), 8 * n + 3)
  {
    OpeningBlock(n, w, x);
    hide Opening;
    BlockThen(n, Opening(n, w, x), e);
  }

  lemma TurnOrdered(cfg: Config, n: nat, w: bool, x: bool, es: seq<Event>, turn: Turn)
    requires TurnShape(cfg, n, w, x, es, turn)
    ensures Block(n, es)
  {
    var o := Opening(n, w, x);
    if |es| >= 1 && es == o + [es[|es| - 1]] {
      OpeningThen(n, w, x, es[|es| - 1]);
    } else if es == o {
      OpeningThen(n, w, x, ReadFailed(n, true));
    } else if |es| == 3 {
      assert es == [HeaderRead(n, w, x), Counted(n), Continue(n, false)];
    }
  }

  lemma TurnJustified(cfg: Config, t: seq<Event>, n: nat, w: bool, x: bool, es: seq<Event>, turn: Turn, e: Event)
    requires ReadyFor(cfg, t, n) && TurnShape(cfg, n, w, x, es, turn) && e in es
    ensures Justified(cfg, t + es, e)
  {
    var u := t + es;
    assert forall f :: f in t ==> f in u;
    assert |es| >= 2 ==> u[|t|] == HeaderRead(n, w, x) && u[|t| + 1] == Counted(n);
    assert |es| >= 3 && x ==> u[|t| + 2] == es[2];
    if !e.ReadFailed? {
      assert HeaderRead(n, w, x) in u && Counted(n) in u;
    }
  }

  lemma TurnAllJustified(cfg: Config, t: seq<Event>, n: nat, w: bool, x: bool, es: seq<Event>, turn: Turn)
    requires ReadyFor(cfg, t, n) && TurnShape(cfg, n, w, x, es, turn)
    ensures AllJustified(cfg, t + es)
  {
    hide Justified, TurnShape, Increasing, ClosedStaysClosed;
    forall e | e in t + es ensures Justified(cfg, t + es, e) {
      if e in t {
        JustifiedGrows(cfg, t, es, e);
      } else {
        TurnJustified(cfg, t, n, w, x, es, turn, e);
      }
    }
  }

  /** Whatever a turn produces, appending it keeps the trace conforming. */
  lemma AppendTurn(cfg: Config, t: seq<Event>, n: nat, w: bool, x: bool, es: seq<Event>, turn: Turn)
    requires ReadyFor(cfg, t, n) && TurnShape(cfg, n, w, x, es, turn)
    ensures Conforms(cfg, t + es)
    ensures turn.Again? ==> ReadyFor(cfg, t + es, n + 1)
    ensures turn.LimitAbort? ==> OpenBefore(t + es, 8 * n + 4) && ReadFailed(n, true) in t + es
    ensures forall i :: 0 <= i < |t + es| ==> Position((t + es)[i]) < 8 * n + 5
  {
    TurnAllJustified(cfg, t, n, w, x, es, turn);
    TurnOrdered(cfg, n, w, x, es, turn);
    TurnLast(cfg, n, w, x, es, turn);
    hide TurnShape, AllJustified, Increasing, ClosedStaysClosed, Closes;
    assert Block(n, es);
    ConcatOrdered(t, es, 8 * n);
    assert |es| > 0 ==> (t + es)[|t| + |es| - 1] == es[|es| - 1];
  }

  lemma TurnLast(cfg: Config, n: nat, w: bool, x: bool, es: seq<Event>, turn: Turn)
    requires TurnShape(cfg, n, w, x, es, turn)
    ensures turn.Again? ==> |es| > 0 && es[|es| - 1] == Final(n, true, true) && cfg.Within(n + 1) && !Closes(es[|es| - 1])
    ensures turn.LimitAbort? ==> |es| > 0 && es[|es| - 1] == ReadFailed(n, true) && !Closes(es[|es| - 1])
    ensures turn.LimitAbort? ==> forall i :: 0 <= i < |es| ==> Position(es[i]) < 8 * n + 4
  {
  }

  predicate ClosesNormally(e: Event) { e.Final? && !e.keepAlive && e.written }

  /** What `es` says about turn `n`: whether its request was counted, whether a read hit the
      body limit, how the turn closed, and that the accounting is still to come. */
  ghost predicate Tally(n: nat, es: seq<Event>, turn: Turn) {
    && (forall m: nat :: Counted(m) in es <==> m == n && NewlyCounted(es) == 1)
    && (forall m: nat :: ReadFailed(m, true) in es <==> m == n && turn == LimitAbort)
    && (forall i :: 0 <= i < |es| ==> !es[i].End? && !es[i].TooLarge?)
    && (turn == Last <==> |es| > 0 && ClosesNormally(es[|es| - 1]))
    && (turn == Last ==> es[|es| - 1].n == n)
    && (turn == Again || turn == Last ==> NewlyCounted(es) == 1)
  }

  lemma TurnTally(cfg: Config, n: nat, w: bool, x: bool, es: seq<Event>, turn: Turn)
    requires TurnShape(cfg, n, w, x, es, turn)
    ensures Tally(n, es, turn)
  {
    assert |es| >= 2 ==> es[1] == Counted(n);
    assert turn == LimitAbort ==> es[|es| - 1] == ReadFailed(n, true);
  }

  /** The same about the whole trace after `requests` counted requests. */
  ghost predicate Tallied(t: seq<Event>, n: nat, requests: nat, turn: Turn) {
    && (forall m: nat :: Counted(m) in t <==> 1 <= m <= requests)
    && (forall m: nat :: ReadFailed(m, true) in t <==> m == n && turn == LimitAbort)
    && (forall i :: 0 <= i < |t| ==> !t[i].End? && !t[i].TooLarge?)
    && |t| > 0
    && (turn == Last <==> ClosesNormally(t[|t| - 1]))
    && (turn == Last ==> t[|t| - 1].n == requests)
  }

  lemma TallyGrows(t: seq<Event>, requests: nat, es: seq<Event>, turn: Turn)
    requires Tallied(t, requests, requests, Again) && Tally(requests + 1, es, turn)
    ensures Tallied(t + es, requests + 1, requests + NewlyCounted(es), turn)
  {
    var u := t + es;
    if es == [] {
      assert u == t;
    } else {
      assert u[|u| - 1] == es[|es| - 1];
    }
  }

  /** The 413 response takes the place of the final response to the request it refuses. */
  lemma AppendTooLarge(cfg: Config, t: seq<Event>, n: nat, written: bool)
    requires Conforms(cfg, t) && OpenBefore(t, 8 * n + 4) && ReadFailed(n, true) in t
    ensures Conforms(cfg, t + [TooLarge(n, written)])
  {
    var e := TooLarge(n, written);
    ConcatOrdered(t, [e], 8 * n + 4);
    forall f | f in t + [e] ensures Justified(cfg, t + [e], f) {
      if f in t {
        JustifiedGrows(cfg, t, [e], f);
      } else {
        assert ReadFailed(n, true) in t + [e];
      }
    }
  }

  lemma AppendEnd(cfg: Config, t: seq<Event>, requests: nat)
    requires Conforms(cfg, t)
    requires forall i :: 0 <= i < |t| ==> Position(t[i]) < 8 * requests + 13 && !t[i].End?
    ensures Conforms(cfg, t + [End(requests)])
  {
    var e := End(requests);
    forall f | f in t + [e] ensures Justified(cfg, t + [e], f) {
      if f in t {
        JustifiedGrows(cfg, t, [e], f);
      }
    }
  }

  /** The observable end of a connection, once it has been accounted for. */
  ghost predicate Accounted(t: seq<Event>, requests: nat, finished: bool) {
    && |t| >= 2 && t[|t| - 1] == End(requests)
    && (finished <==> t[|t| - 2] == Final(requests, false, true))
    && (t[|t| - 2].TooLarge? <==> exists n :: ReadFailed(n, true) in t)
  }

  lemma TallyEnd(t: seq<Event>, n: nat, requests: nat, turn: Turn, refusal: seq<Event>)
    requires Tallied(t, n, requests, turn)
    requires refusal == [] || (|refusal| == 1 && refusal[0].TooLarge?)
    requires turn == LimitAbort <==> refusal != []
    ensures var u := t + refusal + [End(requests)];
            Accounted(u, requests, turn == Last) && (forall m: nat :: Counted(m) in u <==> 1 <= m <= requests)
  {
    var u := t + refusal + [End(requests)];
    if turn == LimitAbort {
      assert ReadFailed(n, true) in t;
      assert ReadFailed(n, true) in u;
    } else {
      assert refusal == [] && u == t + [End(requests)];
    }
  }

  lemma BeginReady(cfg: Config)
    ensures ReadyFor(cfg, [Begin], 1) && Conforms(cfg, [Begin]) && Tallied([Begin], 0, 0, Again)
    ensures Play(cfg, []) == Run(AtHeader(1), [Begin])
  {
  }

  lemma NothingEnded(t: seq<Event>, n: nat, requests: nat, turn: Turn)
    requires Tallied(t, n, requests, turn)
    ensures forall i :: 0 <= i < |t| ==> !t[i].End?
    ensures forall m: nat :: Counted(m) in t <==> 1 <= m <= requests
    ensures turn == LimitAbort ==> ReadFailed(n, true) in t
  {
  }

  /** After the request loop: the 413 for a body limit, and the destructor's accounting. */
  method CloseConnection(cfg: Config, script: seq<Answer>, k0: nat, t: seq<Event>, n: nat, requests: nat, turn: Turn)
      returns (trace: seq<Event>, finished: bool)
    requires k0 <= |script| && turn != Again && turn != Suspended && n <= requests + 1
    requires Tracks(Play(cfg, script[..k0]), t, requests, turn) && Conforms(cfg, t) && Tallied(t, n, requests, turn)
    requires forall i :: 0 <= i < |t| ==> Position(t[i]) < 8 * n + 5
    requires turn == LimitAbort ==>
               k0 < |script| && Play(cfg, script[..k0]).stage.n == n && OpenBefore(t, 8 * n + 4)
    ensures Play(cfg, script) == Run(Gone(requests, finished), trace)
    ensures Conforms(cfg, trace) && Accounted(trace, requests, finished)
    ensures |trace| > 0 && trace[|trace| - 1] == End(requests)
    ensures forall m: nat :: Counted(m) in trace <==> 1 <= m <= requests
  {
    hide Conforms, Tallied, Accounted, Closes, Play;
    NothingEnded(t, n, requests, turn);
    finished := turn == Last;
    // Send error response for selected errors
    var k, refusal := k0, [];
    if turn == LimitAbort {
      PlayNext(cfg, script, k);
      refusal := [TooLarge(n, script[k].written)];
      AppendTooLarge(cfg, t, n, script[k].written);
      k := k + 1;
      assert t + [refusal[0], End(requests)] == t + refusal + [End(requests)];
    }
    PlayGone(cfg, script, k);
    TallyEnd(t, n, requests, turn, refusal);
    assert refusal == [] ==> t + refusal == t;
    AppendEnd(cfg, t + refusal, requests);
    trace := t + refusal + [End(requests)];
  }

  /** The coroutine. `requests` is `req_n`. The accounting at the end belongs to a destructor,
      so it runs on every way out; a connection still waiting has not been accounted for.
      Nested loops, `goto` and destructor together do what the reference does answer by answer,
      and the trace conforms to the protocol. `uses` says what each answer was used for: it is
      what the answers before it lead to, and the trace is what the answers so used look like. */
  method HandleConnection(cfg: Config, script: seq<Answer>)
      returns (trace: seq<Event>, requests: nat, waiting: bool, finished: bool, ghost uses: seq<Use>)
    ensures Tells(cfg, script, uses, trace, waiting)
    ensures var r := Play(cfg, script);
            && trace == r.trace && requests == Requests(r.stage)
            && (waiting <==> !r.stage.Gone?) && (finished <==> r.stage == Gone(requests, true))
    ensures Conforms(cfg, trace)
    ensures waiting <==> (forall i :: 0 <= i < |trace| ==> !trace[i].End?)
    ensures !waiting ==> Accounted(trace, requests, finished)
    ensures forall n: nat :: Counted(n) in trace <==> 1 <= n <= requests
  {
    hide Conforms, Tallied, Tally, ReadyFor, Accounted, TurnShape, Closes, Play, Tells;
    uses := Uses(cfg, script, |script|);
    PlayTells(cfg, script);
    trace, requests, waiting, finished := [Begin], 0, false, false;
    BeginReady(cfg);
    var k := 0;
    assert script[..k] == [];
    var turn := Again;
    var n: nat := 0;
    while turn == Again
      invariant k <= |script| && n <= requests + 1 && (turn == Suspended ==> k == |script|)
      invariant Tracks(Play(cfg, script[..k]), trace, requests, turn)
      invariant turn == LimitAbort ==> Play(cfg, script[..k]).stage.n == n
      invariant Conforms(cfg, trace) && Tallied(trace, n, requests, turn)
      invariant forall i :: 0 <= i < |trace| ==> Position(trace[i]) < 8 * n + 5
      invariant turn == Again ==> n == requests && ReadyFor(cfg, trace, n + 1)
      invariant turn == LimitAbort ==> OpenBefore(trace, 8 * n + 4)
      decreases turn == Again, |script| - k
    {
      var es, w, x, counted;
      n := requests + 1;
      es, k, counted, w, x, turn := ServeRequest(cfg, script, k, requests, trace);
      AppendTurn(cfg, trace, n, w, x, es, turn);
      TurnTally(cfg, n, w, x, es, turn);
      TallyGrows(trace, requests, es, turn);
      trace, requests := trace + es, counted;
    }
    NothingEnded(trace, n, requests, turn);
    waiting := turn == Suspended || (turn == LimitAbort && k == |script|);
    if waiting {
      assert script[..k] == script;
      return;
    }
    trace, finished := CloseConnection(cfg, script, k, trace, n, requests, turn);
    assert trace[|trace| - 1].End?;
  }

  // ----- what a conforming trace means -----

  predicate IsFinal(e: Event) { e.Final? || e.TooLarge? }

  /** Final responses come in request order, one per request, and all but the last were
      written with keep-alive on; a 413 is the last message; after a response marked close
      there is neither another request nor another message; a 100 never follows the final
      response it announces. */
  lemma ResponsesInOrder(cfg: Config, t: seq<Event>, i: nat, j: nat)
    requires Conforms(cfg, t) && i < j < |t|
    ensures IsFinal(t[i]) && IsFinal(t[j]) ==> t[i].n < t[j].n && t[i] == Final(t[i].n, true, true)
    ensures t[i].TooLarge? ==> !IsMessage(t[j])
    ensures t[i].Final? && !t[i].keepAlive ==> !t[j].HeaderRead? && !IsMessage(t[j])
    ensures IsFinal(t[i]) && t[j].Continue? ==> t[i].n < t[j].n
    ensures !t[i].End?
  {
    assert Position(t[i]) < Position(t[j]);
    assert Closes(t[i]) ==> !t[i].End? && t[j].End?;
  }

  /** Every response answers a header read before it; keep-alive is on exactly when the client
      asked for it and the cap leaves room; a 100 that was asked for was written in between. */
  lemma FinalAnswersHeader(cfg: Config, t: seq<Event>, j: nat) returns (i: nat)
    requires Conforms(cfg, t) && j < |t| && t[j].Final?
    ensures i < j && t[i].HeaderRead? && t[i].n == t[j].n
    ensures t[j].keepAlive <==>
              t[i].wantsKeepAlive && (cfg.keepAliveRequests == 0 || t[j].n < cfg.keepAliveRequests)
    ensures t[i].expectsContinue ==> exists k :: i < k < j && t[k] == Continue(t[j].n, true)
  {
    var n := t[j].n;
    assert t[j] in t;
    var w, x :| HeaderRead(n, w, x) in t && t[j].keepAlive == (w && cfg.Below(n)) && (x ==> Continue(n, true) in t);
    i :| 0 <= i < |t| && t[i] == HeaderRead(n, w, x);
    Earlier(t, i, j);
    if x {
      var k :| 0 <= k < |t| && t[k] == Continue(n, true);
      Earlier(t, i, k);
      Earlier(t, k, j);
    }
  }

  lemma Earlier(t: seq<Event>, i: nat, j: nat)
    requires Increasing(t) && i < |t| && j < |t| && Position(t[i]) < Position(t[j])
    ensures i < j
  {
  }

  function Headers(t: seq<Event>): nat {
    if t == [] then 0 else Headers(t[..|t| - 1]) + if t[|t| - 1].HeaderRead? then 1 else 0
  }

  /** With a cap of K, no run of a connection reads more than K request headers. */
  lemma CapHolds(cfg: Config, t: seq<Event>)
    requires Conforms(cfg, t) && cfg.keepAliveRequests > 0
    ensures Headers(t) <= cfg.keepAliveRequests
  {
    forall i | 0 <= i < |t| && t[i].HeaderRead? ensures 1 <= t[i].n <= cfg.keepAliveRequests {
      assert t[i] in t;
    }
    HeadersBounded(t, cfg.keepAliveRequests);
  }

  lemma {:induction false} HeadersBounded(t: seq<Event>, bound: nat)
    requires Increasing(t)
    requires forall i :: 0 <= i < |t| && t[i].HeaderRead? ==> 1 <= t[i].n <= bound
    ensures Headers(t) <= bound
  {
    if t != [] {
      var last := t[|t| - 1];
      var rest := t[..|t| - 1];
      assert forall i :: 0 <= i < |rest| ==> Position(rest[i]) < Position(last);
      HeadersBounded(rest, if last.HeaderRead? then last.n - 1 else bound);
    }
  }
}
