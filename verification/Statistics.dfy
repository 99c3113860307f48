/** Server statistics: four 64-bit atomic counters, incremented by connections and read, or
    read and reset, by `/stat` requests that run at the same time.

    One step is one access to one atomic. A `/stat` request makes four of them, so increments
    and other requests can fall between any two. */
module Statistics {
  import opened Common

  const COUNTERS: nat := 4
  const CONNECTIONS: nat := 0
  const REQUESTS: nat := 1
  const DATA_REQ: nat := 2
  const DATA_RESP: nat := 3

  /** A connection: `reqN` requests read, `counted` of them already added to the statistics. */
  datatype Conn = Conn(reqN: nat, counted: nat)

  /** A `/stat` request and the part of its response filled in so far. */
  datatype Handler = Handler(reset: bool, response: seq<nat>)

  datatype State = State(
    cells: seq<nat>,
    added: seq<nat>,  // everything ever added to each counter
    conns: seq<Conn>,
    handlers: seq<Handler>)

  datatype Event =
    | Connect                            // ++connections
    | HeaderRead(c: nat)                 // ++req_n
    | CountRequest(c: nat)               // ++requests
    | CountReqBody(bytes: nat)           // data_req += bytes
    | CountRespBody(bytes: nat)          // data_resp += bytes
    | StatBegin(reset: bool)
    | StatAccess(h: nat)                 // the next of the four exchanges or loads

  ghost predicate Shape(s: State) {
    && |s.cells| == COUNTERS && |s.added| == COUNTERS
    && (forall i :: 0 <= i < COUNTERS ==> s.cells[i] < TWO_64)
  }

  const ZEROS: seq<nat> := [0, 0, 0, 0]

  const INIT := State(ZEROS, ZEROS, [], [])

  predicate Enabled(s: State, e: Event) {
    match e
    case Connect => true
    case HeaderRead(c) => c < |s.conns| && s.conns[c].reqN == s.conns[c].counted
    case CountRequest(c) => c < |s.conns| && s.conns[c].reqN > s.conns[c].counted
    case CountReqBody(_) => true
    case CountRespBody(_) => true
    case StatBegin(_) => true
    case StatAccess(h) => h < |s.handlers| && |s.handlers[h].response| < COUNTERS
  }

  /** The wrap-around of `fetch_add` on a 64-bit counter. */
  function Wrap(n: nat): nat { n % TWO_64 }

  function Add(s: State, i: nat, n: nat): State
    requires i < |s.cells| && i < |s.added|
  {
    s.(cells := s.cells[i := Wrap(s.cells[i] + n)], added := s.added[i := s.added[i] + n])
  }

  function Step(s: State, e: Event): State
    requires Shape(s) && Enabled(s, e)
  {
    match e
    case Connect => Add(s, CONNECTIONS, 1).(conns := s.conns + [Conn(0, 0)])
    case HeaderRead(c) => s.(conns := s.conns[c := Conn(s.conns[c].reqN + 1, s.conns[c].counted)])
    case CountRequest(c) =>
      Add(s, REQUESTS, 1).(conns := s.conns[c := Conn(s.conns[c].reqN, s.conns[c].counted + 1)])
    case CountReqBody(n) => Add(s, DATA_REQ, n)
    case CountRespBody(n) => Add(s, DATA_RESP, n)
    case StatBegin(reset) => s.(handlers := s.handlers + [Handler(reset, [])])
    case StatAccess(h) =>
      var hnd := s.handlers[h];
      var i := |hnd.response|;
      var hnd' := hnd.(response := hnd.response + [s.cells[i]]);
      s.(handlers := s.handlers[h := hnd'], cells := if hnd.reset then s.cells[i := 0] else s.cells)
  }

  /** The value a request took out of counter `i`; 0 if it only reads or has not got there. */
  function Taken(h: Handler, i: nat): nat {
    if h.reset && i < |h.response| then h.response[i] else 0
  }

  function AllTaken(hs: seq<Handler>, i: nat): seq<int> {
    seq(|hs|, k requires 0 <= k < |hs| => Taken(hs[k], i))
  }

  function AllCounted(cs: seq<Conn>): seq<int> {
    seq(|cs|, k requires 0 <= k < |cs| => cs[k].counted)
  }

  function AllReqN(cs: seq<Conn>): seq<int> {
    seq(|cs|, k requires 0 <= k < |cs| => cs[k].reqN)
  }

  /** The ledger of one counter: what was added is still there or was taken by a reset. */
  ghost predicate Balanced(s: State, i: nat)
    requires Shape(s) && i < COUNTERS
  {
    exists laps: nat :: s.added[i] == s.cells[i] + Sum(AllTaken(s.handlers, i)) + laps * TWO_64
  }

  ghost predicate Inv(s: State) {
    && Shape(s)
    && (forall i: nat :: i < COUNTERS ==> Balanced(s, i))
    && s.added[CONNECTIONS] == |s.conns|
    && s.added[REQUESTS] == Sum(AllCounted(s.conns))
    && (forall c :: 0 <= c < |s.conns| ==> s.conns[c].counted <= s.conns[c].reqN <= s.conns[c].counted + 1)
  }

  lemma WrapLaps(n: nat) returns (laps: nat)
    ensures n == Wrap(n) + laps * TWO_64
  {
    laps := n / TWO_64;
  }

  lemma AddBalances(s: State, s': State, i: nat, n: nat, j: nat)
    requires Shape(s) && i < COUNTERS && j < COUNTERS && Balanced(s, j)
    requires s'.handlers == s.handlers && s'.cells == Add(s, i, n).cells && s'.added == Add(s, i, n).added
    ensures Shape(s') && Balanced(s', j)
  {
    var laps: nat :| s.added[j] == s.cells[j] + Sum(AllTaken(s.handlers, j)) + laps * TWO_64;
    var more := WrapLaps(s.cells[i] + n);
    if i == j {
      assert s'.added[j] == s'.cells[j] + Sum(AllTaken(s'.handlers, j)) + (laps + more) * TWO_64;
    } else {
      assert s'.added[j] == s'.cells[j] + Sum(AllTaken(s'.handlers, j)) + laps * TWO_64;
    }
  }

  lemma AccessBalances(s: State, h: nat, j: nat)
    requires Shape(s) && j < COUNTERS && Balanced(s, j) && Enabled(s, StatAccess(h))
    ensures Shape(Step(s, StatAccess(h))) && Balanced(Step(s, StatAccess(h)), j)
  {
    var s' := Step(s, StatAccess(h));
    var laps: nat :| s.added[j] == s.cells[j] + Sum(AllTaken(s.handlers, j)) + laps * TWO_64;
    var t, t' := AllTaken(s.handlers, j), AllTaken(s'.handlers, j);
    assert t' == t[h := Taken(s'.handlers[h], j)];
    SumUpdate(t, h, Taken(s'.handlers[h], j));
    assert s'.added[j] == s'.cells[j] + Sum(t') + laps * TWO_64;
  }

  lemma BeginBalances(s: State, reset: bool, j: nat)
    requires Shape(s) && j < COUNTERS && Balanced(s, j)
    ensures Balanced(Step(s, StatBegin(reset)), j)
  {
    var s' := Step(s, StatBegin(reset));
    var laps: nat :| s.added[j] == s.cells[j] + Sum(AllTaken(s.handlers, j)) + laps * TWO_64;
    assert AllTaken(s'.handlers, j) == AllTaken(s.handlers, j) + [0];
    SumConcat(AllTaken(s.handlers, j), [0]);
    assert s'.added[j] == s'.cells[j] + Sum(AllTaken(s'.handlers, j)) + laps * TWO_64;
  }

  lemma StepBalances(s: State, e: Event, j: nat)
    requires Shape(s) && Enabled(s, e) && j < COUNTERS && Balanced(s, j)
    ensures Shape(Step(s, e)) && Balanced(Step(s, e), j)
  {
    match e {
      case Connect => AddBalances(s, Step(s, e), CONNECTIONS, 1, j);
      case HeaderRead(_) => AddBalances(s, Step(s, e), CONNECTIONS, 0, j);
      case CountRequest(_) => AddBalances(s, Step(s, e), REQUESTS, 1, j);
      case CountReqBody(n) => AddBalances(s, Step(s, e), DATA_REQ, n, j);
      case CountRespBody(n) => AddBalances(s, Step(s, e), DATA_RESP, n, j);
      case StatBegin(reset) => BeginBalances(s, reset, j);
      case StatAccess(h) => AccessBalances(s, h, j);
    }
  }

  lemma StepCounts(s: State, e: Event)
    requires Shape(s) && Enabled(s, e)
    requires s.added[REQUESTS] == Sum(AllCounted(s.conns))
    ensures Step(s, e).added[REQUESTS] == Sum(AllCounted(Step(s, e).conns))
  {
    var s' := Step(s, e);
    match e {
      case Connect =>
        assert AllCounted(s'.conns) == AllCounted(s.conns) + [0];
        SumConcat(AllCounted(s.conns), [0]);
      case HeaderRead(c) => assert AllCounted(s'.conns) == AllCounted(s.conns);
      case CountRequest(c) =>
        assert AllCounted(s'.conns) == AllCounted(s.conns)[c := s.conns[c].counted + 1];
        SumUpdate(AllCounted(s.conns), c, s.conns[c].counted + 1);
      case _ =>
    }
  }

  lemma StepKeepsInv(s: State, e: Event)
    requires Inv(s) && Enabled(s, e)
    ensures Inv(Step(s, e))
  {
    forall j: nat | j < COUNTERS ensures Shape(Step(s, e)) && Balanced(Step(s, e), j) {
      StepBalances(s, e, j);
    }
    StepCounts(s, e);
  }

  /** A run: the events happen one after the other, each when it is enabled. */
  ghost predicate Run(s: State, es: seq<Event>, t: State)
    decreases es
  {
    if es == [] then s == t
    else Shape(s) && Enabled(s, es[0]) && Run(Step(s, es[0]), es[1..], t)
  }

  lemma {:induction false} RunKeepsInv(s: State, es: seq<Event>, t: State)
    requires Inv(s) && Run(s, es, t)
    ensures Inv(t)
    decreases es
  {
    if es != [] {
      StepKeepsInv(s, es[0]);
      RunKeepsInv(Step(s, es[0]), es[1..], t);
    }
  }

  lemma InitInv()
    ensures Inv(INIT)
  {
    forall i: nat | i < COUNTERS ensures Balanced(INIT, i) {
      assert INIT.added[i] == INIT.cells[i] + Sum(AllTaken(INIT.handlers, i)) + 0 * TWO_64;
    }
  }

  /** Conservation, for every counter and every interleaving: everything ever added equals what
      the counter holds plus what all resets together returned, modulo 2^64. */
  lemma Conservation(es: seq<Event>, t: State, i: nat)
    requires Run(INIT, es, t) && i < COUNTERS
    ensures Shape(t)
    ensures t.added[i] % TWO_64 == (t.cells[i] + Sum(AllTaken(t.handlers, i))) % TWO_64
  {
    InitInv();
    RunKeepsInv(INIT, es, t);
    assert Balanced(t, i);
    var laps: nat :| t.added[i] == t.cells[i] + Sum(AllTaken(t.handlers, i)) + laps * TWO_64;
    ModLaps(t.cells[i] + Sum(AllTaken(t.handlers, i)), laps);
  }

  lemma {:induction false} ModLaps(n: int, laps: nat)
    ensures (n + laps * TWO_64) % TWO_64 == n % TWO_64
  {
    if laps > 0 {
      ModLaps(n, laps - 1);
      assert n + laps * TWO_64 == n + (laps - 1) * TWO_64 + TWO_64;
    }
  }

  /** Every connection is counted once; and when no connection is between reading a header and
      counting it, the requests ever added are exactly the sum of all `req_n`. */
  lemma RequestsAddUp(es: seq<Event>, t: State)
    requires Run(INIT, es, t)
    ensures Shape(t) && t.added[CONNECTIONS] == |t.conns|
    ensures Sum(AllReqN(t.conns)) - |t.conns| <= t.added[REQUESTS] <= Sum(AllReqN(t.conns))
    ensures (forall c :: 0 <= c < |t.conns| ==> !Enabled(t, CountRequest(c))) ==>
              t.added[REQUESTS] == Sum(AllReqN(t.conns))
  {
    InitInv();
    RunKeepsInv(INIT, es, t);
    ReqNBounds(t.conns);
    if forall c :: 0 <= c < |t.conns| ==> !Enabled(t, CountRequest(c)) {
      forall c | 0 <= c < |t.conns| ensures AllCounted(t.conns)[c] == AllReqN(t.conns)[c] {
        assert !Enabled(t, CountRequest(c));
      }
      assert AllCounted(t.conns) == AllReqN(t.conns);
    }
  }

  lemma {:induction false} ReqNBounds(cs: seq<Conn>)
    requires forall c :: 0 <= c < |cs| ==> cs[c].counted <= cs[c].reqN <= cs[c].counted + 1
    ensures Sum(AllReqN(cs)) - |cs| <= Sum(AllCounted(cs)) <= Sum(AllReqN(cs))
  {
    if cs != [] {
      ReqNBounds(cs[1..]);
      assert AllReqN(cs)[1..] == AllReqN(cs[1..]);
      assert AllCounted(cs)[1..] == AllCounted(cs[1..]);
    }
  }

  /** What a run's events say was added to a counter. */
  function AddedBy(e: Event, i: nat): nat {
    match e
    case Connect => if i == 0 then 1 else 0
    case CountRequest(_) => if i == 1 then 1 else 0
    case CountReqBody(bytes) => if i == 2 then bytes else 0
    case CountRespBody(bytes) => if i == 3 then bytes else 0
    case _ => 0
  }

  function AddedByAll(es: seq<Event>, i: nat): nat {
    if es == [] then 0 else AddedBy(es[0], i) + AddedByAll(es[1..], i)
  }

  /** The headers that connection `c` read. */
  function HeadersOf(es: seq<Event>, c: nat): nat {
    if es == [] then 0 else (if es[0] == HeaderRead(c) then 1 else 0) + HeadersOf(es[1..], c)
  }

  function ReqN(s: State, c: nat): nat { if c < |s.conns| then s.conns[c].reqN else 0 }

  lemma {:induction false} AddedFromEvents(s: State, es: seq<Event>, t: State, i: nat, c: nat)
    requires Shape(s) && Run(s, es, t) && i < COUNTERS
    ensures Shape(t) && t.added[i] == s.added[i] + AddedByAll(es, i)
    ensures ReqN(t, c) == ReqN(s, c) + HeadersOf(es, c)
    decreases es
  {
    if es != [] {
      AddedFromEvents(Step(s, es[0]), es[1..], t, i, c);
    }
  }

  /** The same from the events alone: what a run's connections, requests and bodies add up to is
      what the counters hold and the resets returned, and `req_n` counts a connection's headers. */
  lemma EventsAddUp(es: seq<Event>, t: State, i: nat, c: nat)
    requires Run(INIT, es, t) && i < COUNTERS
    ensures Shape(t)
    ensures AddedByAll(es, i) % TWO_64 == (t.cells[i] + Sum(AllTaken(t.handlers, i))) % TWO_64
    ensures c < |t.conns| ==> t.conns[c].reqN == HeadersOf(es, c)
    ensures |t.conns| == AddedByAll(es, 0)
  {
    Conservation(es, t, i);
    RequestsAddUp(es, t);
    AddedFromEvents(INIT, es, t, i, c);
    AddedFromEvents(INIT, es, t, 0, c);
  }

  /** `n` accesses of request `h` in a row. */
  function Accesses(h: nat, n: nat): seq<Event> {
    if n == 0 then [] else [StatAccess(h)] + Accesses(h, n - 1)
  }

  /** A `/stat` request served without anything in between. */
  function Served(reset: bool, h: nat): seq<Event> {
    [StatBegin(reset)] + Accesses(h, COUNTERS)
  }

  lemma RunOne(s: State, e: Event, es: seq<Event>, t: State)
    requires Shape(s) && Enabled(s, e) && Run(Step(s, e), es, t)
    ensures Run(s, [e] + es, t)
  {
    assert ([e] + es)[1..] == es;
  }

  /** After `n` accesses of such a request: a prefix of a snapshot, and if it resets that many zeros. */
  ghost function Midway(s: State, reset: bool, n: nat): State
    requires Shape(s) && n <= COUNTERS
  {
    s.(handlers := s.handlers + [Handler(reset, s.cells[..n])],
       cells := if reset then seq(n, i => 0) + s.cells[n..] else s.cells)
  }

  lemma MidwayNext(s: State, reset: bool, n: nat)
    requires Shape(s) && n < COUNTERS
    ensures var m, e := Midway(s, reset, n), StatAccess(|s.handlers|);
            Shape(m) && Enabled(m, e) && Step(m, e) == Midway(s, reset, n + 1)
  {
    var m := Midway(s, reset, n);
    assert m.handlers[|s.handlers|] == Handler(reset, s.cells[..n]) && m.cells[n] == s.cells[n];
    assert s.cells[..n + 1] == s.cells[..n] + [s.cells[n]];
    if reset {
      assert m.cells[n := 0] == seq(n + 1, i => 0) + s.cells[n + 1..];
    }
  }

  lemma MidwayEnds(s: State, reset: bool)
    requires Shape(s)
    ensures Midway(s, reset, 0) == Step(s, StatBegin(reset)) && Shape(Midway(s, reset, COUNTERS))
    ensures Midway(s, reset, COUNTERS).cells == if reset then ZEROS else s.cells
    ensures s.cells == [s.cells[0], s.cells[1], s.cells[2], s.cells[3]]
    ensures Midway(s, reset, COUNTERS).handlers == s.handlers + [Handler(reset, s.cells)]
  {
    assert seq(0, i => 0) + s.cells[0..] == s.cells;
    assert s.cells[..COUNTERS] == s.cells;
  }

  lemma {:induction false} MidwayRuns(s: State, reset: bool, n: nat)
    requires Shape(s) && n <= COUNTERS
    ensures Run(Midway(s, reset, COUNTERS - n), Accesses(|s.handlers|, n), Midway(s, reset, COUNTERS))
  {
    if n > 0 {
      MidwayNext(s, reset, COUNTERS - n);
      MidwayRuns(s, reset, n - 1);
      hide Run, Midway, Step;
      RunOne(Midway(s, reset, COUNTERS - n), StatAccess(|s.handlers|), Accesses(|s.handlers|, n - 1),
             Midway(s, reset, COUNTERS));
    }
  }

  lemma ServedRuns(s: State, reset: bool)
    requires Shape(s)
    ensures Run(s, Served(reset, |s.handlers|), Midway(s, reset, COUNTERS))
  {
    MidwayEnds(s, reset);
    MidwayNext(s, reset, 0);
    MidwayRuns(s, reset, COUNTERS);
    hide Run, Midway, Accesses;
    RunOne(s, StatBegin(reset), Accesses(|s.handlers|, COUNTERS), Midway(s, reset, COUNTERS));
  }

  // ----- the statistics object -----

  /** The counters, with the accesses the code makes to them; `added` is the ledger. */
  class StatData {
    var cells: seq<nat>
    var conns: seq<Conn>
    var handlers: seq<Handler>
    ghost var added: seq<nat>

    ghost function View(): State
      reads this
    {
      State(cells, added, conns, handlers)
    }

    constructor ()
      ensures View() == INIT
    {
      cells, conns, handlers, added := ZEROS, [], [], ZEROS;
    }

    /** The increment of one atomic counter. */
    method FetchAdd(i: nat, n: nat)
      requires Shape(View()) && i < COUNTERS
      modifies this`cells, this`added
      ensures View() == Add(old(View()), i, n) && Shape(View())
    {
      cells := cells[i := (cells[i] + n) % TWO_64];
      added := added[i := added[i] + n];
    }

    method Connect()
      requires Shape(View())
      modifies this
      ensures View() == Step(old(View()), Event.Connect) && Shape(View())
    {
      FetchAdd(CONNECTIONS, 1);
      conns := conns + [Conn(0, 0)];
    }

    method HeaderRead(c: nat)
      requires Shape(View()) && Enabled(View(), Event.HeaderRead(c))
      modifies this`conns
      ensures View() == Step(old(View()), Event.HeaderRead(c)) && Shape(View())
    {
      conns := conns[c := conns[c].(reqN := conns[c].reqN + 1)];
    }

    method CountRequest(c: nat)
      requires Shape(View()) && Enabled(View(), Event.CountRequest(c))
      modifies this
      ensures View() == Step(old(View()), Event.CountRequest(c)) && Shape(View())
    {
      FetchAdd(REQUESTS, 1);
      conns := conns[c := conns[c].(counted := conns[c].counted + 1)];
    }

    method Begin(reset: bool) returns (h: nat)
      requires Shape(View())
      modifies this`handlers
      ensures View() == Step(old(View()), StatBegin(reset)) && h == |old(handlers)|
    {
      h := |handlers|;
      handlers := handlers + [Handler(reset, [])];
    }

    /** The next exchange or load of request `h`. */
    method Access(h: nat) returns (value: nat)
      requires Shape(View()) && Enabled(View(), StatAccess(h))
      modifies this`cells, this`handlers
      ensures View() == Step(old(View()), StatAccess(h)) && Shape(View())
      ensures handlers[h].response == old(handlers[h].response) + [value]
    {
      var i := |handlers[h].response|;
      value := cells[i];
      if handlers[h].reset {
        cells := cells[i := 0];
      }
      handlers := handlers[h := handlers[h].(response := handlers[h].response + [value])];
    }

    /** `handle_sync` when nothing runs in between: five steps in a row. The response is a snapshot,
        and a reset leaves nothing behind. */
    method HandleSync(reset: bool) returns (response: seq<nat>)
      requires Shape(View())
      modifies this`cells, this`handlers
      ensures Run(old(View()), Served(reset, |old(handlers)|), View()) && Shape(View())
      ensures response == old(cells)
      ensures cells == if reset then ZEROS else old(cells)
    {
      ghost var s := View();
      MidwayEnds(s, reset);
      ServedRuns(s, reset);
      hide Step, Midway, Run, Served;
      var h := Begin(reset);
      response := Fill(s, reset, h);
    }

    method Fill(ghost s: State, ghost reset: bool, h: nat) returns (response: seq<nat>)
      requires Shape(s) && h == |s.handlers| && View() == Midway(s, reset, 0)
      modifies this`cells, this`handlers
      ensures View() == Midway(s, reset, COUNTERS) && response == s.cells
    {
      MidwayEnds(s, reset);
      hide Midway, View;
      var connections := FillIn(s, reset, h, 0);
      var requests := FillIn(s, reset, h, 1);
      var dataReq := FillIn(s, reset, h, 2);
      var dataResp := FillIn(s, reset, h, 3);
      response := [connections, requests, dataReq, dataResp];
    }

    method FillIn(ghost s: State, ghost reset: bool, h: nat, ghost n: nat) returns (value: nat)
      requires Shape(s) && n < COUNTERS && h == |s.handlers| && View() == Midway(s, reset, n)
      modifies this`cells, this`handlers
      ensures View() == Midway(s, reset, n + 1) && value == s.cells[n]
    {
      MidwayNext(s, reset, n);
      value := Access(h);
    }

    /** One event of a run. */
    method Do(e: Event)
      requires Shape(View()) && Enabled(View(), e)
      modifies this
      ensures View() == Step(old(View()), e) && Shape(View())
    {
      match e {
        case Connect => Connect();
        case HeaderRead(c) => HeaderRead(c);
        case CountRequest(c) => CountRequest(c);
        case CountReqBody(bytes) => FetchAdd(DATA_REQ, bytes);
        case CountRespBody(bytes) => FetchAdd(DATA_RESP, bytes);
        case StatBegin(reset) => var h := Begin(reset);
        case StatAccess(h) => var value := Access(h);
      }
    }

    /** Drives the object through any run: it ends where the step system ends, so everything
        added is still held or was taken by a reset, modulo 2^64. */
    method Drive(es: seq<Event>, ghost t: State)
      requires View() == INIT && Run(INIT, es, t)
      modifies this
      ensures View() == t && Shape(View())
      ensures forall i: nat :: i < COUNTERS ==>
                added[i] % TWO_64 == (cells[i] + Sum(AllTaken(handlers, i))) % TWO_64
    {
      hide Step, Sum, Enabled;
      var k := 0;
      while k < |es|
        invariant k <= |es| && Shape(View()) && Run(View(), es[k..], t)
      {
        assert es[k..][1..] == es[k + 1..];
        Do(es[k]);
        k := k + 1;
      }
      forall i: nat | i < COUNTERS
        ensures added[i] % TWO_64 == (cells[i] + Sum(AllTaken(handlers, i))) % TWO_64
      {
        Conservation(es, t, i);
      }
    }
  }
}
