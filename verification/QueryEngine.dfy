/** Running one request on a prepared statement: binding, stepping, and retrying on a lock. */
module QueryEngine {
  import opened Sqlite

  type ProtoRow = seq<ProtoValue>

  function ProtoRowOf(r: Row): ProtoRow {
    seq(|r|, i requires 0 <= i < |r| => ToProto(r[i]))
  }

  function ProtoRows(rs: seq<Row>): seq<ProtoRow> {
    seq(|rs|, i requires 0 <= i < |rs| => ProtoRowOf(rs[i]))
  }

  // ----- specification -----

  /** The attempts made for one request: each but the last ended on a lock. */
  function Attempts(env: Env, clock: nat, vs: seq<SqlValue>, retries: nat): (r: seq<Attempt>)
    ensures 1 <= |r| <= retries + 1
    decreases retries
  {
    var a := env.step(clock, vs);
    if EndsLocked(a) && retries > 0 then [a] + Attempts(env, clock + 1, vs, retries - 1) else [a]
  }

  function Last(r: seq<Attempt>): Attempt
    requires |r| > 0
  {
    r[|r| - 1]
  }

  function AllRows(r: seq<Attempt>): seq<Row> {
    if r == [] then [] else r[0].rows + AllRows(r[1..])
  }

  lemma {:induction false} AllRowsConcat(a: seq<Attempt>, b: seq<Attempt>)
    ensures AllRows(a + b) == AllRows(a) + AllRows(b)
  {
    if a == [] {
      assert a + b == b;
    } else {
      assert (a + b)[1..] == a[1..] + b;
      AllRowsConcat(a[1..], b);
    }
  }

  datatype Message = MsgOk | UnknownDatabase | UnknownQuery | SqliteError

  datatype Response = Response(ok: bool, msg: Message, rows: seq<ProtoRow>)

  const FAILED := Response(false, SqliteError, [])

  /** The request's arguments, with null for the parameters it does not mention. */
  function Padded(args: seq<ProtoValue>, params: nat): seq<SqlValue>
    requires |args| <= params
  {
    seq(params, i requires 0 <= i < params => if i < |args| then ToSql(args[i]) else SqlNull)
  }

  ghost predicate Binds(env: Env, params: nat, clock: nat, args: seq<ProtoValue>) {
    && !env.clearFails(clock)
    && |args| <= params
    && forall i: nat :: i < |args| ==> !env.bindFails(clock, i)
  }

  /** The answer to a request, as a function of the database and the request alone. */
  ghost function Respond(env: Env, params: nat, clock: nat, args: seq<ProtoValue>, retries: nat): Response {
    if !Binds(env, params, clock, args) then FAILED
    else
      var r := Attempts(env, clock, Padded(args, params), retries);
      if EndsDone(Last(r)) then Response(true, MsgOk, ProtoRows(AllRows(r))) else FAILED
  }

  // ----- the answer, from the database's moments alone -----

  /** What the database does at the `j`-th moment from `clock`. */
  function Moment(env: Env, clock: nat, vs: seq<SqlValue>, j: nat): Attempt { env.step(clock + j, vs) }

  /** The request's attempts end with the `m`-th retry: all before it met a lock, and it did not or
      was the last one allowed. */
  ghost predicate EndsAt(env: Env, clock: nat, vs: seq<SqlValue>, allowed: nat, m: nat) {
    && m <= allowed
    && (forall j :: 0 <= j < m ==> EndsLocked(Moment(env, clock, vs, j)))
    && (m == allowed || !EndsLocked(Moment(env, clock, vs, m)))
  }

  /** The rows of the first attempt and of `m` retries. */
  function RowsUpTo(env: Env, clock: nat, vs: seq<SqlValue>, m: nat): seq<Row> {
    (if m == 0 then [] else RowsUpTo(env, clock, vs, m - 1)) + Moment(env, clock, vs, m).rows
  }

  /** Column by column, the response holds what the database returned. */
  ghost predicate SameRows(rows: seq<ProtoRow>, raw: seq<Row>) {
    && |rows| == |raw|
    && forall k :: 0 <= k < |raw| ==> SameRow(rows[k], raw[k])
  }

  ghost predicate SameRow(row: ProtoRow, raw: Row) {
    |row| == |raw| && forall c :: 0 <= c < |raw| ==> SameValue(row[c], raw[c])
  }

  /** What a client makes of the moment `clock` after `m` retries. */
  ghost predicate Reports(env: Env, clock: nat, vs: seq<SqlValue>, m: nat, response: Response) {
    && (response.ok <==> EndsDone(Moment(env, clock, vs, m)))
    && (response.ok ==> response.msg == MsgOk && SameRows(response.rows, RowsUpTo(env, clock, vs, m)))
    && (!response.ok ==> response == FAILED)
  }

  /** The arguments are bound as they are, kind and content, and the rest is null. */
  ghost predicate BoundAs(vs: seq<SqlValue>, args: seq<ProtoValue>, params: nat) {
    && |args| <= params == |vs|
    && forall i :: 0 <= i < params ==> if i < |args| then SameValue(args[i], vs[i]) else vs[i].SqlNull?
  }

  /** The attempts are consecutive, each but the last was cut short by a lock, and a run that
      ends on a lock has used up all its retries. */
  lemma {:induction false} AttemptsShape(env: Env, clock: nat, vs: seq<SqlValue>, retries: nat)
    ensures var r := Attempts(env, clock, vs, retries);
            && (forall j :: 0 <= j < |r| ==> r[j] == env.step(clock + j, vs))
            && (forall j :: 0 <= j < |r| - 1 ==> EndsLocked(r[j]))
            && (EndsLocked(Last(r)) ==> |r| == retries + 1)
    decreases retries
  {
    var a := env.step(clock, vs);
    if EndsLocked(a) && retries > 0 {
      AttemptsShape(env, clock + 1, vs, retries - 1);
      var rest := Attempts(env, clock + 1, vs, retries - 1);
      var r := Attempts(env, clock, vs, retries);
      assert r == [a] + rest;
      forall j | 0 <= j < |r| ensures r[j] == env.step(clock + j, vs) {
        if j > 0 {
          assert r[j] == rest[j - 1];
        }
      }
    }
  }

  /** There is always exactly one such `m`, and the attempts made are those up to it. */
  lemma AttemptsEnd(env: Env, clock: nat, vs: seq<SqlValue>, allowed: nat)
    ensures var r := Attempts(env, clock, vs, allowed);
            && (forall m: nat :: EndsAt(env, clock, vs, allowed, m) <==> m == |r| - 1)
            && Last(r) == Moment(env, clock, vs, |r| - 1)
            && AllRows(r) == RowsUpTo(env, clock, vs, |r| - 1)
  {
    var r := Attempts(env, clock, vs, allowed);
    AttemptsShape(env, clock, vs, allowed);
    RowsOfPrefix(env, clock, vs, r, |r| - 1);
    assert r[..|r|] == r;
    hide AllRows, RowsUpTo, Attempts;
    forall j | 0 <= j < |r| ensures r[j] == Moment(env, clock, vs, j) {
    }
    forall j | 0 <= j < |r| - 1 ensures EndsLocked(Moment(env, clock, vs, j)) {
      assert EndsLocked(r[j]);
    }
    assert EndsLocked(Moment(env, clock, vs, |r| - 1)) ==> |r| - 1 == allowed;
    hide EndsLocked, Moment;
  }

  lemma {:induction false} RowsOfPrefix(env: Env, clock: nat, vs: seq<SqlValue>, r: seq<Attempt>, m: nat)
    requires m < |r| && forall j :: 0 <= j < |r| ==> r[j] == Moment(env, clock, vs, j)
    ensures AllRows(r[..m + 1]) == RowsUpTo(env, clock, vs, m)
  {
    assert r[..m + 1] == r[..m] + [r[m]];
    RowsThen(r[..m], r[m]);
    if m > 0 {
      RowsOfPrefix(env, clock, vs, r, m - 1);
    } else {
      assert r[..0] == [];
    }
  }

  lemma PaddedBinds(args: seq<ProtoValue>, params: nat)
    requires |args| <= params
    ensures BoundAs(Padded(args, params), args, params)
  {
  }

  lemma CopiedRows(raw: seq<Row>)
    ensures SameRows(ProtoRows(raw), raw)
  {
  }

  /** The answer by attempts is the answer by moments. */
  lemma RespondReports(env: Env, params: nat, clock: nat, args: seq<ProtoValue>, allowed: nat, m: nat)
    requires Binds(env, params, clock, args) && EndsAt(env, clock, Padded(args, params), allowed, m)
    ensures Reports(env, clock, Padded(args, params), m, Respond(env, params, clock, args, allowed))
  {
    var r := Attempts(env, clock, Padded(args, params), allowed);
    AttemptsEnd(env, clock, Padded(args, params), allowed);
    CopiedRows(AllRows(r));
    hide AllRows, RowsUpTo, SameRows, Attempts, Padded;
  }

  // ----- the code -----

  method CopyRow(q: Statement) returns (row: ProtoRow)
    requires q.Valid() && q.active && q.row > 0
    ensures row == ProtoRowOf(q.current.rows[q.row - 1])
  {
    var columns := q.ColumnCount();
    row := [];
    var c := 0;
    while c < columns
      invariant c <= columns
      invariant row == ProtoRowOf(q.current.rows[q.row - 1])[..c]
    {
      row := row + [ToProto(q.GetColumn(c))];
      c := c + 1;
    }
  }

  /** The state of the retry loop: `all` are the attempts of the whole run, `done` those that
      ended on a lock, `part` the rows the current attempt has returned so far. */
  ghost predicate Doing(env: Env, vs: seq<SqlValue>, clock: nat, retries: nat, part: seq<Row>,
                        rows: seq<ProtoRow>, done: seq<Attempt>, all: seq<Attempt>)
  {
    all == done + Attempts(env, clock, vs, retries) && rows == ProtoRows(AllRows(done) + part)
  }

  lemma DoingStart(env: Env, vs: seq<SqlValue>, clock: nat, retries: nat, all: seq<Attempt>)
    requires all == Attempts(env, clock, vs, retries)
    ensures Doing(env, vs, clock, retries, [], [], [], all)
  {
  }

  lemma DoingRow(env: Env, vs: seq<SqlValue>, clock: nat, retries: nat, part: seq<Row>,
                 rows: seq<ProtoRow>, done: seq<Attempt>, all: seq<Attempt>, r: Row)
    requires Doing(env, vs, clock, retries, part, rows, done, all)
    ensures Doing(env, vs, clock, retries, part + [r], rows + [ProtoRowOf(r)], done, all)
  {
    assert AllRows(done) + (part + [r]) == (AllRows(done) + part) + [r];
  }

  lemma RowsThen(done: seq<Attempt>, a: Attempt)
    ensures AllRows(done + [a]) == AllRows(done) + a.rows
  {
    AllRowsConcat(done, [a]);
    assert AllRows([a]) == a.rows + AllRows([]);
  }

  /** A lock with retries left ends one attempt and begins the next. */
  lemma DoingRetry(env: Env, vs: seq<SqlValue>, clock: nat, retries: nat, a: Attempt,
                   rows: seq<ProtoRow>, done: seq<Attempt>, all: seq<Attempt>)
    requires a == env.step(clock, vs) && EndsLocked(a) && retries > 0
    requires Doing(env, vs, clock, retries, a.rows, rows, done, all)
    ensures Doing(env, vs, clock + 1, retries - 1, [], rows, done + [a], all)
  {
    RowsThen(done, a);
    assert AllRows(done + [a]) + [] == AllRows(done) + a.rows;
  }

  lemma DoingEnd(env: Env, vs: seq<SqlValue>, clock: nat, retries: nat, a: Attempt,
                 rows: seq<ProtoRow>, done: seq<Attempt>, all: seq<Attempt>)
    requires a == env.step(clock, vs) && (retries == 0 || !EndsLocked(a))
    requires Doing(env, vs, clock, retries, a.rows, rows, done, all)
    ensures |all| == |done| + 1 && Last(all) == a && rows == ProtoRows(AllRows(all))
  {
    RowsThen(done, a);
  }

  lemma OneMore(n: nat, wait: nat)
    ensures (n + 1) * wait == n * wait + wait
  {
  }

  /** The row branch of the loop: `response.add_rows()` and its columns. */
  method AddRow(q: Statement, rows0: seq<ProtoRow>, ghost env: Env, ghost vs: seq<SqlValue>, ghost retries: nat,
                ghost done: seq<Attempt>, ghost all: seq<Attempt>) returns (rows: seq<ProtoRow>)
    requires q.Valid() && q.active && q.row > 0
    requires Doing(env, vs, q.clock, retries, q.current.rows[..q.row - 1], rows0, done, all)
    ensures rows == rows0 + [ProtoRowOf(q.current.rows[q.row - 1])]
    ensures Doing(env, vs, q.clock, retries, q.current.rows[..q.row], rows, done, all)
  {
    var row := CopyRow(q);
    DoingRow(env, vs, q.clock, retries, q.current.rows[..q.row - 1], rows0, done, all, q.current.rows[q.row - 1]);
    assert q.current.rows[..q.row] == q.current.rows[..q.row - 1] + [q.current.rows[q.row - 1]];
    rows := rows0 + [row];
  }

  /** `execute_query`: step until done, restarting after each lock while retries last. Rows
      already added stay in the response. `ok` is false if an error is thrown; `waited` is all
      the time it asked to wait for other threads. The loop terminates because a retry uses up
      one of `retries` and a row uses up one row of a finite attempt. */
  method ExecuteQuery(q: Statement, retryWait: nat, retries0: nat, memory: Memory, ghost request: nat)
      returns (ok: bool, rows: seq<ProtoRow>, waited: nat)
    requires q.Valid() && !q.active && Live(q.bindings, memory)
    modifies q`clock, q`active, q`current, q`row, q`log, q`bindings
    ensures q.Valid() && q.bindings == old(q.bindings)
    ensures q.log == old(q.log) + {StepRecord(request, Values(q.bindings, memory))}
    ensures var r := Attempts(q.env, old(q.clock), Values(q.bindings, memory), retries0);
            && (ok <==> EndsDone(Last(r)))
            && rows == ProtoRows(AllRows(r))
            && waited == (|r| - 1) * retryWait
            && q.clock == old(q.clock) + |r| - 1
  {
    hide Doing, Attempts, AllRows, ProtoRows;
    ghost var bs, env := q.bindings, q.env;
    ghost var vs := Values(bs, memory);
    ghost var all := Attempts(env, q.clock, vs, retries0);
    ghost var done := [];
    var retries := retries0;
    rows, waited, ok := [], 0, false;
    DoingStart(env, vs, q.clock, retries, all);
    assert q.current.rows[..q.row] == [];
    while true
      invariant q.Valid() && q.bindings == bs
      invariant q.active ==> q.current == env.step(q.clock, vs)
      invariant Doing(env, vs, q.clock, retries, q.current.rows[..q.row], rows, done, all)
      invariant q.clock == old(q.clock) + |done|
      invariant waited == |done| * retryWait
      invariant q.log == old(q.log) || q.log == old(q.log) + {StepRecord(request, vs)}
      decreases retries, |env.step(q.clock, vs).rows| - q.row
    {
      var res := q.NextRow(retries, memory, request);
      if res != StatusRow {
        assert q.current.rows[..q.row] == q.current.rows;
      }
      if res == StatusDone || res == Thrown {
        ok := res == StatusDone;
        DoingEnd(env, vs, q.clock, retries, q.current, rows, done, all);
        return;
      }
      if res == StatusLocked {
        assert retries > 0;
        DoingRetry(env, vs, q.clock, retries, q.current, rows, done, all);
        OneMore(|done|, retryWait);
        done := done + [q.current];
        retries := retries - 1;
        if retryWait > 0 {
          waited := waited + retryWait;
        }
        var restarted := q.Start(true);
        assert q.current.rows[..q.row] == [];
        continue;
      }
      rows := AddRow(q, rows, env, vs, retries, done, all);
    }
  }

  /** What `bind` makes of an argument: a copy of a number, a pointer to a text or a blob. */
  function BindingOf(v: ProtoValue, request: nat, i: nat): Binding {
    if v.PText? || v.PBlob? then Pointer(request, i) else Value(ToSql(v))
  }

  /** `db_server::bind`: the switch over the kinds of argument. */
  method BindArgument(q: Statement, i: nat, v: ProtoValue, request: nat) returns (ok: bool)
    requires q.Valid() && !q.active
    modifies q`bindings
    ensures q.Valid() && (ok <==> i < q.params && !q.env.bindFails(q.clock, i))
    ensures q.bindings == if ok then old(q.bindings)[i := BindingOf(v, request, i)] else old(q.bindings)
    ensures ok && (v.PText? || v.PBlob?) ==> q.bindings[i] == Pointer(request, i)
    ensures ok && !v.PText? && !v.PBlob? ==> q.bindings[i].Value? && SameValue(v, q.bindings[i].v)
  {
    match v {
      case NotSet => ok := q.Bind(i, Value(SqlNull));
      case PNull => ok := q.Bind(i, Value(SqlNull));
      case PInt(n) => ok := q.Bind(i, Value(SqlInt(n)));
      case PDouble(d) => ok := q.Bind(i, Value(SqlDouble(d)));
      case PText(_) => ok := q.Bind(i, Pointer(request, i));
      case PBlob(_) => ok := q.Bind(i, Pointer(request, i));
    }
  }

  /** Binding all arguments onto a freshly cleared statement. On success every parameter is the
      request's own argument or null, and no pointer leads outside the request. */
  method BindAll(q: Statement, args: seq<ProtoValue>, request: nat) returns (ok: bool)
    requires q.Valid() && !q.active && q.bindings == seq(q.params, i => Value(SqlNull))
    modifies q`bindings
    ensures q.Valid()
    ensures ok <==> |args| <= q.params && forall i: nat :: i < |args| ==> !q.env.bindFails(q.clock, i)
    ensures ok ==>
              && Live(q.bindings, map[request := args])
              && Values(q.bindings, map[request := args]) == Padded(args, q.params)
              && BoundAs(Values(q.bindings, map[request := args]), args, q.params)
  {
    var i := 0;
    while i < |args|
      invariant i <= |args| && i <= q.params && q.Valid()
      invariant forall j: nat :: j < i ==> !q.env.bindFails(q.clock, j)
      invariant forall j :: 0 <= j < q.params ==>
                  q.bindings[j] == if j < i then BindingOf(args[j], request, j) else Value(SqlNull)
    {
      ok := BindArgument(q, i, args[i], request);
      if !ok {
        return;
      }
      i := i + 1;
    }
    ok := true;
  }

  // ----- one request against a table of databases -----

  /** The object through which the threads of one database wait for each other. */
  class DbSync {
    ghost const name: string  // the database it was made for

    constructor (ghost name: string)
      ensures this.name == name
    {
      this.name := name;
    }
  }

  datatype DbDef = DbDef(file: string, queries: map<string, Statement>, retries: nat, retryWait: nat, sync: DbSync)

  type Table = map<string, DbDef>

  datatype Request = Request(db: string, query: string, args: seq<ProtoValue>, retryIfLocked: bool)

  ghost function Statements(t: Table): set<Statement> {
    set d, n | d in t && n in t[d].queries :: t[d].queries[n]
  }

  lemma TimesLess(a: nat, b: nat, wait: nat)
    requires a <= b
    ensures a * wait <= b * wait
  {
  }

  ghost predicate Known(t: Table, r: Request) { r.db in t && r.query in t[r.db].queries }

  /** `Respond` for a request against the table's statement and settings. */
  ghost function AnswerAt(table: Table, request: Request, clock: nat): Response
    requires Known(table, request)
  {
    var db := table[request.db];
    var q := db.queries[request.query];
    Respond(q.env, q.params, clock, request.args, if request.retryIfLocked then db.retries else 0)
  }

  /** The response is the right one for a known request: a failure if it cannot be bound; otherwise
      what the database said, after as many retries as it took if the request allows any, and at
      once if not. */
  ghost predicate Right(table: Table, request: Request, clock: nat, response: Response)
    requires Known(table, request)
  {
    var db := table[request.db];
    var q := db.queries[request.query];
    if !Binds(q.env, q.params, clock, request.args) then response == FAILED
    else
      exists vs ::
        && BoundAs(vs, request.args, q.params)
        && (!request.retryIfLocked ==> Reports(q.env, clock, vs, 0, response))
        && (request.retryIfLocked ==>
              forall m: nat :: EndsAt(q.env, clock, vs, db.retries, m) ==> Reports(q.env, clock, vs, m, response))
  }

  /** The time asked to wait is one configured wait for each retry it took. */
  ghost predicate WaitsRightly(table: Table, request: Request, clock: nat, waited: nat)
    requires Known(table, request)
  {
    var db := table[request.db];
    var q := db.queries[request.query];
    if request.retryIfLocked && Binds(q.env, q.params, clock, request.args) then
      exists vs ::
        && BoundAs(vs, request.args, q.params)
        && forall m: nat :: EndsAt(q.env, clock, vs, db.retries, m) ==> waited == m * db.retryWait
    else waited == 0
  }

  lemma AnswerIsRight(table: Table, request: Request, clock: nat, response: Response)
    requires Known(table, request) && response == AnswerAt(table, request, clock)
    ensures Right(table, request, clock, response)
  {
    var db := table[request.db];
    var q := db.queries[request.query];
    if Binds(q.env, q.params, clock, request.args) {
      var vs := Padded(request.args, q.params);
      PaddedBinds(request.args, q.params);
      hide Padded, Reports, BoundAs, Respond;
      if request.retryIfLocked {
        forall m: nat | EndsAt(q.env, clock, vs, db.retries, m) ensures Reports(q.env, clock, vs, m, response) {
          RespondReports(q.env, q.params, clock, request.args, db.retries, m);
        }
      } else {
        RespondReports(q.env, q.params, clock, request.args, 0, 0);
      }
    }
  }

  /** The waits of the attempts made are the right ones. */
  lemma WaitIsRight(table: Table, request: Request, clock: nat, waited: nat)
    requires Known(table, request)
    requires var db, q := table[request.db], table[request.db].queries[request.query];
             if Binds(q.env, q.params, clock, request.args) then
               var retries := if request.retryIfLocked then db.retries else 0;
               waited == (|Attempts(q.env, clock, Padded(request.args, q.params), retries)| - 1) * db.retryWait
             else waited == 0
    ensures WaitsRightly(table, request, clock, waited)
  {
    var db := table[request.db];
    var q := db.queries[request.query];
    if Binds(q.env, q.params, clock, request.args) {
      var vs := Padded(request.args, q.params);
      PaddedBinds(request.args, q.params);
      var n := |Attempts(q.env, clock, vs, if request.retryIfLocked then db.retries else 0)| - 1;
      assert waited == n * db.retryWait;
      AttemptsEnd(q.env, clock, vs, db.retries);
      hide Attempts, Padded, BoundAs, EndsAt, Binds;
      if request.retryIfLocked {
        forall m: nat | EndsAt(q.env, clock, vs, db.retries, m) ensures waited == m * db.retryWait {
          assert m == n;
        }
      } else {
        assert n == 0;
      }
    }
  }

  /** The part of `run_query` after the statement is found. */
  method RunStatement(q: Statement, retryWait: nat, retries: nat, args: seq<ProtoValue>, id: nat)
      returns (response: Response, waited: nat)
    requires q.Valid()
    modifies q
    ensures q.Valid() && (response.msg == MsgOk || response.msg == SqliteError)
    ensures response == Respond(q.env, q.params, old(q.clock) + 1, args, retries)
    ensures waited <= retries * retryWait
    ensures waited == if Binds(q.env, q.params, old(q.clock) + 1, args)
                      then (|Attempts(q.env, old(q.clock) + 1, Padded(args, q.params), retries)| - 1) * retryWait
                      else 0
    ensures q.log == old(q.log) ||
            (|args| <= q.params && q.log == old(q.log) + {StepRecord(id, Padded(args, q.params))})
  {
    waited := 0;
    var ok := q.Start(false);
    if ok {
      ok := BindAll(q, args, id);
    }
    if !ok {
      return FAILED, 0;
    }
    var rows;
    ghost var attempts := Attempts(q.env, q.clock, Padded(args, q.params), retries);
    ok, rows, waited := ExecuteQuery(q, retryWait, retries, map[id := args], id);
    TimesLess(|attempts| - 1, retries, retryWait);
    response := if ok then Response(true, MsgOk, rows) else FAILED;
  }

  /** `run_query`. A known query is answered by `AnswerAt`, which looks neither at bindings left
      by earlier requests nor at any other statement; the only thing stepped is that statement,
      with exactly this request's arguments. */
  method RunQuery(table: Table, request: Request, id: nat) returns (response: Response, waited: nat)
    requires forall st :: st in Statements(table) ==> st.Valid()
    modifies Statements(table)
    ensures forall st :: st in Statements(table) ==> st.Valid()
    ensures !Known(table, request) ==>
              && response.msg == (if request.db in table then UnknownQuery else UnknownDatabase)
              && !response.ok && response.rows == [] && waited == 0
              && forall st :: st in Statements(table) ==> unchanged(st)
    ensures Known(table, request) ==>
              var db, q := table[request.db], table[request.db].queries[request.query];
              var retries := if request.retryIfLocked then db.retries else 0;
              && response == AnswerAt(table, request, old(q.clock) + 1)
              && (response.msg == MsgOk || response.msg == SqliteError)
              && Right(table, request, old(q.clock) + 1, response)
              && WaitsRightly(table, request, old(q.clock) + 1, waited)
              && waited <= retries * db.retryWait
              && (forall st :: st in Statements(table) && st != q ==> unchanged(st))
              && (q.log == old(q.log) ||
                  exists vs :: BoundAs(vs, request.args, q.params) && q.log == old(q.log) + {StepRecord(id, vs)})
  {
    waited := 0;
    if request.db !in table {
      return Response(false, UnknownDatabase, []), 0;
    }
    var db := table[request.db];
    if request.query !in db.queries {
      return Response(false, UnknownQuery, []), 0;
    }
    var q := db.queries[request.query];
    assert q in Statements(table);
    hide Respond, Attempts, Padded, Right, WaitsRightly, Binds, BoundAs;
    response, waited := RunStatement(q, db.retryWait, if request.retryIfLocked then db.retries else 0, request.args, id);
    AnswerIsRight(table, request, old(q.clock) + 1, response);
    WaitIsRight(table, request, old(q.clock) + 1, waited);
    if |request.args| <= q.params {
      PaddedBinds(request.args, q.params);
    }
  }

  /** The step was made on the statement its request names, with that request's arguments bound
      and null for every parameter the request leaves out. */
  ghost predicate OwnArguments(table: Table, requests: seq<Request>, st: Statement, rec: StepRecord) {
    && rec.request < |requests|
    && var request := requests[rec.request];
       && Known(table, request)
       && table[request.db].queries[request.query] == st
       && BoundAs(rec.values, request.args, st.params)
  }

  /** Any sequence of requests served by one thread, one after the other. Each is answered as if
      it were the first one its statement ever saw (`clocks` only tells the database's moment),
      and every `sqlite3_step` of the whole run was made with its own request's arguments. */
  method ServeAll(table: Table, requests: seq<Request>) returns (responses: seq<Response>, ghost clocks: seq<nat>)
    requires forall st :: st in Statements(table) ==> st.Valid() && st.log == {}
    modifies Statements(table)
    ensures |responses| == |requests| == |clocks|
    ensures forall k :: 0 <= k < |requests| && Known(table, requests[k]) ==>
              responses[k] == AnswerAt(table, requests[k], clocks[k]) && Right(table, requests[k], clocks[k], responses[k])
    ensures forall st, rec :: st in Statements(table) && rec in st.log ==> OwnArguments(table, requests, st, rec)
  {
    hide AnswerAt, Right, OwnArguments, Known, Statements;
    responses, clocks := [], [];
    while |responses| < |requests|
      invariant |responses| == |clocks| <= |requests|
      invariant forall st :: st in Statements(table) ==> st.Valid()
      invariant forall k :: 0 <= k < |responses| && Known(table, requests[k]) ==>
                  responses[k] == AnswerAt(table, requests[k], clocks[k]) && Right(table, requests[k], clocks[k], responses[k])
      invariant forall st, rec :: st in Statements(table) && rec in st.log ==> OwnArguments(table, requests, st, rec)
    {
      var response, clock := ServeNext(table, requests, |responses|);
      responses, clocks := responses + [response], clocks + [clock];
    }
  }

  /** One turn of the thread: the steps it adds are the request's own. */
  method ServeNext(table: Table, requests: seq<Request>, k: nat) returns (response: Response, ghost clock: nat)
    requires k < |requests|
    requires forall st :: st in Statements(table) ==> st.Valid()
    modifies Statements(table)
    ensures forall st :: st in Statements(table) ==> st.Valid()
    ensures Known(table, requests[k]) ==>
              response == AnswerAt(table, requests[k], clock) && Right(table, requests[k], clock, response)
    ensures forall st, rec :: st in Statements(table) && rec in st.log ==>
              rec in old(st.log) || OwnArguments(table, requests, st, rec)
  {
    hide AnswerAt, Padded, Right, WaitsRightly, BoundAs;
    var request := requests[k];
    clock := if Known(table, request) then table[request.db].queries[request.query].clock + 1 else 0;
    var waited;
    response, waited := RunQuery(table, request, k);
  }

  // ----- what the answers are -----

  lemma {:induction false} AllRowsEmpty(r: seq<Attempt>)
    ensures AllRows(r) == [] <==> forall a :: a in r ==> a.rows == []
  {
    if r != [] {
      AllRowsEmpty(r[1..]);
      assert |AllRows(r)| == |r[0].rows| + |AllRows(r[1..])|;
      assert r == [r[0]] + r[1..];
    }
  }

  /** No attempt but the last returned a row. */
  ghost predicate NoEarlierRows(r: seq<Attempt>)
    requires |r| > 0
  {
    forall a :: a in r[..|r| - 1] ==> a.rows == []
  }

  lemma OnlyLastRows(earlier: seq<Attempt>, last: Attempt)
    ensures AllRows(earlier + [last]) == last.rows <==> AllRows(earlier) == []
  {
    RowsThen(earlier, last);
    hide AllRows;
    var e := AllRows(earlier);
    assert |e + last.rows| == |e| + |last.rows|;
    assert e == [] ==> e + last.rows == last.rows;
  }

  /** Restarting does not clear rows already added. A response holds the rows of all attempts in
      order, and that is the final attempt's result exactly when no earlier attempt was locked
      after it had returned a row. */
  lemma RowsAreFinalAttempts(r: seq<Attempt>)
    requires |r| > 0
    ensures AllRows(r) == Last(r).rows <==> NoEarlierRows(r)
  {
    hide AllRows;
    assert r == r[..|r| - 1] + [Last(r)];
    OnlyLastRows(r[..|r| - 1], Last(r));
    AllRowsEmpty(r[..|r| - 1]);
  }

  /** For every request, whatever the database does: an answer that is not ok carries no rows; an
      ok answer carries the rows of all attempts; and a sound one is the final attempt's. */
  lemma ResponseRows(env: Env, params: nat, clock: nat, args: seq<ProtoValue>, retries: nat)
    ensures var p := Respond(env, params, clock, args, retries);
            && (!p.ok ==> p.rows == [])
            && (p.ok <==> Binds(env, params, clock, args) &&
                          EndsDone(Last(Attempts(env, clock, Padded(args, params), retries))))
    ensures var p := Respond(env, params, clock, args, retries);
            p.ok ==>
              var r := Attempts(env, clock, Padded(args, params), retries);
              && p.rows == ProtoRows(AllRows(r))
              && (p.rows == ProtoRows(Last(r).rows) <==> NoEarlierRows(r))
  {
    if Binds(env, params, clock, args) {
      var r := Attempts(env, clock, Padded(args, params), retries);
      RowsAreFinalAttempts(r);
      if ProtoRows(AllRows(r)) == ProtoRows(Last(r).rows) {
        ProtoRowsInjective(AllRows(r), Last(r).rows);
      }
    }
  }

  /** Copying rows into a response loses nothing. */
  lemma ProtoRowsInjective(a: seq<Row>, b: seq<Row>)
    requires ProtoRows(a) == ProtoRows(b)
    ensures a == b
  {
    assert |ProtoRows(a)| == |a| && |ProtoRows(b)| == |b|;
    forall i | 0 <= i < |a| ensures a[i] == b[i] {
      assert ProtoRows(a)[i] == ProtoRowOf(a[i]) && ProtoRows(b)[i] == ProtoRowOf(b[i]);
      assert |ProtoRowOf(a[i])| == |a[i]| && |ProtoRowOf(b[i])| == |b[i]|;
      forall c | 0 <= c < |a[i]| ensures a[i][c] == b[i][c] {
        assert ProtoRowOf(a[i])[c] == ToProto(a[i][c]) && ProtoRowOf(b[i])[c] == ToProto(b[i][c]);
      }
    }
  }

  /** Whatever the request and however many retries it is allowed, some database makes the
      answer repeat a row: it is locked once after the row and then runs through. */
  lemma RetryCanDuplicateRows(params: nat, clock: nat, args: seq<ProtoValue>, retries: nat) returns (env: Env, one: Row)
    requires |args| <= params && retries > 0
    ensures Respond(env, params, clock, args, retries) == Response(true, MsgOk, ProtoRows([one, one]))
    ensures Last(Attempts(env, clock, Padded(args, params), retries)).rows == [one]
  {
    one := [SqlInt(1)];
    var locked: Attempt := Attempt([one], SQLITE_BUSY);
    var done: Attempt := Attempt([one], SQLITE_DONE);
    env := Env((c: nat, vs: seq<SqlValue>) => if c == clock then locked else done, c => false, (c, i) => false);
    var vs := Padded(args, params);
    assert Attempts(env, clock + 1, vs, retries - 1) == [done];
    var r := Attempts(env, clock, vs, retries);
    assert r == [locked] + [done];
    RowsThen([locked], done);
    RowsThen([], locked);
    assert [] + [locked] == [locked] && AllRows([]) == [];
    assert AllRows(r) == [one] + [one];
  }

  /** An ok answer holds the final attempt's rows and nothing else. */
  ghost predicate AnswersCleanly(env: Env, params: nat, clock: nat, args: seq<ProtoValue>, retries: nat)
    requires |args| <= params
  {
    var p := Respond(env, params, clock, args, retries);
    p.ok ==> p.rows == ProtoRows(Last(Attempts(env, clock, Padded(args, params), retries)).rows)
  }

  /** What a caller can rely on before the call: an answer is sure to be the final attempt's rows,
      whatever the database does, exactly when no retry is allowed. */
  lemma CleanWithoutRetries(params: nat, clock: nat, args: seq<ProtoValue>, retries: nat)
    requires |args| <= params
    ensures (forall env :: AnswersCleanly(env, params, clock, args, retries)) <==> retries == 0
  {
    if retries == 0 {
      forall env ensures AnswersCleanly(env, params, clock, args, retries) {
        var r := Attempts(env, clock, Padded(args, params), 0);
        assert r == [] + [Last(r)];
        RowsThen([], Last(r));
      }
    } else {
      var env, one := RetryCanDuplicateRows(params, clock, args, retries);
      assert |ProtoRows([one, one])| == 2 && |ProtoRows([one])| == 1;
      assert !AnswersCleanly(env, params, clock, args, retries);
    }
  }
}
