/** A prepared statement as the wrapper `sqlite::query` drives it: bindings, a cursor, and an
    adversarial database behind `sqlite3_step`. */
module Sqlite {

  /** A value as SQLite holds it. */
  datatype SqlValue = SqlNull | SqlInt(i: int) | SqlDouble(d: real) | SqlText(s: string) | SqlBlob(s: string)

  /** A value as a request or a response carries it; the union may be left unset. */
  datatype ProtoValue = NotSet | PNull | PInt(i: int) | PDouble(d: real) | PText(s: string) | PBlob(s: string)

  function ToSql(v: ProtoValue): SqlValue {
    match v
    case NotSet => SqlNull
    case PNull => SqlNull
    case PInt(i) => SqlInt(i)
    case PDouble(d) => SqlDouble(d)
    case PText(s) => SqlText(s)
    case PBlob(s) => SqlBlob(s)
  }

  /** A column copied into a response. Sent back as an argument it binds the same value. */
  function ToProto(v: SqlValue): (p: ProtoValue)
    ensures ToSql(p) == v && !p.NotSet?
  {
    match v
    case SqlNull => PNull
    case SqlInt(i) => PInt(i)
    case SqlDouble(d) => PDouble(d)
    case SqlText(s) => PText(s)
    case SqlBlob(s) => PBlob(s)
  }

  /** The same kind with the same content; an unset value counts as null. */
  predicate SameValue(p: ProtoValue, v: SqlValue) {
    match v
    case SqlNull => p.PNull? || p.NotSet?
    case SqlInt(i) => p == PInt(i)
    case SqlDouble(d) => p == PDouble(d)
    case SqlText(s) => p == PText(s)
    case SqlBlob(s) => p == PBlob(s)
  }

  /** A bound parameter. Text and blobs are bound with `SQLITE_STATIC`: the statement keeps only
      a pointer into the request's argument. */
  datatype Binding = Value(v: SqlValue) | Pointer(request: nat, arg: nat)

  /** The arguments of the requests that are still alive, by request. */
  type Memory = map<nat, seq<ProtoValue>>

  predicate LiveBinding(b: Binding, m: Memory) {
    b.Pointer? ==> b.request in m && b.arg < |m[b.request]|
  }

  /** No parameter points into a request that is gone. */
  predicate Live(bs: seq<Binding>, m: Memory) {
    forall i :: 0 <= i < |bs| ==> LiveBinding(bs[i], m)
  }

  function Load(b: Binding, m: Memory): SqlValue
    requires LiveBinding(b, m)
  {
    match b
    case Value(v) => v
    case Pointer(r, i) => ToSql(m[r][i])
  }

  function Values(bs: seq<Binding>, m: Memory): seq<SqlValue>
    requires Live(bs, m)
  {
    seq(|bs|, i requires 0 <= i < |bs| => Load(bs[i], m))
  }

  const SQLITE_BUSY: nat := 5
  const SQLITE_LOCKED: nat := 6
  const SQLITE_ROW: nat := 100
  const SQLITE_DONE: nat := 101

  type Row = seq<SqlValue>

  /** What the database does between two resets: some rows, then a result code that is not
      "another row". Codes are extended codes; the low byte is the primary code. */
  datatype RawAttempt = Attempt(rows: seq<Row>, code: nat)
  type Attempt = a: RawAttempt | a.code % 256 != SQLITE_ROW witness Attempt([], SQLITE_DONE)

  predicate EndsLocked(a: Attempt) { a.code % 256 == SQLITE_BUSY || a.code % 256 == SQLITE_LOCKED }

  predicate EndsDone(a: Attempt) { a.code % 256 == SQLITE_DONE }

  /** The adversary. `step` is given the number of the attempt and the bound values, so it can
      be any database with any concurrent activity, but it sees nothing else of the past. */
  datatype Env = Env(
    step: (nat, seq<SqlValue>) -> Attempt,
    clearFails: nat -> bool,
    bindFails: (nat, nat) -> bool)

  datatype Status = StatusRow | StatusDone | StatusLocked | Thrown

  /** A call of `sqlite3_step`: for which request, and with which values bound. */
  datatype StepRecord = StepRecord(request: nat, values: seq<SqlValue>)

  class Statement {
    ghost const owner: (nat, string, string)  // the thread, database and query it was made for
    const sql: string
    const env: Env
    const params: nat
    var bindings: seq<Binding>
    var clock: nat        // resets so far: the number of the current attempt
    var active: bool      // stepped since the last reset
    var current: Attempt  // what the current attempt returns, once active
    var row: nat          // rows returned by the current attempt
    ghost var log: set<StepRecord>  // all calls of sqlite3_step so far

    ghost predicate Valid()
      reads this
    {
      |bindings| == params && row <= |current.rows| && (!active ==> row == 0)
    }

    constructor (ghost owner: (nat, string, string), sql: string, env: Env, params: nat)
      ensures Valid() && !active && log == {}
      ensures this.owner == owner && this.sql == sql && this.env == env && this.params == params
    {
      this.owner, this.sql, this.env, this.params := owner, sql, env, params;
      bindings := seq(params, i => Value(SqlNull));
      clock, active, current, row, log := 0, false, Attempt([], SQLITE_DONE), 0, {};
    }

    /** `start`: reset, and unless restarting forget all bindings; `ok` is false if it throws. */
    method Start(restart: bool) returns (ok: bool)
      requires Valid()
      modifies this`bindings, this`clock, this`active, this`row
      ensures Valid() && !active && clock == old(clock) + 1
      ensures ok <==> restart || !env.clearFails(clock)
      ensures bindings == if restart || !ok then old(bindings) else seq(params, i => Value(SqlNull))
    {
      clock, active, row := clock + 1, false, 0;
      ok := true;
      if !restart {
        if env.clearFails(clock) {
          ok := false;
        } else {
          bindings := seq(params, i => Value(SqlNull));
        }
      }
    }

    /** `sqlite3_bind_*`: refused while a statement is active, out of range, or on any failure of
        the environment. */
    method Bind(i: nat, b: Binding) returns (ok: bool)
      requires Valid()
      modifies this`bindings
      ensures Valid()
      ensures ok <==> i < params && !active && !env.bindFails(clock, i)
      ensures bindings == if ok then old(bindings)[i := b] else old(bindings)
    {
      ok := i < params && !active && !env.bindFails(clock, i);
      if ok {
        bindings := bindings[i := b];
      }
    }

    /** `next_row`. Its precondition is what SQLite demands of static bindings: everything they
        point to is still there. */
    method NextRow(retries: nat, memory: Memory, ghost request: nat) returns (status: Status)
      requires Valid() && Live(bindings, memory)
      requires active ==> current == env.step(clock, Values(bindings, memory))
      modifies this`active, this`current, this`row, this`log
      ensures Valid() && active && current == env.step(clock, Values(bindings, memory))
      ensures log == old(log) + {StepRecord(request, Values(bindings, memory))}
      ensures status.StatusRow? <==> old(row) < |current.rows|
      ensures row == if status.StatusRow? then old(row) + 1 else old(row)
      ensures !status.StatusRow? ==>
                status == if EndsDone(current) then StatusDone
                          else if EndsLocked(current) && retries > 0 then StatusLocked else Thrown
    {
      if !active {
        current, active := env.step(clock, Values(bindings, memory)), true;
      }
      log := log + {StepRecord(request, Values(bindings, memory))};
      var code := if row < |current.rows| then SQLITE_ROW else current.code;
      var primary := code % 256;
      if primary == SQLITE_DONE {
        status := StatusDone;
      } else if primary == SQLITE_ROW {
        row := row + 1;
        status := StatusRow;
      } else if (primary == SQLITE_BUSY || primary == SQLITE_LOCKED) && retries > 0 {
        status := StatusLocked;
      } else {
        status := Thrown;
      }
    }

    function ColumnCount(): nat
      requires active && 0 < row <= |current.rows|
      reads this
    {
      |current.rows[row - 1]|
    }

    function GetColumn(i: nat): SqlValue
      requires active && 0 < row <= |current.rows| && i < ColumnCount()
      reads this
    {
      current.rows[row - 1][i]
    }
  }
}
