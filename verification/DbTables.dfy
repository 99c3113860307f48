/** The per-thread tables of database connections and prepared queries, and the thread pool
    whose thread numbers select them. */
module DbTables {
  import opened Common
  import opened Sqlite
  import opened QueryEngine

  /** `thread_pool`: for every slot the thread-local index its thread was given, if started. */
  class ThreadPool {
    var threads: seq<Option<nat>>

    constructor (n: nat)
      requires n >= 1
      ensures threads == seq(n, i => None)
    {
      threads := seq(n, i => None);
    }

    ghost predicate Started()
      reads this
    {
      forall t :: 0 <= t < |threads| ==> threads[t] == Some(t)
    }

    /** `run`: starts a thread in every slot; thread `t` sees index `t`. */
    method Run()
      requires |threads| > 0 && threads[0].None?
      modifies this
      ensures |threads| == old(|threads|) && Started()
    {
      var t := 0;
      while t < |threads|
        invariant t <= |threads| == old(|threads|)
        invariant forall u :: 0 <= u < t ==> threads[u] == Some(u)
      {
        threads := threads[t := Some(t)];
        t := t + 1;
      }
    }
  }

  /** A database's file, the SQL text of its queries by name, and its retries. */
  datatype DbConfig = DbConfig(file: string, queries: map<string, string>, retries: nat, retryWait: Option<nat>)

  type Config = map<string, DbConfig>

  /** The files and SQLite behind the configuration: which files open, which texts then prepare,
      and the statement each thread then gets. */
  datatype World = World(
    opens: (nat, string) -> bool,
    prepares: (nat, string, string) -> bool,
    env: (nat, string, string) -> Env,
    params: (nat, string, string) -> nat)

  /** `max_retry_wait` in nanoseconds. */
  const MINUTE: nat := 60_000_000_000

  function CappedWait(t: Option<nat>): (wait: nat)
    ensures t.None? ==> wait == 0
    ensures t.Some? ==> wait <= t.value && wait <= MINUTE && (wait == t.value || wait == MINUTE)
  {
    if t.None? then 0 else if t.value < MINUTE then t.value else MINUTE
  }

  /** The statement is `sql` prepared on `file` for thread `t`. */
  ghost predicate Prepared(w: World, st: Statement, t: nat, file: string, sql: string) {
    st.sql == sql && st.env == w.env(t, file, sql) && st.params == w.params(t, file, sql)
  }

  /** The entry `def` serves database `d` as configured, for thread `t`. */
  ghost predicate Serves(w: World, def: DbDef, d: string, cfg: DbConfig, t: nat) {
    && def.queries.Keys == cfg.queries.Keys
    && (forall n :: n in def.queries ==>
          def.queries[n].owner == (t, d, n) && Prepared(w, def.queries[n], t, cfg.file, cfg.queries[n]))
    && def.file == cfg.file && def.retries == cfg.retries && def.retryWait == CappedWait(cfg.retryWait)
    && def.sync.name == d
  }

  /** SQLite opens the database's file for thread `t` and prepares all its queries. */
  ghost predicate Opens(w: World, cfg: DbConfig, t: nat) {
    w.opens(t, cfg.file) && forall n :: n in cfg.queries ==> w.prepares(t, cfg.file, cfg.queries[n])
  }

  ghost predicate OpensAll(w: World, cfg: Config, t: nat) {
    forall d :: d in cfg ==> Opens(w, cfg[d], t)
  }

  ghost predicate TableFor(w: World, table: Table, cfg: Config, t: nat) {
    table.Keys == cfg.Keys && forall d :: d in table ==> Serves(w, table[d], d, cfg[d], t)
  }

  ghost predicate SharesSync(a: Table, b: Table) {
    forall d :: d in a && d in b ==> a[d].sync == b[d].sync
  }

  /** What a successful `run` builds. */
  ghost predicate Complete(w: World, databases: seq<Table>, cfg: Config, threads: nat) {
    && |databases| == threads
    && (forall t :: 0 <= t < threads ==> TableFor(w, databases[t], cfg, t))
    && (forall t :: 0 <= t < threads ==> SharesSync(databases[0], databases[t]))
  }

  ghost predicate AllValid(table: Table)
    reads Statements(table)
  {
    forall st :: st in Statements(table) ==> st.Valid()
  }

  lemma WaitBound(cfg: DbConfig, retries: nat, waited: nat)
    requires retries <= cfg.retries && waited <= retries * CappedWait(cfg.retryWait)
    ensures waited <= cfg.retries * CappedWait(cfg.retryWait) <= cfg.retries * MINUTE
  {
    TimesLess(retries, cfg.retries, CappedWait(cfg.retryWait));
  }

  class DbServer {
    const cfg: Option<Config>
    const workers: ThreadPool
    const world: World
    var databases: seq<Table>

    constructor (cfg: Option<Config>, workers: ThreadPool, world: World)
      ensures databases == [] && this.cfg == cfg && this.workers == workers && this.world == world
    {
      this.cfg, this.workers, this.world := cfg, workers, world;
      databases := [];
    }

    function Configured(): Config { if cfg.Some? then cfg.value else map[] }

    /** Opens one database for thread `t` and prepares all its queries, in whatever order the
        configuration lists them; `ok` is false when SQLite throws. */
    method OpenDatabase(t: nat, d: string) returns (ok: bool, def: DbDef)
      requires d in Configured() && t < |databases|
      requires t > 0 ==> d in databases[0] && databases[0][d].sync.name == d
      ensures ok <==> Opens(world, Configured()[d], t)
      ensures ok ==> Serves(world, def, d, Configured()[d], t)
      ensures ok && t > 0 ==> def.sync == databases[0][d].sync
      ensures ok ==> forall n :: n in def.queries ==>
                fresh(def.queries[n]) && def.queries[n].Valid() && def.queries[n].log == {}
    {
      var dCfg := Configured()[d];
      var sync := new DbSync(d);
      if t > 0 {
        sync := databases[0][d].sync;
      }
      def := DbDef(dCfg.file, map[], dCfg.retries, CappedWait(dCfg.retryWait), sync);
      ok := world.opens(t, dCfg.file);
      var names := dCfg.queries.Keys;
      while ok && names != {}
        invariant names <= dCfg.queries.Keys
        invariant ok ==> def.queries.Keys == dCfg.queries.Keys - names
        invariant ok ==> world.opens(t, dCfg.file)
        invariant ok ==> forall n :: n in dCfg.queries && n !in names ==> world.prepares(t, dCfg.file, dCfg.queries[n])
        invariant !ok ==> !Opens(world, dCfg, t)
        invariant def.file == dCfg.file && def.sync == sync
        invariant def.retries == dCfg.retries && def.retryWait == CappedWait(dCfg.retryWait)
        invariant def.queries.Keys <= dCfg.queries.Keys
        invariant forall n :: n in def.queries ==>
                    def.queries[n].owner == (t, d, n) && Prepared(world, def.queries[n], t, dCfg.file, dCfg.queries[n])
        invariant forall n :: n in def.queries ==>
                    fresh(def.queries[n]) && def.queries[n].Valid() && def.queries[n].log == {}
        decreases names
      {
        var n :| n in names;
        names := names - {n};
        var sql := dCfg.queries[n];
        ok := world.prepares(t, dCfg.file, sql);
        if ok {
          var st := new Statement((t, d, n), sql, world.env(t, dCfg.file, sql), world.params(t, dCfg.file, sql));
          def := def.(queries := def.queries[n := st]);
        }
      }
    }

    /** Fills the table of thread `t`. */
    method OpenTable(t: nat) returns (ok: bool, table: Table)
      requires t < |databases|
      requires t > 0 ==> TableFor(world, databases[0], Configured(), 0)
      ensures ok <==> OpensAll(world, Configured(), t)
      ensures ok ==> TableFor(world, table, Configured(), t)
      ensures ok && t > 0 ==> SharesSync(databases[0], table)
      ensures ok ==> AllValid(table) && forall st :: st in Statements(table) ==> fresh(st) && st.log == {}
    {
      ok, table := true, map[];
      var names := Configured().Keys;
      while ok && names != {}
        invariant names <= Configured().Keys
        invariant ok ==> table.Keys == Configured().Keys - names
        invariant ok ==> forall d :: d in Configured() && d !in names ==> Opens(world, Configured()[d], t)
        invariant !ok ==> !OpensAll(world, Configured(), t)
        invariant forall d :: d in table ==> d in Configured() && Serves(world, table[d], d, Configured()[d], t)
        invariant t > 0 ==> SharesSync(databases[0], table)
        invariant forall d, n :: d in table && n in table[d].queries ==>
                    fresh(table[d].queries[n]) && table[d].queries[n].Valid() && table[d].queries[n].log == {}
        decreases names
      {
        var d :| d in names;
        names := names - {d};
        var def;
        ok, def := OpenDatabase(t, d);
        if ok {
          table := table[d := def];
        }
      }
    }

    /** `run`: one table per thread of the pool; it fails exactly if SQLite refuses something. */
    method Run() returns (ok: bool)
      requires databases == []
      modifies this`databases
      ensures ok <==> forall t: nat :: t < |workers.threads| ==> OpensAll(world, Configured(), t)
      ensures ok ==> Complete(world, databases, Configured(), |workers.threads|)
      ensures ok ==> forall t :: 0 <= t < |databases| ==> OwnSteps(databases[t], [], t)
    {
      assert Complete(world, databases, Configured(), 0);
      hide Complete, OpensAll, OwnSteps;
      ok := true;
      var t := 0;
      while t < |workers.threads|
        invariant t == |databases| <= |workers.threads|
        invariant Complete(world, databases, Configured(), t)
        invariant ok && forall u: nat :: u < t ==> OpensAll(world, Configured(), u)
        invariant forall u :: 0 <= u < t ==> OwnSteps(databases[u], [], u)
      {
        ok := OpenNext(t);
        if !ok {
          return;
        }
        t := t + 1;
      }
    }

    /** One turn of the loop: the table of thread `t`. */
    method OpenNext(t: nat) returns (ok: bool)
      requires t == |databases| && Complete(world, databases, Configured(), t)
      requires forall u :: 0 <= u < t ==> OwnSteps(databases[u], [], u)
      modifies this`databases
      ensures ok <==> OpensAll(world, Configured(), t)
      ensures ok ==> |databases| == t + 1 && Complete(world, databases, Configured(), t + 1)
      ensures ok ==> forall u :: 0 <= u <= t ==> OwnSteps(databases[u], [], u)
    {
      hide TableFor, SharesSync, OpensAll;
      databases := databases + [map[]];
      var table;
      ok, table := OpenTable(t);
      if ok {
        databases := databases[t := table];
        SharesSelf(databases[0]);
      }
    }

    method RunOnTable(table: Table, request: Request, id: nat)
        returns (response: Response, waited: nat, ghost retries: nat, ghost clock: nat)
      requires AllValid(table)
      modifies Statements(table)
      ensures AllValid(table)
      ensures forall st, rec :: st in Statements(table) && rec in st.log ==> rec in old(st.log) || rec.request == id
      ensures Known(table, request) ==>
                && response == AnswerAt(table, request, clock) && Right(table, request, clock, response)
                && WaitsRightly(table, request, clock, waited)
      ensures response.msg.UnknownDatabase? <==> request.db !in table
      ensures response.msg.UnknownQuery? <==> request.db in table && request.query !in table[request.db].queries
      ensures request.db !in table ==> waited == 0
      ensures request.db in table ==> retries <= table[request.db].retries
      ensures request.db in table ==> waited <= retries * table[request.db].retryWait
    {
      hide Statements, AnswerAt, Right, WaitsRightly, BoundAs;
      clock := if Known(table, request) then table[request.db].queries[request.query].clock + 1 else 0;
      retries := if request.db in table && request.retryIfLocked then table[request.db].retries else 0;
      response, waited := RunQuery(table, request, id);
    }

    /** A request run by the `i`-th thread of the pool. The thread's index always selects a
        table, only that table's statements are touched, and all the time it asks to wait is at
        most the configured wait for each configured retry, so at most a minute for each. */
    method RunOnThread(i: nat, request: Request, id: nat)
        returns (response: Response, waited: nat, ghost clock: nat)
      requires Complete(world, databases, Configured(), |workers.threads|) && workers.Started()
      requires i < |workers.threads| && AllValid(databases[i])
      modifies Statements(databases[i])
      ensures AllValid(databases[i])
      ensures forall st, rec :: st in Statements(databases[i]) && rec in st.log ==> rec in old(st.log) || rec.request == id
      ensures Known(databases[i], request) ==>
                && response == AnswerAt(databases[i], request, clock) && Right(databases[i], request, clock, response)
                && WaitsRightly(databases[i], request, clock, waited)
      ensures response.msg.UnknownDatabase? <==> request.db !in Configured()
      ensures response.msg.UnknownQuery? <==>
                request.db in Configured() && request.query !in Configured()[request.db].queries
      ensures request.db !in Configured() ==> waited == 0
      ensures request.db in Configured() ==>
                var cfg := Configured()[request.db];
                waited <= cfg.retries * CappedWait(cfg.retryWait) <= cfg.retries * MINUTE
    {
      var tid := workers.threads[i].value;
      EntryFor(world, databases, Configured(), |workers.threads|, tid, request.db);
      hide Complete, Statements, AnswerAt, Right, WaitsRightly;
      ghost var retries;
      response, waited, retries, clock := RunOnTable(databases[tid], request, id);
      if request.db in Configured() {
        WaitBound(Configured()[request.db], retries, waited);
      }
    }

    /** Whole jobs on any threads, in any order: no statement is ever stepped by two threads. */
    method RunJobs(jobs: seq<(nat, Request)>)
      requires Complete(world, databases, Configured(), |workers.threads|) && workers.Started()
      requires forall t :: 0 <= t < |databases| ==> OwnSteps(databases[t], [], t)
      requires forall k :: 0 <= k < |jobs| ==> jobs[k].0 < |workers.threads|
      modifies set t, st | 0 <= t < |databases| && st in Statements(databases[t]) :: st
      ensures forall t :: 0 <= t < |databases| ==> OwnSteps(databases[t], jobs, t)
    {
      var k := 0;
      while k < |jobs|
        invariant k <= |jobs|
        invariant forall t :: 0 <= t < |databases| ==> OwnSteps(databases[t], jobs, t)
      {
        RunJob(jobs, k);
        k := k + 1;
      }
    }

    method RunJob(jobs: seq<(nat, Request)>, k: nat)
      requires Complete(world, databases, Configured(), |workers.threads|) && workers.Started()
      requires forall t :: 0 <= t < |databases| ==> OwnSteps(databases[t], jobs, t)
      requires k < |jobs| && jobs[k].0 < |workers.threads|
      modifies Statements(databases[jobs[k].0])
      ensures forall t :: 0 <= t < |databases| ==> OwnSteps(databases[t], jobs, t)
    {
      var i := jobs[k].0;
      StatementsPrivateAll(world, databases, Configured(), |workers.threads|, i);
      assert AllValid(databases[i]);
      RunStep(jobs, k);
      hide Complete, Statements, OwnSteps;
      forall t | 0 <= t < |databases| ensures OwnSteps(databases[t], jobs, t) {
        assert t != i ==> Statements(databases[i]) !! Statements(databases[t]);
      }
    }

    /** The job's own table afterwards. */
    method RunStep(jobs: seq<(nat, Request)>, k: nat)
      requires Complete(world, databases, Configured(), |workers.threads|) && workers.Started()
      requires k < |jobs| && jobs[k].0 < |workers.threads|
      requires OwnSteps(databases[jobs[k].0], jobs, jobs[k].0)
      modifies Statements(databases[jobs[k].0])
      ensures OwnSteps(databases[jobs[k].0], jobs, jobs[k].0)
    {
      hide Complete, Statements, AnswerAt, Right, WaitsRightly;
      var response, waited, clock := RunOnThread(jobs[k].0, jobs[k].1, k);
    }

    /** The calls of several threads in any interleaving, each on a statement of its own thread's
        table, with arguments that stay alive in `memory`: SQLite's demand on static bindings is
        met at every step, each statement records exactly the steps made on it, and it is never
        stepped by two threads. */
    method Interleave(calls: seq<Call>, memory: Memory)
      requires Complete(world, databases, Configured(), |workers.threads|)
      requires forall k :: 0 <= k < |calls| ==> CanCall(calls[k])
      requires forall k :: 0 <= k < |calls| && calls[k].op.BindAt? ==> LiveBinding(calls[k].op.b, memory)
      requires forall st :: st in AllStatements() ==> OwnCalls(st, [], memory)
      modifies AllStatements()
      ensures forall st :: st in AllStatements() ==> OwnCalls(st, calls, memory)
      ensures forall st, k :: st in AllStatements() && 0 <= k < |calls| ==>
                (Recorded(st, k) <==> Target(calls[k]) == st && calls[k].op.StepOn?)
    {
      forall k | 0 <= k < |calls|
        ensures Target(calls[k]) in AllStatements() && Target(calls[k]).owner.0 == calls[k].thread
      {
        TargetOwned(calls[k]);
      }
      var targets := seq(|calls|, k requires 0 <= k < |calls| && CanCall(calls[k]) reads this => Target(calls[k]));
      DoCalls(AllStatements(), targets, calls, memory);
    }

    predicate CanCall(c: Call)
      reads this
    {
      c.thread < |databases| && c.db in databases[c.thread] && c.query in databases[c.thread][c.db].queries
    }

    function Target(c: Call): Statement
      requires CanCall(c)
      reads this
    {
      databases[c.thread][c.db].queries[c.query]
    }

    lemma TargetOwned(c: Call)
      requires Complete(world, databases, Configured(), |workers.threads|) && CanCall(c)
      ensures Target(c) in AllStatements() && Target(c).owner.0 == c.thread
    {
      assert TableFor(world, databases[c.thread], Configured(), c.thread);
      assert Target(c) in Statements(databases[c.thread]);
    }

    ghost function AllStatements(): set<Statement>
      reads this
    {
      set t, st | 0 <= t < |databases| && st in Statements(databases[t]) :: st
    }
  }

  /** The table's statements are in order, and every step they record was made by a job that ran
      on thread `t`. */
  ghost predicate OwnSteps(table: Table, jobs: seq<(nat, Request)>, t: nat)
    reads Statements(table)
  {
    && AllValid(table)
    && forall st, rec :: st in Statements(table) && rec in st.log ==> rec.request < |jobs| && jobs[rec.request].0 == t
  }

  /** One call a thread makes on a statement. */
  datatype Call = Call(thread: nat, db: string, query: string, op: Op)

  datatype Op = Begin(restart: bool) | BindAt(i: nat, b: Binding) | StepOn(retries: nat)

  /** The statement can be stepped, and has been stepped by its own thread only. */
  ghost predicate OwnCalls(st: Statement, calls: seq<Call>, memory: Memory)
    reads st
  {
    && st.Valid() && Live(st.bindings, memory)
    && (st.active ==> st.current == st.env.step(st.clock, Values(st.bindings, memory)))
    && forall rec :: rec in st.log ==> rec.request < |calls| && calls[rec.request].thread == st.owner.0
  }

  method DoCalls(ghost all: set<Statement>, targets: seq<Statement>, calls: seq<Call>, memory: Memory)
    requires |targets| == |calls|
    requires forall k :: 0 <= k < |calls| ==> targets[k] in all && targets[k].owner.0 == calls[k].thread
    requires forall k :: 0 <= k < |calls| && calls[k].op.BindAt? ==> LiveBinding(calls[k].op.b, memory)
    requires forall st :: st in all ==> OwnCalls(st, [], memory)
    modifies all
    ensures forall st :: st in all ==> OwnCalls(st, calls, memory)
    ensures forall st, j :: st in all && 0 <= j < |calls| ==>
              (Recorded(st, j) <==> targets[j] == st && calls[j].op.StepOn?)
  {
    var k := 0;
    while k < |calls|
      invariant k <= |calls|
      invariant forall st :: st in all ==> OwnCalls(st, calls, memory)
      invariant forall st, j :: st in all && 0 <= j < |calls| ==>
                  (Recorded(st, j) <==> j < k && targets[j] == st && calls[j].op.StepOn?)
    {
      DoCall(targets[k], calls, k, memory);
      k := k + 1;
    }
  }

  /** The statement was stepped by call `k`. */
  ghost predicate Recorded(st: Statement, k: nat)
    reads st
  {
    exists rec :: rec in st.log && rec.request == k
  }

  method DoCall(st: Statement, calls: seq<Call>, k: nat, memory: Memory)
    requires k < |calls| && calls[k].thread == st.owner.0 && OwnCalls(st, calls, memory)
    requires calls[k].op.BindAt? ==> LiveBinding(calls[k].op.b, memory)
    modifies st
    ensures OwnCalls(st, calls, memory)
    ensures forall j: nat :: Recorded(st, j) <==> old(Recorded(st, j)) || (j == k && calls[k].op.StepOn?)
  {
    match calls[k].op {
      case Begin(restart) => var ok := st.Start(restart);
      case BindAt(i, b) => var ok := st.Bind(i, b);
      case StepOn(retries) => var status := st.NextRow(retries, memory, k);
    }
  }

  /** What a thread's table knows about a database is what was configured. */
  lemma EntryFor(w: World, databases: seq<Table>, cfg: Config, threads: nat, t: nat, d: string)
    requires Complete(w, databases, cfg, threads) && t < threads
    ensures d in databases[t] <==> d in cfg
    ensures d in cfg ==>
              && databases[t][d].queries.Keys == cfg[d].queries.Keys
              && databases[t][d].retries == cfg[d].retries
              && databases[t][d].retryWait == CappedWait(cfg[d].retryWait)
  {
    assert TableFor(w, databases[t], cfg, t);
  }

  lemma SharesSelf(table: Table)
    ensures SharesSync(table, table)
  {
  }

  /** Two threads' entries share their synchronisation object exactly if they are for the same
      database. */
  lemma SyncByName(w: World, databases: seq<Table>, cfg: Config, threads: nat, t: nat, u: nat, d: string, e: string)
    requires Complete(w, databases, cfg, threads) && t < threads && u < threads
    requires d in cfg && e in cfg
    ensures d in databases[t] && e in databases[u]
    ensures databases[t][d].sync == databases[u][e].sync <==> d == e
  {
    assert TableFor(w, databases[t], cfg, t) && TableFor(w, databases[u], cfg, u) && TableFor(w, databases[0], cfg, 0);
    assert SharesSync(databases[0], databases[t]) && SharesSync(databases[0], databases[u]);
  }

  lemma StatementsPrivateAll(w: World, databases: seq<Table>, cfg: Config, threads: nat, t: nat)
    requires Complete(w, databases, cfg, threads) && t < threads
    ensures forall u :: 0 <= u < threads && u != t ==> Statements(databases[t]) !! Statements(databases[u])
  {
    forall u | 0 <= u < threads && u != t ensures Statements(databases[t]) !! Statements(databases[u]) {
      StatementsPrivate(w, databases, cfg, threads, t, u);
    }
  }

  /** No two table entries hold the same statement, so a statement is stepped by one thread only. */
  lemma StatementsPrivate(w: World, databases: seq<Table>, cfg: Config, threads: nat, t: nat, u: nat)
    requires Complete(w, databases, cfg, threads) && t < threads && u < threads && t != u
    ensures Statements(databases[t]) !! Statements(databases[u])
  {
    assert TableFor(w, databases[t], cfg, t) && TableFor(w, databases[u], cfg, u);
    forall st | st in Statements(databases[t]) ensures st.owner.0 == t {
    }
    forall st | st in Statements(databases[u]) ensures st.owner.0 == u {
    }
  }
}
