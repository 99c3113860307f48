/** Connection admission: the accept loop, the connection limit and the end of a connection.

    Every step below is one action that no other thread can split: an access to an atomic, a
    region bounded by taking or releasing the mutex, or a move of the accept loop between two
    suspension points. A run is any interleaving of such steps. */
module Admission {
  import opened Common

  /** The constructor's inputs. `maxConnections == 0` and `None` both mean "no limit". */
  datatype Config = Config(pools: nat, acceptPool: bool, maxConnections: nat)
  {
    ghost predicate Valid() { pools >= 1 }

    function Limit(): (limit: Option<nat>)
      ensures limit.Some? ==> limit.value >= 1
    {
      if maxConnections != 0 then Some(maxConnections) else None
    }

    /** The pools that connections are placed on; the last pool may be kept for the acceptor. */
    function UsedPools(): nat {
      if pools > 1 && acceptPool then pools - 1 else pools
    }
  }

  /** Where the accept loop stands. `Testing` and `Parking` run with the mutex held. */
  datatype Pc = Checking | Testing | Parking | Suspended | Accepting

  datatype Lock = Free | HeldByLoop | HeldByEnd

  datatype State = State(
    cfg: Config,
    pc: Pc,
    lock: Lock,
    active: int,              // active_connections
    session: nat,             // the next session number
    live: set<nat>,           // sessions accepted and not yet ended
    handler: bool,            // active_connections_hnd holds the parked loop
    posted: nat,              // wake-ups posted to the acceptor's executor, not yet run
    worker: nat,              // worker_i
    attempts: seq<nat>,       // accept iterations directed at each used pool
    placement: map<nat, nat>, // the pool of every session ever accepted
    parks: nat,
    posts: nat,
    resumes: nat)

  datatype Event =
    | LoopLock | LoopTest | LoopPark | LoopResume
    | AcceptError | AcceptOk
    | EndBegin(sid: nat)  // lock the mutex and decrement
    | EndTest             // test the limit, perhaps take and post the handler, unlock

  function Init(cfg: Config): State {
    State(cfg, Checking, Free, 0, 0, {}, false, 0, 0, seq(cfg.UsedPools(), i => 0), map[], 0, 0, 0)
  }

  predicate Enabled(s: State, e: Event) {
    match e
    case LoopLock => s.pc == Checking && s.lock == Free
    case LoopTest => s.pc == Testing
    case LoopPark => s.pc == Parking
    case LoopResume => s.pc == Suspended && s.posted > 0
    case AcceptError => s.pc == Accepting && s.worker < |s.attempts|
    case AcceptOk => s.pc == Accepting && s.worker < |s.attempts|
    case EndBegin(sid) => sid in s.live && s.lock == Free
    case EndTest => s.lock == HeldByEnd
  }

  predicate AtLimit(s: State) {
    s.cfg.Limit().Some? && s.active >= s.cfg.Limit().value
  }

  predicate WakesLoop(s: State) {
    s.cfg.Limit().Some? && s.active < s.cfg.Limit().value && s.handler
  }

  function NextWorker(s: State): State
    requires s.worker < |s.attempts|
  {
    s.(worker := (s.worker + 1) % |s.attempts|,
       attempts := s.attempts[s.worker := s.attempts[s.worker] + 1])
  }

  function Step(s: State, e: Event): State
    requires Enabled(s, e)
  {
    match e
    case LoopLock => s.(pc := Testing, lock := HeldByLoop)
    case LoopTest =>
      if AtLimit(s) then s.(pc := Parking) else s.(pc := Accepting, lock := Free)
    case LoopPark =>
      s.(pc := Suspended, handler := true, lock := Free, parks := s.parks + 1)
    case LoopResume =>
      s.(pc := Accepting, posted := s.posted - 1, resumes := s.resumes + 1)
    case AcceptError => NextWorker(s).(pc := Checking)
    case AcceptOk =>
      NextWorker(s).(pc := Checking,
                     active := s.active + 1,
                     session := s.session + 1,
                     live := s.live + {s.session},
                     placement := s.placement[s.session := s.worker])
    case EndBegin(sid) =>
      s.(lock := HeldByEnd, active := s.active - 1, live := s.live - {sid})
    case EndTest =>
      if WakesLoop(s) then
        s.(lock := Free, handler := false, posted := s.posted + 1, posts := s.posts + 1)
      else
        s.(lock := Free)
  }

  /** Every event can happen when its turn comes. */
  predicate Legal(s: State, es: seq<Event>)
    decreases es
  {
    es == [] || (Enabled(s, es[0]) && Legal(Step(s, es[0]), es[1..]))
  }

  function Exec(s: State, es: seq<Event>): State
    requires Legal(s, es)
    decreases es
  {
    if es == [] then s else Exec(Step(s, es[0]), es[1..])
  }

  ghost predicate Reachable(cfg: Config, s: State) {
    exists es :: Legal(Init(cfg), es) && Exec(Init(cfg), es) == s
  }

  // ----- the invariant -----

  /** The counter counts the live sessions. */
  ghost predicate Counting(s: State) {
    && s.active == |s.live|
    && (forall sid: nat :: sid in s.live ==> sid < s.session)
  }

  /** Every session ever accepted was placed on a used pool. */
  ghost predicate Placed(s: State) {
    && (forall sid: nat :: sid in s.placement <==> sid < s.session)
    && (forall sid: nat :: sid in s.placement ==> s.placement[sid] < s.cfg.UsedPools())
  }

  /** One wake token: it lies in the handler slot or in the executor's queue, never both. */
  ghost predicate OneToken(s: State) {
    && (s.pc == Suspended ==> (if s.handler then 1 else 0) + s.posted == 1)
    && (s.pc != Suspended ==> !s.handler && s.posted == 0)
    && s.parks == s.posts + (if s.handler then 1 else 0)
    && s.posts == s.resumes + s.posted
  }

  /** Room under the limit, by position of the loop and of the mutex. */
  ghost predicate Room(s: State) {
    match s.cfg.Limit()
    case None => s.pc != Parking && s.pc != Suspended
    case Some(max) =>
      && s.active <= max
      && (s.pc == Parking ==> s.active == max)
      && (s.handler ==> s.active == (if s.lock == HeldByEnd then max - 1 else max))
      && (s.posted > 0 ==> s.active < max)
      && (s.pc == Accepting ==> s.active < max)
  }

  ghost predicate Locking(s: State) {
    s.lock == HeldByLoop <==> s.pc == Testing || s.pc == Parking
  }

  /** The pools before `worker` are one attempt ahead of the others. */
  ghost predicate Even(attempts: seq<nat>, worker: nat) {
    && worker < |attempts|
    && forall i :: 0 <= i < |attempts| ==>
         attempts[i] == attempts[|attempts| - 1] + if i < worker then 1 else 0
  }

  ghost predicate RoundRobin(s: State) {
    |s.attempts| == s.cfg.UsedPools() && Even(s.attempts, s.worker)
  }

  ghost predicate Inv(s: State) {
    Counting(s) && OneToken(s) && Room(s) && Locking(s) && RoundRobin(s) && Placed(s)
  }

  lemma OneMoreLive(live: set<nat>, sid: nat)
    requires sid !in live
    ensures |live + {sid}| == |live| + 1
  {
  }

  lemma OneLessLive(live: set<nat>, sid: nat)
    requires sid in live
    ensures |live - {sid}| == |live| - 1
  {
  }

  lemma StepKeepsCounting(s: State, e: Event)
    requires Counting(s) && Enabled(s, e)
    ensures Counting(Step(s, e))
  {
    var t := Step(s, e);
    match e {
      case AcceptOk =>
        OneMoreLive(s.live, s.session);
      case EndBegin(sid) =>
        OneLessLive(s.live, sid);
      case _ =>
        assert t.live == s.live && t.active == s.active;
    }
  }

  lemma StepKeepsToken(s: State, e: Event)
    requires OneToken(s) && Enabled(s, e) && Room(s)
    ensures OneToken(Step(s, e))
  {
  }

  lemma StepKeepsRoom(s: State, e: Event)
    requires OneToken(s) && Room(s) && Locking(s) && Enabled(s, e)
    ensures Room(Step(s, e)) && Locking(Step(s, e))
  {
  }

  lemma EvenTurn(attempts: seq<nat>, worker: nat)
    requires Even(attempts, worker)
    ensures Even(attempts[worker := attempts[worker] + 1], (worker + 1) % |attempts|)
  {
    var n := |attempts|;
    assert (worker + 1) % n == if worker + 1 == n then 0 else worker + 1;
  }

  lemma StepKeepsRoundRobin(s: State, e: Event)
    requires RoundRobin(s) && Enabled(s, e)
    ensures RoundRobin(Step(s, e))
  {
    EvenTurn(s.attempts, s.worker);
  }

  lemma StepKeepsPlaced(s: State, e: Event)
    requires RoundRobin(s) && Placed(s) && Enabled(s, e)
    ensures Placed(Step(s, e))
  {
    hide Even;
    var t := Step(s, e);
    if e == AcceptOk {
      assert t.placement == s.placement[s.session := s.worker];
      assert s.worker < |s.attempts|;
    } else {
      assert t.placement == s.placement && t.session == s.session;
    }
  }

  lemma StepKeepsInv(s: State, e: Event)
    requires Inv(s) && Enabled(s, e)
    ensures Inv(Step(s, e))
  {
    hide Counting, OneToken, Room, Locking, RoundRobin, Placed, Step, Enabled;
    StepKeepsCounting(s, e);
    StepKeepsToken(s, e);
    StepKeepsRoom(s, e);
    StepKeepsRoundRobin(s, e);
    StepKeepsPlaced(s, e);
  }

  lemma {:induction false} ExecKeepsInv(s: State, es: seq<Event>)
    requires Inv(s) && Legal(s, es)
    ensures Inv(Exec(s, es))
    ensures Exec(s, es).cfg == s.cfg
    decreases es
  {
    if es != [] {
      StepKeepsInv(s, es[0]);
      ExecKeepsInv(Step(s, es[0]), es[1..]);
    }
  }

  lemma InitInv(cfg: Config)
    requires cfg.Valid()
    ensures Inv(Init(cfg))
  {
  }

  lemma ReachableInv(cfg: Config, s: State)
    requires cfg.Valid() && Reachable(cfg, s)
    ensures Inv(s) && s.cfg == cfg
  {
    var es :| Legal(Init(cfg), es) && Exec(Init(cfg), es) == s;
    InitInv(cfg);
    ExecKeepsInv(Init(cfg), es);
  }

  // ----- main results -----

  /** The limit is never exceeded, and the counter is exactly the number of open sessions. */
  lemma LimitHolds(cfg: Config, s: State)
    requires cfg.Valid() && Reachable(cfg, s)
    ensures s.active == |s.live|
    ensures cfg.maxConnections != 0 ==> s.active <= cfg.maxConnections
  {
    ReachableInv(cfg, s);
  }

  /** What a client of the server sees: a bounded set of numbered sessions. */
  datatype Sessions = Sessions(bound: Option<nat>, live: set<nat>, accepted: nat)

  ghost predicate Opens(a: Sessions, b: Sessions) {
    && (a.bound.Some? ==> |a.live| < a.bound.value)
    && b == a.(live := a.live + {a.accepted}, accepted := a.accepted + 1)
  }

  ghost predicate Closes(a: Sessions, b: Sessions, sid: nat) {
    sid in a.live && b == a.(live := a.live - {sid})
  }

  ghost function Abstract(s: State): Sessions {
    Sessions(s.cfg.Limit(), s.live, s.session)
  }

  /** Refinement: an accept opens a session while there is room, an end closes one, and the
      whole park-and-wake protocol is invisible. */
  lemma Refines(cfg: Config, s: State, e: Event)
    requires cfg.Valid() && Reachable(cfg, s) && Enabled(s, e)
    ensures match e
            case AcceptOk => Opens(Abstract(s), Abstract(Step(s, e)))
            case EndBegin(sid) => Closes(Abstract(s), Abstract(Step(s, e)), sid)
            case _ => Abstract(Step(s, e)) == Abstract(s)
  {
    ReachableInv(cfg, s);
  }

  /** A parked loop implies a full server, and the very next connection end wakes it: after
      the decrement nothing but that end can move, it posts the handler exactly once, and
      the loop then resumes into a state with room. */
  lemma NextEndWakes(cfg: Config, s: State, sid: nat)
    requires cfg.Valid() && Reachable(cfg, s)
    requires s.handler && s.lock == Free && sid in s.live
    ensures cfg.maxConnections >= 1 && s.active == cfg.maxConnections
    ensures Enabled(s, EndBegin(sid))
    ensures var t := Step(s, EndBegin(sid));
            && (forall e :: Enabled(t, e) <==> e == EndTest)
            && var u := Step(t, EndTest);
               && !u.handler && u.posted == 1 && u.posts == s.posts + 1
               && Enabled(u, LoopResume)
               && Step(u, LoopResume).pc == Accepting
               && Step(u, LoopResume).active < cfg.maxConnections
  {
    ReachableInv(cfg, s);
    StepKeepsInv(s, EndBegin(sid));
  }

  /** However long the posted wake-up waits in the queue, the loop that resumes without
      rechecking the limit still has room for one more connection. */
  lemma ResumeHasRoom(cfg: Config, s: State)
    requires cfg.Valid() && Reachable(cfg, s) && Enabled(s, LoopResume)
    ensures cfg.maxConnections >= 1
    ensures s.posted == 1 && !s.handler
    ensures Step(s, LoopResume).active < cfg.maxConnections
  {
    ReachableInv(cfg, s);
  }

  /** Some step is always possible; in particular a parked loop is never stranded: the server
      is full, so there is a session whose end will wake it. */
  lemma NeverStuck(cfg: Config, s: State) returns (e: Event)
    requires cfg.Valid() && Reachable(cfg, s)
    ensures Enabled(s, e)
    ensures s.handler && s.lock == Free ==> e.EndBegin?
  {
    ReachableInv(cfg, s);
    match s.pc {
      case Checking => e := if s.lock == Free then LoopLock else EndTest;
      case Testing => e := LoopTest;
      case Parking => e := LoopPark;
      case Accepting => e := AcceptError;
      case Suspended =>
        if s.posted > 0 {
          e := LoopResume;
        } else if s.lock == HeldByEnd {
          e := EndTest;
        } else {
          assert s.live != {};
          var sid :| sid in s.live;
          e := EndBegin(sid);
        }
    }
  }

  /** Round-robin placement: attempts at any two used pools differ by at most one, every
      session lives on a used pool, and a reserved acceptor pool receives none. */
  lemma FairPlacement(cfg: Config, s: State, i: nat, j: nat, sid: nat)
    requires cfg.Valid() && Reachable(cfg, s)
    requires i < cfg.UsedPools() && j < cfg.UsedPools() && sid < s.session
    ensures i < |s.attempts| && j < |s.attempts| && s.attempts[i] <= s.attempts[j] + 1
    ensures sid in s.placement && s.placement[sid] < cfg.pools
    ensures cfg.acceptPool && cfg.pools > 1 ==> s.placement[sid] != cfg.pools - 1
  {
    ReachableInv(cfg, s);
  }

  function IsAccept(e: Event): nat { if e == AcceptOk || e == AcceptError then 1 else 0 }

  /** How many accepts have completed, and how many of them with a usable connection. */
  function Accepts(es: seq<Event>): nat {
    if es == [] then 0 else IsAccept(es[0]) + Accepts(es[1..])
  }

  function Opened(es: seq<Event>): nat {
    if es == [] then 0 else (if es[0] == AcceptOk then 1 else 0) + Opened(es[1..])
  }

  lemma Multiples(d: int, n: int)
    requires n > 0
    ensures d >= 1 ==> n * d >= n
    ensures d <= -1 ==> n * d <= -n
  {
    if d <= -1 {
      assert n * d == -(n * (-d));
    }
  }

  function Mod(a: nat, n: nat): nat
    requires n > 0
  {
    a % n
  }

  lemma Uncounted(a: nat, n: nat)
    requires a < n
    ensures Mod(a, n) == a
  {
  }

  lemma OnceRound(a: nat, n: nat)
    requires n > 0
    ensures Mod(n + a, n) == Mod(a, n)
  {
    var q, r := a / n, a % n;
    var q', r' := (n + a) / n, (n + a) % n;
    assert n * (q' - q - 1) == r - r';
    Multiples(q' - q - 1, n);
  }

  /** The pool whose turn it is, `a` accepts after pool `w`. */
  function Turn(w: nat, a: nat, n: nat): nat
    requires n > 0
  {
    Mod(w + a, n)
  }

  lemma NextTurn(w: nat, a: nat, n: nat)
    requires w < n
    ensures Turn(w, 0, n) == w && Turn(w, 1, n) < n && Turn(Turn(w, 1, n), a, n) == Turn(w, a + 1, n)
  {
    Uncounted(w, n);
    if w + 1 < n {
      Uncounted(w + 1, n);
    } else {
      OnceRound(0, n);
      Uncounted(0, n);
      OnceRound(a, n);
    }
    hide Mod;
  }

  lemma StepTurns(s: State, e: Event)
    requires Inv(s) && Enabled(s, e)
    ensures var t := Step(s, e);
            && s.worker < |s.attempts| == |t.attempts|
            && t.worker == Turn(s.worker, IsAccept(e), |s.attempts|)
            && t.session == s.session + (if e == AcceptOk then 1 else 0)
            && forall sid :: sid in s.placement ==> sid in t.placement && t.placement[sid] == s.placement[sid]
  {
    hide Counting, OneToken, Room, Locking;
    assert s.session !in s.placement;
  }

  /** The loop's turn counts the accepts completed, the session number those that succeeded; and
      a session once placed stays where it is. */
  lemma {:induction false} TurnsTaken(s: State, es: seq<Event>)
    requires Inv(s) && Legal(s, es)
    ensures var t := Exec(s, es);
            && |s.attempts| > 0 && t.worker == Turn(s.worker, Accepts(es), |s.attempts|)
            && t.session == s.session + Opened(es)
            && forall sid :: sid in s.placement ==> sid in t.placement && t.placement[sid] == s.placement[sid]
    decreases es
  {
    assert s.worker < |s.attempts|;
    if es == [] {
      NextTurn(s.worker, 0, |s.attempts|);
    } else {
      StepKeepsInv(s, es[0]);
      StepTurns(s, es[0]);
      TurnsTaken(Step(s, es[0]), es[1..]);
      NextTurn(s.worker, Accepts(es[1..]), |s.attempts|);
      hide Inv, Step, Turn, Enabled;
    }
  }

  lemma {:induction false} ExecSplit(s: State, es: seq<Event>, k: nat)
    requires k <= |es| && Legal(s, es)
    ensures Legal(s, es[..k]) && Legal(Exec(s, es[..k]), es[k..])
    ensures Exec(s, es) == Exec(Exec(s, es[..k]), es[k..])
    decreases k
  {
    if k == 0 {
      assert es[k..] == es;
    } else {
      ExecSplit(Step(s, es[0]), es[1..], k - 1);
      assert es[..k][1..] == es[1..][..k - 1] && es[k..] == es[1..][k - 1..];
    }
  }

  /** Round robin from the events alone: the session opened by the `k`-th event is on the pool
      whose turn it was, the number of accepts completed before it, modulo the pools that are
      used; and there it stays to the end of the run. */
  lemma PlacedInTurn(cfg: Config, es: seq<Event>, k: nat)
    requires cfg.Valid() && Legal(Init(cfg), es) && k < |es| && es[k] == AcceptOk
    ensures var used := if cfg.acceptPool && cfg.pools > 1 then cfg.pools - 1 else cfg.pools;
            var placement := Exec(Init(cfg), es).placement;
            Opened(es[..k]) in placement && placement[Opened(es[..k])] == Accepts(es[..k]) % used
  {
    InitInv(cfg);
    ExecSplit(Init(cfg), es, k);
    TurnsTaken(Init(cfg), es[..k]);
    ExecKeepsInv(Init(cfg), es[..k]);
    var s := Exec(Init(cfg), es[..k]);
    StepKeepsInv(s, AcceptOk);
    TurnsTaken(Step(s, AcceptOk), es[k..][1..]);
  }

  // ----- the server object -----

  /** The server's own fields, and its code as atomic actions on them. */
  class HttpServer {
    const cfg: Config
    const limit: Option<nat>
    var useWorkers: nat
    var activeConnections: int
    var activeConnectionsHnd: bool
    var session: nat
    var mtx: Lock
    // the accept loop's frame and its executor
    var pc: Pc
    var workerI: nat
    var executorQueue: nat
    // bookkeeping about what happened so far
    var live: set<nat>
    var attempts: seq<nat>
    var placement: map<nat, nat>
    var parks: nat
    var posts: nat
    var resumes: nat

    ghost predicate Valid()
      reads this
    {
      limit == cfg.Limit() && useWorkers == cfg.UsedPools() == |attempts|
    }

    ghost function View(): State
      reads this
    {
      State(cfg, pc, mtx, activeConnections, session, live, activeConnectionsHnd, executorQueue,
            workerI, attempts, placement, parks, posts, resumes)
    }

    constructor (cfg: Config)
      requires cfg.Valid()
      ensures Valid() && this.cfg == cfg && View() == Init(cfg)
    {
      this.cfg := cfg;
      var used := cfg.pools;
      if used > 1 && cfg.acceptPool {
        used := used - 1;
      }
      useWorkers := used;
      limit := if cfg.maxConnections != 0 then Some(cfg.maxConnections) else None;
      activeConnections, activeConnectionsHnd, session, mtx := 0, false, 0, Free;
      pc, workerI, executorQueue := Checking, 0, 0;
      live, attempts, placement := {}, seq(used, i => 0), map[];
      parks, posts, resumes := 0, 0, 0;
    }

    /** `conn_limit`: the mutex is taken, and kept while the loop is about to park. */
    method ConnLimit()
      requires Valid() && (Enabled(View(), LoopLock) || Enabled(View(), LoopTest))
      modifies this
      ensures Valid()
      ensures View() == Step(old(View()), if old(pc) == Checking then LoopLock else LoopTest)
    {
      if pc == Checking {
        mtx := HeldByLoop;
        pc := Testing;
      } else if limit.Some? && activeConnections >= limit.value {
        pc := Parking;
      } else {
        mtx := Free;
        pc := Accepting;
      }
    }

    /** `conn_limit_init`: store the coroutine's handler, then release the mutex. */
    method ConnLimitInit()
      requires Valid() && Enabled(View(), LoopPark)
      modifies this
      ensures Valid() && View() == Step(old(View()), LoopPark)
    {
      activeConnectionsHnd := true;
      mtx := Free;
      pc := Suspended;
      parks := parks + 1;
    }

    /** The executor runs the posted handler; the loop goes on to accept without rechecking. */
    method Resume()
      requires Valid() && Enabled(View(), LoopResume)
      modifies this
      ensures Valid() && View() == Step(old(View()), LoopResume)
    {
      executorQueue := executorQueue - 1;
      pc := Accepting;
      resumes := resumes + 1;
    }

    /** An accept completes, with a usable connection or not; the loop turns to the next pool. */
    method AcceptCompleted(ok: bool)
      requires Valid() && pc == Accepting && workerI < |attempts|
      modifies this
      ensures Valid() && View() == Step(old(View()), if ok then AcceptOk else AcceptError)
      ensures placement == if ok then old(placement)[old(session) := old(workerI)] else old(placement)
    {
      if ok {
        activeConnections := activeConnections + 1;
        var sid := session;
        session := session + 1;
        live := live + {sid};
        placement := placement[sid := workerI];
      }
      attempts := attempts[workerI := attempts[workerI] + 1];
      workerI := (workerI + 1) % useWorkers;
      pc := Checking;
    }

    /** First half of `active_connection_end`: take the mutex and decrement. */
    method ConnectionEndBegin(sid: nat)
      requires Valid() && Enabled(View(), EndBegin(sid))
      modifies this
      ensures Valid() && View() == Step(old(View()), EndBegin(sid))
    {
      mtx := HeldByEnd;
      activeConnections := activeConnections - 1;
      live := live - {sid};
    }

    /** Second half: test again, perhaps move the handler to the executor, unlock. */
    method ConnectionEndTest()
      requires Valid() && Enabled(View(), EndTest)
      modifies this
      ensures Valid() && View() == Step(old(View()), EndTest)
    {
      if limit.Some? && activeConnections < limit.value && activeConnectionsHnd {
        activeConnectionsHnd := false;
        executorQueue := executorQueue + 1;
        posts := posts + 1;
      }
      mtx := Free;
    }

    /** Drives the server through any schedule; its state is the one the step system reaches,
        and the limit holds throughout. */
    method Drive(es: seq<Event>)
      requires Valid() && View() == Init(cfg) && cfg.Valid() && Legal(View(), es)
      modifies this
      ensures Valid() && View() == Exec(Init(cfg), es)
      ensures activeConnections == |live|
      ensures cfg.maxConnections != 0 ==> activeConnections <= cfg.maxConnections
    {
      hide OneToken, Locking, RoundRobin, Placed, Step;
      InitInv(cfg);
      ghost var final := Exec(View(), es);
      var i := 0;
      while i < |es|
        invariant 0 <= i <= |es| && Valid() && Inv(View())
        invariant Legal(View(), es[i..]) && Exec(View(), es[i..]) == final
      {
        StepKeepsInv(View(), es[i]);
        assert es[i..][1..] == es[i + 1..];
        match es[i] {
          case LoopLock => ConnLimit();
          case LoopTest => ConnLimit();
          case LoopPark => ConnLimitInit();
          case LoopResume => Resume();
          case AcceptError => AcceptCompleted(false);
          case AcceptOk => AcceptCompleted(true);
          case EndBegin(sid) => ConnectionEndBegin(sid);
          case EndTest => ConnectionEndTest();
        }
        i := i + 1;
      }
    }
  }
}
