/** The benchmark's once-a-second log line: `tt` holds the time of the last one, and a thread
    takes it out of the atomic while it decides. The empty time point marks "taken". */
module LogToken {

  /** Clock readings in nanoseconds; 0 is the empty time point. */
  const SECOND: int := 1_000_000_000

  datatype Phase =
    | Idle
    | Sampled(tnow: int)           // clock read, token not yet asked for
    | Holding(tnow: int, t: int)   // token taken out, not yet put back

  datatype State = State(
    t0: int,
    now: int,          // the clock
    tt: int,
    threads: seq<Phase>,
    trues: seq<int>)   // the clock readings of the calls that returned true

  datatype Event =
    | Sample(th: nat, tnow: int)  // clock::now()
    | Exchange(th: nat)           // tt.exchange({})
    | Store(th: nat)              // put back tnow and return true, or t and return false

  /** `init`: the clock is running, and the token is in place. */
  function Init(t0: int, threads: nat): State {
    State(t0, t0, t0, seq(threads, i => Idle), [])
  }

  predicate Enabled(s: State, e: Event) {
    match e
    case Sample(th, tnow) => th < |s.threads| && s.threads[th] == Idle && tnow >= s.now
    case Exchange(th) => th < |s.threads| && s.threads[th].Sampled?
    case Store(th) => th < |s.threads| && s.threads[th].Holding?
  }

  function Step(s: State, e: Event): State
    requires Enabled(s, e)
  {
    match e
    case Sample(th, tnow) => s.(now := tnow, threads := s.threads[th := Sampled(tnow)])
    case Exchange(th) =>
      var next := if s.tt == 0 then Idle else Holding(s.threads[th].tnow, s.tt);
      s.(tt := 0, threads := s.threads[th := next])
    case Store(th) =>
      var h := s.threads[th];
      if h.tnow - h.t >= SECOND then
        s.(tt := h.tnow, trues := s.trues + [h.tnow], threads := s.threads[th := Idle])
      else
        s.(tt := h.t, threads := s.threads[th := Idle])
  }

  ghost predicate Run(s: State, es: seq<Event>, t: State)
    decreases es
  {
    if es == [] then s == t else Enabled(s, es[0]) && Run(Step(s, es[0]), es[1..], t)
  }

  /** The value the token carries: the time of the last line, or of the start. */
  function Last(s: State): int { if s.trues == [] then s.t0 else s.trues[|s.trues| - 1] }

  predicate HasToken(s: State, th: nat) { th < |s.threads| && s.threads[th].Holding? }

  /** The token is in `tt` and nobody holds it, or one thread holds it and `tt` is empty. */
  ghost predicate OneToken(s: State) {
    if s.tt != 0 then
      s.tt == Last(s) && forall th: nat :: !HasToken(s, th)
    else
      exists th: nat :: HasToken(s, th) && s.threads[th].t == Last(s) && forall u: nat :: HasToken(s, u) ==> u == th
  }

  ghost predicate Spaced(s: State) {
    && (forall i :: 0 <= i < |s.trues| ==> s.trues[i] >= s.t0 + (i + 1) * SECOND)
    && (forall i, j :: 0 <= i < j < |s.trues| ==> s.trues[j] - s.trues[i] >= SECOND)
    && (forall i :: 0 <= i < |s.trues| ==> s.trues[i] <= s.now)
  }

  ghost predicate Clocks(s: State) {
    && 0 < s.t0 <= s.now
    && forall th :: 0 <= th < |s.threads| && s.threads[th] != Idle ==> s.t0 <= s.threads[th].tnow <= s.now
  }

  ghost predicate Inv(s: State) { OneToken(s) && Spaced(s) && Clocks(s) }

  lemma StepKeepsToken(s: State, e: Event)
    requires Inv(s) && Enabled(s, e)
    ensures OneToken(Step(s, e))
  {
    var t := Step(s, e);
    match e {
      case Sample(th, _) =>
        assert forall u: nat :: HasToken(t, u) <==> HasToken(s, u);
        if s.tt == 0 {
          var h: nat :| HasToken(s, h) && s.threads[h].t == Last(s) && forall u: nat :: HasToken(s, u) ==> u == h;
          assert HasToken(t, h) && t.threads[h].t == Last(t);
        }
      case Exchange(th) =>
        if s.tt == 0 {
          var h: nat :| HasToken(s, h) && s.threads[h].t == Last(s) && forall u: nat :: HasToken(s, u) ==> u == h;
          assert forall u: nat :: HasToken(t, u) <==> HasToken(s, u);
          assert HasToken(t, h) && t.threads[h].t == Last(t);
        } else {
          forall u: nat | HasToken(t, u) ensures u == th {
            assert u != th ==> HasToken(s, u);
          }
          assert HasToken(t, th) && t.threads[th].t == Last(t);
        }
      case Store(th) =>
        assert HasToken(s, th);
        assert forall u: nat :: HasToken(t, u) ==> HasToken(s, u) && u != th;
        assert t.tt == Last(t);
    }
  }

  lemma StepKeepsSpaced(s: State, e: Event)
    requires Inv(s) && Enabled(s, e)
    ensures Spaced(Step(s, e))
  {
    if e.Store? {
      assert HasToken(s, e.th);
      assert s.threads[e.th].t == Last(s);
    }
  }

  lemma StepKeepsInv(s: State, e: Event)
    requires Inv(s) && Enabled(s, e)
    ensures Inv(Step(s, e)) && Step(s, e).t0 == s.t0
  {
    StepKeepsToken(s, e);
    StepKeepsSpaced(s, e);
  }

  lemma {:induction false} RunKeepsInv(s: State, es: seq<Event>, t: State)
    requires Inv(s) && Run(s, es, t)
    ensures Inv(t) && t.t0 == s.t0
    decreases es
  {
    if es != [] {
      StepKeepsInv(s, es[0]);
      RunKeepsInv(Step(s, es[0]), es[1..], t);
    }
  }

  lemma InitInv(t0: int, threads: nat)
    requires t0 > 0
    ensures Inv(Init(t0, threads))
  {
  }

  /** The token is never lost and never doubled: `tt` is set, or exactly one thread has it. */
  lemma NeverLostNorDoubled(t0: int, threads: nat, es: seq<Event>, s: State)
    requires t0 > 0 && Run(Init(t0, threads), es, s)
    ensures s.tt != 0 <==> forall th: nat :: !HasToken(s, th)
    ensures forall th: nat, u: nat :: HasToken(s, th) && HasToken(s, u) ==> th == u
  {
    InitInv(t0, threads);
    RunKeepsInv(Init(t0, threads), es, s);
  }

  /** Lines are at least a second apart, and n of them mean that n seconds have passed. */
  lemma OncePerSecond(t0: int, threads: nat, es: seq<Event>, s: State)
    requires t0 > 0 && Run(Init(t0, threads), es, s)
    ensures forall i, j :: 0 <= i < j < |s.trues| ==> s.trues[j] - s.trues[i] >= SECOND
    ensures s.trues != [] ==> s.trues[0] - t0 >= SECOND
    ensures s.now - t0 >= |s.trues| * SECOND
  {
    InitInv(t0, threads);
    RunKeepsInv(Init(t0, threads), es, s);
    if s.trues != [] {
      var n := |s.trues|;
      assert s.trues[n - 1] >= t0 + n * SECOND;
    }
  }

  /** Who logs: a call that gets the token returns true exactly if its clock reading is a second or
      more after the last line (or the start), and then its own reading is the new last line. A
      call that does not get the token returns false and changes nothing but its own thread. */
  lemma LogsWhenDue(t0: int, threads: nat, es: seq<Event>, s: State, th: nat)
    requires t0 > 0 && Run(Init(t0, threads), es, s) && th < |s.threads|
    ensures Enabled(s, Store(th)) ==>
              var u, tnow := Step(s, Store(th)), s.threads[th].tnow;
              && u.trues == (if tnow - Last(s) >= SECOND then s.trues + [tnow] else s.trues)
              && u.tt == Last(u) && u.threads[th] == Idle
    ensures Enabled(s, Exchange(th)) ==>
              var u, tnow := Step(s, Exchange(th)), s.threads[th].tnow;
              u.trues == s.trues && u.tt == 0 &&
              u.threads[th] == if exists h: nat :: HasToken(s, h) then Idle else Holding(tnow, Last(s))
  {
    InitInv(t0, threads);
    RunKeepsInv(Init(t0, threads), es, s);
    if Enabled(s, Store(th)) {
      assert HasToken(s, th);
    }
  }

  lemma {:induction false} ReadingKept(s: State, es: seq<Event>, u: State, th: nat, tnow: int)
    requires Run(s, es, u) && th < |s.threads|
    requires s.threads[th] == Idle || s.threads[th].tnow == tnow
    requires forall e :: e in es && e.Sample? ==> e.th != th
    ensures th < |u.threads| && (u.threads[th] == Idle || u.threads[th].tnow == tnow)
    decreases es
  {
    if es != [] {
      assert forall e :: e in es[1..] ==> e in es;
      ReadingKept(Step(s, es[0]), es[1..], u, th, tnow);
    }
  }

  /** The reading a call decides with is the one it sampled, whatever the others do meanwhile. */
  lemma DecidesWithItsSample(s: State, th: nat, tnow: int, es: seq<Event>, u: State)
    requires Enabled(s, Sample(th, tnow)) && Run(Step(s, Sample(th, tnow)), es, u)
    requires forall e :: e in es && e.Sample? ==> e.th != th
    ensures th < |u.threads| && (u.threads[th] == Idle || u.threads[th].tnow == tnow)
  {
    ReadingKept(Step(s, Sample(th, tnow)), es, u, th, tnow);
  }
}
