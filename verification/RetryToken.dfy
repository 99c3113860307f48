/** How the threads of one database wait for each other: the shared `finished` flag and its
    condition variable, used as a token with one slot.

    Every step is one region under the mutex, or the moment a sleeping thread is let go by the
    condition variable. `wait_for` with a predicate tests before sleeping and after each wake. */
module RetryToken {

  datatype Phase =
    | Idle
    | Executing
    | Asleep                 // inside wait_for, mutex released
    | Awake(notified: bool)  // let go (by notify_one or not), mutex not yet taken again

  datatype State = State(
    finished: bool,
    threads: seq<Phase>,
    completions: nat,  // executions that ended and set the flag
    signalled: nat,    // waits that ended because the flag was set
    coalesced: nat)    // completions that found the flag already set

  datatype Event =
    | Begin(t: nat)
    | Finish(t: nat, woken: nat)   // signal_finished; notify_one may pick any sleeper
    | StartWait(t: nat)
    | LetGo(t: nat)                // a timeout or a spurious wake
    | Recheck(t: nat, late: bool)  // `late`: the time limit has passed

  function Init(n: nat): State { State(false, seq(n, i => Idle), 0, 0, 0) }

  predicate Sleeper(s: State, t: nat) { t < |s.threads| && s.threads[t] == Asleep }

  predicate NobodyAsleep(s: State) { forall t :: 0 <= t < |s.threads| ==> s.threads[t] != Asleep }

  predicate Enabled(s: State, e: Event) {
    match e
    case Begin(t) => t < |s.threads| && s.threads[t] == Idle
    case Finish(t, w) => t < |s.threads| && s.threads[t] == Executing && (Sleeper(s, w) || NobodyAsleep(s))
    case StartWait(t) => t < |s.threads| && s.threads[t] == Executing
    case LetGo(t) => Sleeper(s, t)
    case Recheck(t, _) => t < |s.threads| && s.threads[t].Awake?
  }

  /** A wait ends with the flag set: the token is taken. */
  function Take(s: State, t: nat): State
    requires t < |s.threads|
  {
    s.(finished := false, signalled := s.signalled + 1, threads := s.threads[t := Executing])
  }

  function Step(s: State, e: Event): State
    requires Enabled(s, e)
  {
    match e
    case Begin(t) => s.(threads := s.threads[t := Executing])
    case Finish(t, w) =>
      var threads := s.threads[t := Idle];
      s.(finished := true, completions := s.completions + 1,
         coalesced := if s.finished then s.coalesced + 1 else s.coalesced,
         threads := if Sleeper(s, w) then threads[w := Awake(true)] else threads)
    case StartWait(t) => if s.finished then Take(s, t) else s.(threads := s.threads[t := Asleep])
    case LetGo(t) => s.(threads := s.threads[t := Awake(false)])
    case Recheck(t, late) =>
      if s.finished then Take(s, t)
      else if late then s.(finished := false, threads := s.threads[t := Executing])
      else s.(threads := s.threads[t := Asleep])
  }

  ghost predicate Run(s: State, es: seq<Event>, t: State)
    decreases es
  {
    if es == [] then s == t else Enabled(s, es[0]) && Run(Step(s, es[0]), es[1..], t)
  }

  ghost predicate SomebodyNotified(s: State) {
    exists w :: 0 <= w < |s.threads| && s.threads[w] == Awake(true)
  }

  function Slot(s: State): nat { if s.finished then 1 else 0 }

  ghost predicate Inv(s: State) {
    && s.signalled + s.coalesced + Slot(s) == s.completions
    && (s.finished && !NobodyAsleep(s) ==> SomebodyNotified(s))
  }

  lemma StepKeepsInv(s: State, e: Event)
    requires Inv(s) && Enabled(s, e)
    ensures Inv(Step(s, e))
  {
    var s' := Step(s, e);
    if s'.finished && !NobodyAsleep(s') {
      match e {
        case Finish(t, w) =>
          if Sleeper(s, w) {
            assert s'.threads[w] == Awake(true);
          }
        case Begin(t) => StillNotified(s, s', t);
        case LetGo(t) => StillNotified(s, s', t);
        case _ =>
      }
    }
  }

  /** While the flag stays set, a waiter that was notified stays notified. */
  lemma StillNotified(s: State, s': State, t: nat)
    requires Inv(s) && s.finished && t < |s.threads|
    requires |s'.threads| == |s.threads| && !s.threads[t].Awake? && !s'.threads[t].Asleep?
    requires forall u :: 0 <= u < |s.threads| && u != t ==> s'.threads[u] == s.threads[u]
    requires !NobodyAsleep(s')
    ensures SomebodyNotified(s')
  {
    var u :| 0 <= u < |s'.threads| && s'.threads[u] == Asleep;
    assert s.threads[u] == Asleep;
    var w :| 0 <= w < |s.threads| && s.threads[w] == Awake(true);
    assert s'.threads[w] == Awake(true);
  }

  lemma {:induction false} RunKeepsInv(s: State, es: seq<Event>, t: State)
    requires Inv(s) && Run(s, es, t)
    ensures Inv(t)
    ensures s.coalesced <= t.coalesced
    decreases es
  {
    if es != [] {
      StepKeepsInv(s, es[0]);
      RunKeepsInv(Step(s, es[0]), es[1..], t);
    }
  }

  /** Over all runs: every completion is accounted for as a wait it ended, as the flag now set,
      or as having found the flag already set; so waits ended by a signal, with the flag, never
      outnumber completions. */
  lemma OneSlot(n: nat, es: seq<Event>, t: State)
    requires Run(Init(n), es, t)
    ensures t.signalled + Slot(t) + t.coalesced == t.completions
    ensures t.signalled + Slot(t) <= t.completions
  {
    RunKeepsInv(Init(n), es, t);
  }

  /** The same between any two moments of a run: beyond what one slot can carry over, no wait
      ends on a signal without a completion of its own. */
  lemma NoFreeSignals(n: nat, es: seq<Event>, s: State, fs: seq<Event>, t: State)
    requires Run(Init(n), es, s) && Run(s, fs, t)
    ensures t.signalled - s.signalled <= t.completions - s.completions + Slot(s)
  {
    RunKeepsInv(Init(n), es, s);
    RunKeepsInv(s, fs, t);
  }

  /** No thread sleeps through a set flag: if one is asleep while the flag is set, a waiter has
      been notified and not yet looked, and its next look, late or not, takes the token. */
  lemma NoMissedSignal(n: nat, es: seq<Event>, s: State) returns (w: nat)
    requires Run(Init(n), es, s) && s.finished && !NobodyAsleep(s)
    ensures w < |s.threads| && s.threads[w] == Awake(true)
    ensures forall late ::
              Enabled(s, Recheck(w, late)) &&
              var s' := Step(s, Recheck(w, late));
              !s'.finished && s'.signalled == s.signalled + 1 && s'.threads[w] == Executing
  {
    RunKeepsInv(Init(n), es, s);
    w :| 0 <= w < |s.threads| && s.threads[w] == Awake(true);
  }

  // ----- when a wait may end -----

  predicate Waiting(s: State, t: nat) { t < |s.threads| && (s.threads[t] == Asleep || s.threads[t].Awake?) }

  predicate Busy(s: State, t: nat) { t < |s.threads| && s.threads[t] != Idle }

  function One(b: bool): nat { if b then 1 else 0 }

  /** The waits thread `t` has begun, from the events alone. */
  function Begun(es: seq<Event>, t: nat): nat {
    if es == [] then 0 else One(es[0] == StartWait(t)) + Begun(es[1..], t)
  }

  /** The executions thread `t` has begun, and those it has finished. */
  function Started(es: seq<Event>, t: nat): nat {
    if es == [] then 0 else One(es[0] == Begin(t)) + Started(es[1..], t)
  }

  function Finished(es: seq<Event>, t: nat): nat {
    if es == [] then 0 else One(es[0].Finish? && es[0].t == t) + Finished(es[1..], t)
  }

  /** Every event can happen when its turn comes. */
  ghost predicate Legal(s: State, es: seq<Event>)
    decreases es
  {
    es == [] || (Enabled(s, es[0]) && Legal(Step(s, es[0]), es[1..]))
  }

  /** The looks of thread `t` that found the flag set: on entering the wait or when let go. */
  ghost function Tokens(s: State, es: seq<Event>, t: nat): nat
    requires Legal(s, es)
    decreases es
  {
    if es == [] then 0
    else
      One(s.finished && (es[0] == StartWait(t) || es[0] == Recheck(t, true) || es[0] == Recheck(t, false)))
      + Tokens(Step(s, es[0]), es[1..], t)
  }

  /** The looks of thread `t` after its time limit that found the flag clear. */
  ghost function TimeOuts(s: State, es: seq<Event>, t: nat): nat
    requires Legal(s, es)
    decreases es
  {
    if es == [] then 0
    else One(!s.finished && es[0] == Recheck(t, true)) + TimeOuts(Step(s, es[0]), es[1..], t)
  }

  lemma {:induction false} WaitsFrom(s: State, es: seq<Event>, u: State, t: nat)
    requires Run(s, es, u)
    ensures Legal(s, es)
    ensures One(Busy(s, t)) + Started(es, t) == Finished(es, t) + One(Busy(u, t))
    ensures One(Waiting(s, t)) + Begun(es, t) == Tokens(s, es, t) + TimeOuts(s, es, t) + One(Waiting(u, t))
    decreases es
  {
    if es != [] {
      WaitsFrom(Step(s, es[0]), es[1..], u, t);
    }
  }

  /** The looks of all threads that found the flag set. */
  ghost function AllTokens(s: State, es: seq<Event>): nat
    requires Legal(s, es)
    decreases es
  {
    if es == [] then 0
    else One(s.finished && (es[0].StartWait? || es[0].Recheck?)) + AllTokens(Step(s, es[0]), es[1..])
  }

  /** The completions that found the flag set, and all completions. */
  ghost function Coalesced(s: State, es: seq<Event>): nat
    requires Legal(s, es)
    decreases es
  {
    if es == [] then 0 else One(s.finished && es[0].Finish?) + Coalesced(Step(s, es[0]), es[1..])
  }

  function Completions(es: seq<Event>): nat {
    if es == [] then 0 else One(es[0].Finish?) + Completions(es[1..])
  }

  lemma {:induction false} CountsFrom(s: State, es: seq<Event>, u: State)
    requires Run(s, es, u)
    ensures Legal(s, es)
    ensures u.signalled == s.signalled + AllTokens(s, es)
    ensures u.coalesced == s.coalesced + Coalesced(s, es)
    ensures u.completions == s.completions + Completions(es)
    decreases es
  {
    if es != [] {
      CountsFrom(Step(s, es[0]), es[1..], u);
    }
  }

  /** For every thread, over all runs: each wait it began either still goes on, or ended with the
      token, or ended at a look after the time limit; nothing else ends a wait, a spurious wake
      least of all. A wait leads back to the execution it belongs to, which ends by finishing
      only. */
  lemma WaitsEndRightly(n: nat, es: seq<Event>, u: State, t: nat)
    requires Run(Init(n), es, u)
    ensures Legal(Init(n), es)
    ensures Begun(es, t) == Tokens(Init(n), es, t) + TimeOuts(Init(n), es, t) + One(Waiting(u, t))
    ensures Started(es, t) == Finished(es, t) + One(Busy(u, t))
  {
    WaitsFrom(Init(n), es, u, t);
  }

  /** The flag from the events alone: completions less those that found it set, less the looks
      that took it. */
  lemma FlagFromEvents(n: nat, es: seq<Event>, u: State)
    requires Run(Init(n), es, u)
    ensures Legal(Init(n), es)
    ensures Slot(u) == Completions(es) - Coalesced(Init(n), es) - AllTokens(Init(n), es)
  {
    OneSlot(n, es, u);
    CountsFrom(Init(n), es, u);
  }
}
