/** The three-state circuit breaker (internal/circuitbreaker), under any interleaving of its callers. */
module CircuitBreaker {

  datatype Mode = Closed | Open | HalfOpen

  /** `NewBreaker` fixes the number of successes that close a half-open breaker. */
  const HALF_OPEN_MAX := 1

  datatype Config = Config(maxFailures: int, resetTimeout: int) {
    /** What `NewClient` guarantees of the breaker it builds. */
    predicate Sane() { maxFailures >= 1 }
  }

  datatype State = State(mode: Mode, failures: int, successes: int, lastFailure: int)

  /** One locked operation and the time it read. In-flight calls may record their outcome arbitrarily late. */
  datatype Call = Allow(now: int) | Success(now: int) | Failure(now: int)

  ghost predicate Ordered(calls: seq<Call>) {
    forall i, j :: 0 <= i < j < |calls| ==> calls[i].now <= calls[j].now
  }

  ghost predicate NotBefore(calls: seq<Call>, now: int) {
    calls != [] ==> calls[|calls| - 1].now <= now
  }

  // ----- the specification

  const INITIAL := State(Closed, 0, 0, 0)

  predicate Admits(c: Config, s: State, now: int) {
    match s.mode
    case Closed => true
    case Open => now - s.lastFailure > c.resetTimeout
    case HalfOpen => s.successes < HALF_OPEN_MAX
  }

  function Step(c: Config, s: State, call: Call): State {
    match call
    case Allow(now) =>
      if s.mode == Open && Admits(c, s, now) then s.(mode := HalfOpen, successes := 0) else s
    case Success(_) =>
      if s.mode != HalfOpen then s
      else if s.successes + 1 >= HALF_OPEN_MAX then s.(mode := Closed, failures := 0, successes := s.successes + 1)
      else s.(successes := s.successes + 1)
    case Failure(now) =>
      var mode := if s.mode == HalfOpen || s.failures + 1 >= c.maxFailures then Open else s.mode;
      s.(mode := mode, failures := s.failures + 1, lastFailure := now)
  }

  function After(c: Config, calls: seq<Call>): State {
    if calls == [] then INITIAL else Step(c, After(c, calls[..|calls| - 1]), calls[|calls| - 1])
  }

  // ----- the breaker

  class Breaker {
    const config: Config
    var mode: Mode
    var failures: int
    var successes: int
    var lastFailure: int
    /** Every operation so far. */
    ghost var calls: seq<Call>

    constructor (config: Config)
      ensures Valid() && calls == [] && this.config == config
    {
      this.config := config;
      mode, failures, successes, lastFailure, calls := Closed, 0, 0, 0, [];
    }

    ghost function Current(): State
      reads this
    {
      State(mode, failures, successes, lastFailure)
    }

    ghost predicate Valid()
      reads this
    {
      Ordered(calls) && Current() == After(config, calls)
    }

    /** Admission is decided by the history alone: closed, or quiet for longer than the reset timeout. */
    method Admit(now: int) returns (ok: bool)
      requires Valid() && NotBefore(calls, now)
      modifies this
      ensures Valid() && calls == old(calls) + [Allow(now)]
      ensures ok == Admits(config, old(Current()), now)
      ensures config.Sane() ==> (ok <==> old(mode) == Closed || QuietSince(old(calls), now, config.resetTimeout))
    {
      Appended(config, calls, Allow(now));
      if config.Sane() {
        AdmissionExact(config, calls, now);
      }
      calls := calls + [Allow(now)];
      match mode {
        case Closed => ok := true;
        case Open =>
          ok := now - lastFailure > config.resetTimeout;
          if ok {
            mode, successes := HalfOpen, 0;
          }
        case HalfOpen => ok := successes < HALF_OPEN_MAX;
      }
    }

    method RecordSuccess(now: int)
      requires Valid() && NotBefore(calls, now)
      modifies this
      ensures Valid() && calls == old(calls) + [Success(now)]
    {
      Appended(config, calls, Success(now));
      calls := calls + [Success(now)];
      if mode == HalfOpen {
        successes := successes + 1;
        if successes >= HALF_OPEN_MAX {
          mode, failures := Closed, 0;
        }
      }
    }

    method RecordFailure(now: int)
      requires Valid() && NotBefore(calls, now)
      modifies this
      ensures Valid() && calls == old(calls) + [Failure(now)]
    {
      Appended(config, calls, Failure(now));
      calls := calls + [Failure(now)];
      failures := failures + 1;
      lastFailure := now;
      if mode == HalfOpen {
        mode := Open;
        return;
      }
      if failures >= config.maxFailures {
        mode := Open;
      }
    }
  }

  lemma Appended(c: Config, calls: seq<Call>, call: Call)
    requires Ordered(calls) && NotBefore(calls, call.now)
    ensures Ordered(calls + [call])
    ensures After(c, calls + [call]) == Step(c, After(c, calls), call)
  {
    assert (calls + [call])[..|calls|] == calls;
  }

  // ----- invariants of every history

  /** Not closed exactly when `maxFailures` failures are on the count, and a half-open breaker still has room. */
  lemma {:induction false} ModeFollowsFailures(c: Config, calls: seq<Call>)
    requires c.Sane()
    ensures
      var s := After(c, calls);
      && (s.mode != Closed <==> s.failures >= c.maxFailures)
      && 0 <= s.successes && (s.mode == HalfOpen ==> s.successes < HALF_OPEN_MAX)
  {
    if calls != [] { ModeFollowsFailures(c, calls[..|calls| - 1]); }
  }

  /** The history is empty at `n`, or its `n`-th operation took the breaker back to closed. */
  ghost predicate ClosesAt(c: Config, calls: seq<Call>, n: nat)
    requires n <= |calls|
  {
    n == 0 || (After(c, calls[..n]).mode == Closed && After(c, calls[..n - 1]).mode != Closed)
  }

  function Failures(calls: seq<Call>): nat {
    if calls == [] then 0
    else Failures(calls[..|calls| - 1]) + if calls[|calls| - 1].Failure? then 1 else 0
  }

  /** `failures` counts every failure recorded since the breaker last became closed, successes in between or not. */
  lemma {:induction false} FailuresSinceClose(c: Config, calls: seq<Call>, from: nat)
    requires c.Sane() && from <= |calls| && ClosesAt(c, calls, from)
    requires forall n :: from < n <= |calls| ==> !ClosesAt(c, calls, n)
    ensures After(c, calls).failures == Failures(calls[from..])
  {
    assert calls[..|calls|] == calls;
    if from == |calls| {
      if from > 0 { ModeFollowsFailures(c, calls[..from - 1]); }
    } else {
      var n := |calls| - 1;
      forall k | 0 <= k <= n ensures ClosesAt(c, calls[..n], k) == ClosesAt(c, calls, k) {
        assert calls[..n][..k] == calls[..k];
        if k > 0 { assert calls[..n][..k - 1] == calls[..k - 1]; }
      }
      FailuresSinceClose(c, calls[..n], from);
      assert calls[from..][..|calls[from..]| - 1] == calls[..n][from..];
      assert !ClosesAt(c, calls, n + 1);
    }
  }

  // ----- the quiet period

  /** Every failure recorded so far is more than `timeout` old. */
  ghost predicate QuietSince(calls: seq<Call>, now: int, timeout: int) {
    forall i :: 0 <= i < |calls| && calls[i].Failure? ==> now - calls[i].now > timeout
  }

  lemma {:induction false} LastFailureLatest(c: Config, calls: seq<Call>)
    requires c.Sane() && Ordered(calls)
    ensures forall i :: 0 <= i < |calls| && calls[i].Failure? ==> calls[i].now <= After(c, calls).lastFailure
    ensures After(c, calls).failures > 0 ==>
      exists i :: 0 <= i < |calls| && calls[i] == Failure(After(c, calls).lastFailure)
  {
    if calls != [] {
      var n := |calls| - 1;
      LastFailureLatest(c, calls[..n]);
      if calls[n].Failure? {
        assert calls[n] == Failure(After(c, calls).lastFailure);
      } else if After(c, calls).failures > 0 {
        var i :| 0 <= i < n && calls[..n][i] == Failure(After(c, calls[..n]).lastFailure);
        assert calls[i] == Failure(After(c, calls).lastFailure);
      }
    }
  }

  lemma {:induction false} HalfOpenQuiet(c: Config, calls: seq<Call>)
    requires c.Sane() && Ordered(calls) && After(c, calls).mode == HalfOpen
    ensures calls != [] && calls[|calls| - 1].now - After(c, calls).lastFailure > c.resetTimeout
  {
    var n := |calls| - 1;
    if After(c, calls[..n]).mode == HalfOpen { HalfOpenQuiet(c, calls[..n]); }
  }

  /**
   * In every history, however late the completions: a call is admitted exactly when the breaker is closed or no failure
   * was recorded within `resetTimeout` of it.
   */
  lemma {:induction false} AdmissionExact(c: Config, calls: seq<Call>, now: int)
    requires c.Sane() && Ordered(calls) && NotBefore(calls, now)
    ensures
      var s := After(c, calls);
      Admits(c, s, now) <==> s.mode == Closed || QuietSince(calls, now, c.resetTimeout)
  {
    var s := After(c, calls);
    ModeFollowsFailures(c, calls);
    LastFailureLatest(c, calls);
    if s.mode == HalfOpen { HalfOpenQuiet(c, calls); }
  }

  /** So many failures at one time. */
  function FailuresAt(now: int, n: nat): seq<Call> {
    if n == 0 then [] else FailuresAt(now, n - 1) + [Failure(now)]
  }

  lemma {:induction false} FailuresOpen(c: Config, calls: seq<Call>, now: int, n: nat)
    requires n <= c.maxFailures && After(c, calls).failures == 0 && After(c, calls).mode == Closed
    ensures
      var s := After(c, calls + FailuresAt(now, n));
      s.failures == n && s.mode == if 0 < n == c.maxFailures then Open else Closed
  {
    if n == 0 {
      assert calls + FailuresAt(now, 0) == calls;
    } else {
      var earlier := calls + FailuresAt(now, n - 1);
      FailuresOpen(c, calls, now, n - 1);
      assert calls + FailuresAt(now, n) == earlier + [Failure(now)];
      assert (earlier + [Failure(now)])[..|earlier|] == earlier;
    }
  }

  // ----- when the mode changes

  /**
   * The whole transition table, on histories: a closed breaker opens on the failure that fills its count, an open one
   * turns half-open on a call in a quiet time and on nothing else, a half-open one closes on a success and opens on a
   * failure.
   */
  lemma ModeChanges(c: Config, calls: seq<Call>, call: Call)
    requires c.Sane() && Ordered(calls + [call])
    ensures
      var s, mode := After(c, calls), After(c, calls + [call]).mode;
      match s.mode
      case Closed => mode == if call.Failure? && s.failures + 1 >= c.maxFailures then Open else Closed
      case Open => mode == if call.Allow? && QuietSince(calls, call.now, c.resetTimeout) then HalfOpen else Open
      case HalfOpen => mode == if call.Success? then Closed else if call.Failure? then Open else HalfOpen
  {
    OrderedParts(calls, call);
    Appended(c, calls, call);
    ModeFollowsFailures(c, calls);
    AdmissionExact(c, calls, call.now);
  }

  lemma OrderedParts(calls: seq<Call>, call: Call)
    requires Ordered(calls + [call])
    ensures Ordered(calls) && NotBefore(calls, call.now)
  {
    var all := calls + [call];
    forall i, j | 0 <= i < j < |calls| ensures calls[i].now <= calls[j].now {
      assert all[i].now <= all[j].now;
    }
    if calls != [] { assert all[|calls| - 1].now <= all[|calls|].now; }
  }

  /** Late reports never close an open breaker: it stays open until a call comes in a quiet time. */
  lemma {:induction false} StaysOpen(c: Config, calls: seq<Call>, more: seq<Call>)
    requires c.Sane() && Ordered(calls + more) && After(c, calls).mode == Open
    requires forall n :: 0 <= n < |more| && more[n].Allow? ==>
      !QuietSince(calls + more[..n], more[n].now, c.resetTimeout)
    ensures After(c, calls + more).mode == Open
    decreases |more|
  {
    if more == [] {
      assert calls + more == calls;
    } else {
      var n := |more| - 1;
      var earlier := calls + more[..n];
      assert calls + more == earlier + [more[n]];
      OrderedParts(earlier, more[n]);
      forall k | 0 <= k < n && more[..n][k].Allow?
        ensures !QuietSince(calls + more[..n][..k], more[..n][k].now, c.resetTimeout)
      {
        assert more[..n][..k] == more[..k];
      }
      StaysOpen(c, calls, more[..n]);
      ModeChanges(c, earlier, more[n]);
    }
  }

  // ----- recovery

  /** From every reachable state, one admission after the quiet period and one success leave the breaker closed. */
  lemma {:induction false} NeverWedged(c: Config, calls: seq<Call>, now: int, later: int)
    requires c.Sane() && Ordered(calls) && NotBefore(calls, now) && now <= later
      && QuietSince(calls, now, c.resetTimeout)
    ensures Admits(c, After(c, calls), now)
    ensures
      var s := After(c, calls + [Allow(now)] + [Success(later)]);
      s.mode == Closed && s.failures < c.maxFailures && (After(c, calls).mode != Closed ==> s.failures == 0)
  {
    AdmissionExact(c, calls, now);
    ModeFollowsFailures(c, calls);
    Appended(c, calls, Allow(now));
    Appended(c, calls + [Allow(now)], Success(later));
  }

  /** How many of `more` are calls let through, after `calls`. */
  function Admitted(c: Config, calls: seq<Call>, more: seq<Call>): nat {
    if more == [] then 0
    else
      var n := |more| - 1;
      Admitted(c, calls, more[..n])
      + if more[n].Allow? && Admits(c, After(c, calls + more[..n]), more[n].now) then 1 else 0
  }

  /** A half-open breaker lets every call through until one of them reports back. */
  lemma {:induction false} ProbesUnlimited(c: Config, calls: seq<Call>, probes: seq<Call>)
    requires c.Sane() && After(c, calls).mode == HalfOpen
    requires forall p :: p in probes ==> p.Allow?
    ensures After(c, calls + probes) == After(c, calls) && Admitted(c, calls, probes) == |probes|
  {
    ModeFollowsFailures(c, calls);
    if probes == [] {
      assert calls + probes == calls;
    } else {
      var n := |probes| - 1;
      ProbesUnlimited(c, calls, probes[..n]);
      assert (calls + probes)[..|calls + probes| - 1] == calls + probes[..n];
      assert probes[n] in probes;
    }
  }

  /**
   * Between the call that finds the timeout over and the first report, a single probe is let through exactly when no
   * other call arrives.
   */
  lemma SingleProbeExactly(c: Config, calls: seq<Call>, opening: int, more: seq<Call>)
    requires c.Sane() && After(c, calls).mode == Open && Admits(c, After(c, calls), opening)
    requires forall p :: p in more ==> p.Allow?
    ensures Admitted(c, calls, [Allow(opening)] + more) == 1 + |more|
    ensures Admitted(c, calls, [Allow(opening)] + more) == 1 <==> more == []
  {
    Probed(c, calls, Allow(opening), more);
    assert (calls + [Allow(opening)])[..|calls|] == calls;
    ProbesUnlimited(c, calls + [Allow(opening)], more);
    assert [Allow(opening)][..0] == [] && calls + [] == calls;
  }

  lemma {:induction false} Probed(c: Config, calls: seq<Call>, first: Call, more: seq<Call>)
    ensures Admitted(c, calls, [first] + more) == Admitted(c, calls, [first]) + Admitted(c, calls + [first], more)
  {
    if more == [] {
      assert [first] + more == [first];
    } else {
      var n := |more| - 1;
      Probed(c, calls, first, more[..n]);
      assert ([first] + more)[..n + 1] == [first] + more[..n];
      assert calls + ([first] + more[..n]) == calls + [first] + more[..n];
    }
  }

  lemma {:induction false} FailuresAtZero(c: Config, n: nat)
    requires n <= c.maxFailures
    ensures After(c, seq(n, _ => Failure(0))) == State(if 0 < n == c.maxFailures then Open else Closed, n, 0, 0)
  {
    if n > 0 {
      FailuresAtZero(c, n - 1);
      assert seq(n, _ => Failure(0))[..n - 1] == seq(n - 1, _ => Failure(0));
    }
  }

  /** A time at which failures recorded at 0 are over. */
  function Later(c: Config): nat {
    if c.resetTimeout < 0 then 0 else c.resetTimeout + 1
  }

  /** Two probes at once, whatever the configuration: `maxFailures` failures, then two calls after the timeout. */
  lemma TwoProbes(c: Config)
    requires c.Sane()
    ensures
      var calls, now := seq(c.maxFailures, _ => Failure(0)), Later(c);
      Ordered(calls + [Allow(now), Allow(now)]) && Admitted(c, calls, [Allow(now), Allow(now)]) == 2
  {
    var calls, now := seq(c.maxFailures, _ => Failure(0)), Later(c);
    FailuresAtZero(c, c.maxFailures);
    SingleProbeExactly(c, calls, now, [Allow(now)]);
    assert [Allow(now)] + [Allow(now)] == [Allow(now), Allow(now)];
  }

  // ----- consecutive failures

  /** The failures recorded since the last success. */
  function Streak(calls: seq<Call>): nat {
    if calls == [] then 0
    else
      var n := |calls| - 1;
      match calls[n]
      case Allow(_) => Streak(calls[..n])
      case Success(_) => 0
      case Failure(_) => Streak(calls[..n]) + 1
  }

  ghost predicate SuccessBetween(calls: seq<Call>) {
    exists i, j :: 0 <= i < j < |calls| && calls[i].Failure? && calls[j].Success?
  }

  /** Every failure is in the streak exactly when no success follows one. */
  lemma {:induction false} StreakExact(calls: seq<Call>)
    ensures Streak(calls) <= Failures(calls)
    ensures Streak(calls) == Failures(calls) <==> !SuccessBetween(calls)
  {
    if calls != [] {
      var n := |calls| - 1;
      StreakExact(calls[..n]);
      if SuccessBetween(calls[..n]) {
        var i, j :| 0 <= i < j < n && calls[..n][i].Failure? && calls[..n][j].Success?;
        assert calls[i].Failure? && calls[j].Success?;
      } else if calls[n].Success? {
        SomeFailure(calls[..n]);
        if Failures(calls[..n]) > 0 {
          var i :| 0 <= i < n && calls[..n][i].Failure?;
          assert calls[i].Failure? && calls[n].Success?;
        }
      } else {
        assert forall i, j :: 0 <= i < j < |calls| && calls[i].Failure? && calls[j].Success? ==>
          calls[..n][i].Failure? && calls[..n][j].Success?;
      }
    }
  }

  lemma {:induction false} SomeFailure(calls: seq<Call>)
    ensures Failures(calls) > 0 <==> exists i :: 0 <= i < |calls| && calls[i].Failure?
  {
    if calls != [] {
      var n := |calls| - 1;
      SomeFailure(calls[..n]);
      if Failures(calls[..n]) > 0 {
        var i :| 0 <= i < n && calls[..n][i].Failure?;
        assert calls[i].Failure?;
      }
    }
  }

  /**
   * When a closed breaker opens, exactly `maxFailures` failures were recorded since it last became closed; they are
   * consecutive exactly when no success was recorded between two of them.
   */
  lemma OpensOnConsecutiveExactly(c: Config, calls: seq<Call>, from: nat)
    requires c.Sane() && calls != [] && from <= |calls| && ClosesAt(c, calls, from)
    requires forall n :: from < n <= |calls| ==> !ClosesAt(c, calls, n)
    requires After(c, calls[..|calls| - 1]).mode == Closed && After(c, calls).mode == Open
    ensures Failures(calls[from..]) == c.maxFailures
    ensures Streak(calls[from..]) == c.maxFailures <==> !SuccessBetween(calls[from..])
  {
    FailuresSinceClose(c, calls, from);
    ModeFollowsFailures(c, calls[..|calls| - 1]);
    StreakExact(calls[from..]);
  }

  /** A failure, a success, then more failures. */
  function Interrupted(n: nat): seq<Call> {
    [Failure(0), Success(1)] + seq(n, _ => Failure(2))
  }

  lemma {:induction false} InterruptedState(c: Config, n: nat)
    requires c.maxFailures >= 2 && n < c.maxFailures
    ensures
      After(c, Interrupted(n))
      == State(if n + 1 == c.maxFailures then Open else Closed, n + 1, 0, if n == 0 then 0 else 2)
    ensures Streak(Interrupted(n)) == n
  {
    var calls := Interrupted(n);
    if n == 0 {
      assert calls == [Failure(0), Success(1)] && calls[..1] == [Failure(0)] && [Failure(0)][..0] == [];
      assert After(c, [Failure(0)]) == State(Closed, 1, 0, 0);
    } else {
      InterruptedState(c, n - 1);
      assert calls[..|calls| - 1] == Interrupted(n - 1);
    }
  }

  /** While closed, a success changes nothing: one failure less than `maxFailures` in a row opens the breaker. */
  lemma FailuresNotConsecutive(c: Config)
    requires c.maxFailures >= 2
    ensures
      var calls := Interrupted(c.maxFailures - 1);
      Ordered(calls) && After(c, calls).mode == Open && Streak(calls) == c.maxFailures - 1
  {
    InterruptedState(c, c.maxFailures - 1);
  }

  // ----- the breaker of the documentation

  /** The documented breaker counts consecutive failures: a success while closed clears the count. */
  function DocumentedStep(c: Config, s: State, call: Call): State {
    if call.Success? && s.mode == Closed then s.(failures := 0) else Step(c, s, call)
  }

  function Documented(c: Config, calls: seq<Call>): State {
    if calls == [] then INITIAL
    else DocumentedStep(c, Documented(c, calls[..|calls| - 1]), calls[|calls| - 1])
  }

  ghost predicate SameState(c: Config, calls: seq<Call>) {
    After(c, calls) == Documented(c, calls)
  }

  ghost predicate AsDocumented(c: Config, calls: seq<Call>) {
    forall n :: 0 <= n <= |calls| ==> SameState(c, calls[..n])
  }

  /** A success recorded while the breaker is closed with failures on the count. */
  ghost predicate Forgiving(c: Config, calls: seq<Call>, n: nat)
    requires n < |calls|
  {
    calls[n].Success? && After(c, calls[..n]).mode == Closed && After(c, calls[..n]).failures != 0
  }

  ghost predicate NeverForgiving(c: Config, calls: seq<Call>) {
    forall n :: 0 <= n < |calls| ==> !Forgiving(c, calls, n)
  }

  lemma DocumentedGrows(c: Config, calls: seq<Call>)
    requires calls != []
    ensures AsDocumented(c, calls) <==> AsDocumented(c, calls[..|calls| - 1]) && SameState(c, calls)
  {
    var n := |calls| - 1;
    if AsDocumented(c, calls) {
      forall k | 0 <= k <= n ensures SameState(c, calls[..n][..k]) {
        assert calls[..n][..k] == calls[..k];
      }
      assert SameState(c, calls[..n + 1]) && calls[..n + 1] == calls;
    }
    if AsDocumented(c, calls[..n]) && SameState(c, calls) {
      forall k | 0 <= k <= n + 1 ensures SameState(c, calls[..k]) {
        if k <= n {
          assert calls[..n][..k] == calls[..k];
        } else {
          assert calls[..k] == calls;
        }
      }
    }
  }

  lemma ForgivingPrefix(c: Config, calls: seq<Call>, n: nat, k: nat)
    requires k < n <= |calls|
    ensures Forgiving(c, calls[..n], k) == Forgiving(c, calls, k)
  {
    assert calls[..n][..k] == calls[..k];
  }

  lemma ForgivingGrows(c: Config, calls: seq<Call>)
    requires calls != []
    ensures NeverForgiving(c, calls)
      <==> NeverForgiving(c, calls[..|calls| - 1]) && !Forgiving(c, calls, |calls| - 1)
  {
    var n := |calls| - 1;
    forall k | 0 <= k < n ensures Forgiving(c, calls[..n], k) == Forgiving(c, calls, k) {
      ForgivingPrefix(c, calls, n, k);
    }
  }

  /**
   * The breaker is in the documented one's state all the way through a run exactly when no success arrives while it is
   * closed with failures on the count.
   */
  lemma {:induction false} DocumentedExactly(c: Config, calls: seq<Call>)
    ensures AsDocumented(c, calls) <==> NeverForgiving(c, calls)
  {
    if calls != [] {
      var earlier := calls[..|calls| - 1];
      DocumentedExactly(c, earlier);
      DocumentedGrows(c, calls);
      ForgivingGrows(c, calls);
      assert earlier[..|earlier|] == earlier;
    }
  }
}
