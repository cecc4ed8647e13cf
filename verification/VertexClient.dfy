/** How the outcomes of Vertex AI calls reach the breaker (internal/vertex/client.go). */
module VertexClient {
  import opened CircuitBreaker
  import opened Sequences

  /** The end of an admitted call: a response, an HTTP status other than 200, or a transport error. */
  datatype Outcome = Delivered | StatusError(status: int) | TransportError

  /** Vertex AI is unreachable or fails: anything but a response or a status that blames the request. */
  predicate ServerTrouble(o: Outcome) {
    o == TransportError || (o.StatusError? && (o.status >= 500 || o.status == 0))
  }

  predicate ShouldTripBreaker(o: Outcome)
    requires !o.Delivered?
  {
    match o
    case StatusError(status) => status >= 500 || status == 0
    case TransportError => true
  }

  datatype Reply = Refused | Failed(outcome: Outcome) | Served

  /** The breaker operations that other callers perform while a call is out. */
  method Replay(b: Breaker, others: seq<Call>)
    requires b.Valid() && Ordered(others) && (others != [] ==> NotBefore(b.calls, others[0].now))
    modifies b
    ensures b.Valid() && b.calls == old(b.calls) + others
  {
    for i := 0 to |others|
      invariant b.Valid() && b.calls == old(b.calls) + others[..i]
    {
      match others[i] {
        case Allow(now) => var _ := b.Admit(now);
        case Success(now) => b.RecordSuccess(now);
        case Failure(now) => b.RecordFailure(now);
      }
      assert others[..i + 1] == others[..i] + [others[i]];
    }
    assert others[..|others|] == others;
  }

  lemma EndsBy(calls: seq<Call>, others: seq<Call>, end: int)
    requires NotBefore(calls, end) && NotBefore(others, end)
    ensures NotBefore(calls + others, end)
  {
  }

  /** What must reach the breaker: success, trouble, and nothing about a request that was at fault itself. */
  function Report(outcome: Outcome, now: int): seq<Call> {
    if outcome == Delivered then [Success(now)] else if ServerTrouble(outcome) then [Failure(now)] else []
  }

  /** The end of an admitted call. */
  method Conclude(b: Breaker, outcome: Outcome, end: int) returns (reply: Reply)
    requires b.Valid() && NotBefore(b.calls, end)
    modifies b
    ensures b.Valid() && b.calls == old(b.calls) + Report(outcome, end)
    ensures reply == if outcome == Delivered then Served else Failed(outcome)
  {
    if outcome == Delivered {
      b.RecordSuccess(end);
      return Served;
    }
    if ShouldTripBreaker(outcome) {
      b.RecordFailure(end);
    }
    reply := Failed(outcome);
  }

  /** `CallJSON`, `CallJSONForModel`, `CallStream` and `CallStreamRaw` share this skeleton. */
  method GuardedCall(b: Breaker, start: int, others: seq<Call>, outcome: Outcome, end: int) returns (reply: Reply)
    requires b.Valid() && NotBefore(b.calls, start) && start <= end && Ordered(others)
    requires others != [] ==> start <= others[0].now && others[|others| - 1].now <= end
    modifies b
    ensures b.Valid()
    ensures reply == Refused <==> !Admits(b.config, old(b.Current()), start)
    ensures reply == Refused ==> b.calls == old(b.calls) + [Allow(start)]
    ensures reply != Refused ==> b.calls == old(b.calls) + [Allow(start)] + others + Report(outcome, end)
    ensures reply != Refused ==> reply == if outcome == Delivered then Served else Failed(outcome)
  {
    var ok := b.Admit(start);
    if !ok {
      return Refused;
    }
    ghost var admitted := b.calls;
    Replay(b, others);
    EndsBy(admitted, others, end);
    reply := Conclude(b, outcome, end);
  }

  // ----- any number of calls in flight

  /** A call starting, or any earlier one finishing. */
  datatype Event = Begin(now: int) | Finish(outcome: Outcome, now: int)

  /** The operations one event performs. */
  function Operations(e: Event): seq<Call> {
    match e
    case Begin(now) => [Allow(now)]
    case Finish(o, now) => Report(o, now)
  }

  function BreakerCalls(events: seq<Event>): seq<Call> {
    FlatMap(Operations, events)
  }

  lemma BreakerCallsNext(events: seq<Event>, e: Event)
    ensures BreakerCalls(events + [e]) == BreakerCalls(events) + Operations(e)
  {
    FlatMapAppend(Operations, events, [e]);
    FlatMapOne(Operations, e);
  }

  ghost predicate Chronological(events: seq<Event>) {
    forall i, j :: 0 <= i < j < |events| ==> events[i].now <= events[j].now
  }

  predicate Trips(e: Event) {
    e.Finish? && ServerTrouble(e.outcome)
  }

  /** No call has come back with a server or transport error within `timeout` of `now`. */
  ghost predicate Calm(events: seq<Event>, now: int, timeout: int) {
    forall k :: 0 <= k < |events| && Trips(events[k]) ==> now - events[k].now > timeout
  }

  lemma OrderedUntil(calls: seq<Call>, more: seq<Call>, now: int)
    requires Ordered(calls) && NotBefore(calls, now) && |more| <= 1 && (more != [] ==> more[0].now == now)
    ensures Ordered(calls + more) && NotBefore(calls + more, now)
  {
  }

  lemma {:induction false} CallsOrdered(events: seq<Event>)
    requires Chronological(events)
    ensures Ordered(BreakerCalls(events))
    ensures events != [] ==> NotBefore(BreakerCalls(events), events[|events| - 1].now)
  {
    if events != [] {
      var n := |events| - 1;
      CallsOrdered(events[..n]);
      assert n > 0 ==> events[n - 1].now <= events[n].now;
      OrderedUntil(BreakerCalls(events[..n]), Operations(events[n]), events[n].now);
      BreakerCallsNext(events[..n], events[n]);
      assert events[..n] + [events[n]] == events;
    }
  }

  lemma CalmNext(events: seq<Event>, e: Event, now: int, timeout: int)
    ensures Calm(events + [e], now, timeout) <==> Calm(events, now, timeout) && (Trips(e) ==> now - e.now > timeout)
  {
    var all := events + [e];
    assert all[|events|] == e && forall k :: 0 <= k < |events| ==> all[k] == events[k];
  }

  lemma OperationsQuiet(e: Event, now: int, timeout: int)
    ensures QuietSince(Operations(e), now, timeout) <==> (Trips(e) ==> now - e.now > timeout)
  {
    if Trips(e) { assert Operations(e)[0] == Failure(e.now); }
  }

  lemma {:induction false} CalmIsQuiet(events: seq<Event>, now: int, timeout: int)
    ensures Calm(events, now, timeout) <==> QuietSince(BreakerCalls(events), now, timeout)
  {
    if events != [] {
      var earlier, last := events[..|events| - 1], events[|events| - 1];
      CalmIsQuiet(earlier, now, timeout);
      assert earlier + [last] == events;
      CalmNext(earlier, last, now, timeout);
      OperationsQuiet(last, now, timeout);
      BreakerCallsNext(earlier, last);
      QuietAppend(BreakerCalls(earlier), Operations(last), now, timeout);
    }
  }

  lemma QuietAppend(a: seq<Call>, b: seq<Call>, now: int, timeout: int)
    ensures QuietSince(a + b, now, timeout) <==> QuietSince(a, now, timeout) && QuietSince(b, now, timeout)
  {
    if QuietSince(a + b, now, timeout) {
      forall i | 0 <= i < |a| && a[i].Failure? ensures now - a[i].now > timeout { assert (a + b)[i] == a[i]; }
      forall i | 0 <= i < |b| && b[i].Failure? ensures now - b[i].now > timeout { assert (a + b)[|a| + i] == b[i]; }
    }
  }

  /** The same outcome so many times. */
  function Repeated(outcome: Outcome, now: int, n: nat): seq<Event> {
    if n == 0 then [] else Repeated(outcome, now, n - 1) + [Finish(outcome, now)]
  }

  lemma {:induction false} TroubleRecorded(outcome: Outcome, now: int, n: nat)
    requires ServerTrouble(outcome)
    ensures BreakerCalls(Repeated(outcome, now, n)) == FailuresAt(now, n)
  {
    if n > 0 {
      TroubleRecorded(outcome, now, n - 1);
      BreakerCallsNext(Repeated(outcome, now, n - 1), Finish(outcome, now));
    }
  }

  /**
   * A refused connection, a timeout, or a status of 500 or more, `maxFailures` times, opens a closed breaker with no
   * failure on the count.
   */
  lemma TroubleOpens(c: Config, events: seq<Event>, outcome: Outcome, now: int)
    requires c.Sane() && (outcome == TransportError || (outcome.StatusError? && outcome.status >= 500))
    requires After(c, BreakerCalls(events)).mode == Closed && After(c, BreakerCalls(events)).failures == 0
    ensures After(c, BreakerCalls(events + Repeated(outcome, now, c.maxFailures))).mode == Open
  {
    TroubleRecorded(outcome, now, c.maxFailures);
    FlatMapAppend(Operations, events, Repeated(outcome, now, c.maxFailures));
    FailuresOpen(c, BreakerCalls(events), now, c.maxFailures);
  }

  /** And after a calm time, one call that succeeds closes it again. */
  lemma ClientRecovers(c: Config, events: seq<Event>, now: int, end: int)
    requires c.Sane() && Chronological(events) && (events != [] ==> events[|events| - 1].now <= now) && now <= end
    requires Calm(events, now, c.resetTimeout)
    ensures Admits(c, After(c, BreakerCalls(events)), now)
    ensures After(c, BreakerCalls(events + [Begin(now)] + [Finish(Delivered, end)])).mode == Closed
  {
    CallsOrdered(events);
    CalmIsQuiet(events, now, c.resetTimeout);
    NeverWedged(c, BreakerCalls(events), now, end);
    BreakerCallsNext(events, Begin(now));
    BreakerCallsNext(events + [Begin(now)], Finish(Delivered, end));
  }

  /**
   * In terms of calls: one is let through exactly when the breaker is closed or Vertex AI has been calm long enough.
   */
  lemma {:induction false} ClientAdmission(c: Config, events: seq<Event>, now: int)
    requires c.Sane() && Chronological(events) && (events != [] ==> events[|events| - 1].now <= now)
    ensures
      var s := After(c, BreakerCalls(events));
      Admits(c, s, now) <==> s.mode == Closed || Calm(events, now, c.resetTimeout)
  {
    CallsOrdered(events);
    CalmIsQuiet(events, now, c.resetTimeout);
    AdmissionExact(c, BreakerCalls(events), now);
  }

  /** A status error below 500 leaves the breaker exactly as it was; in particular a half-open one stays half-open. */
  lemma ClientErrorInvisible(c: Config, events: seq<Event>, status: int, now: int)
    ensures After(c, BreakerCalls(events + [Finish(StatusError(status), now)])) == After(c, BreakerCalls(events))
      <== status < 500 && status != 0
    ensures status >= 500 || status == 0 ==>
      After(c, BreakerCalls(events + [Finish(StatusError(status), now)]))
        == Step(c, After(c, BreakerCalls(events)), Failure(now))
  {
    var calls := BreakerCalls(events);
    BreakerCallsNext(events, Finish(StatusError(status), now));
    if status < 500 && status != 0 {
      assert calls + [] == calls;
    } else {
      assert (calls + [Failure(now)])[..|calls|] == calls;
    }
  }
}
