/**
 * The webhook notifier (internal/webhook): a bounded queue, one worker, retries with backoff, and a drain on
 * shutdown.
 */
module Webhook {

  const MAX_RETRIES := 3
  const BASE_BACKOFF := 500
  const MAX_BACKOFF := 10000

  datatype BlockEvent = BlockEvent(
    action: string, model: string, email: string, reason: string, requestID: string, prompt: string)

  // ----- backoff

  function Pow2(n: nat): nat {
    if n == 0 then 1 else 2 * Pow2(n - 1)
  }

  /** Milliseconds waited before the given attempt; the first is no retry. */
  function Backoff(attempt: nat): nat {
    if attempt == 0 then 0
    else
      var ms := BASE_BACKOFF * Pow2(attempt - 1);
      if ms < MAX_BACKOFF then ms else MAX_BACKOFF
  }

  /** The waits before the first so many attempts. */
  function TotalBackoff(attempts: nat): nat {
    if attempts == 0 then 0 else TotalBackoff(attempts - 1) + Backoff(attempts - 1)
  }

  /** Backoffs never shrink and never exceed the cap, whatever the number of retries. */
  lemma {:induction false} BackoffMonotone(a: nat, b: nat)
    requires a <= b
    ensures Backoff(a) <= Backoff(b) <= MAX_BACKOFF
  {
    if a < b { BackoffMonotone(a, b - 1); }
  }

  /** The first retry waits half a second, each further one twice as long, up to ten seconds. */
  lemma BackoffDoubles(attempt: nat)
    requires attempt >= 1
    ensures Backoff(1) == 500
    ensures Backoff(attempt + 1) == if Backoff(attempt) < 5000 then 2 * Backoff(attempt) else 10000
  {
    assert Pow2(attempt) == 2 * Pow2(attempt - 1);
  }

  lemma {:induction false} TotalGrows(a: nat, b: nat)
    requires a <= b
    ensures TotalBackoff(a) <= TotalBackoff(b)
  {
    if a < b { TotalGrows(a, b - 1); }
  }

  lemma BackoffBudget()
    ensures TotalBackoff(MAX_RETRIES + 1) == 3500
  {
    assert Backoff(0) == 0 && Backoff(1) == 500 && Backoff(2) == 1000;
    assert Pow2(2) == 4 && Backoff(3) == 2000;
    assert TotalBackoff(1) == 0 && TotalBackoff(2) == 500;
    assert TotalBackoff(3) == 1500 && TotalBackoff(4) == 3500;
  }

  // ----- one send

  datatype SendOutcome = MarshalError | RequestError | NetworkError | Status(code: int)

  /** Only network errors and server errors are worth a retry. */
  predicate Settled(o: SendOutcome) {
    match o
    case NetworkError => false
    case Status(code) => code < 500
    case _ => true
  }

  // ----- the protocol as a state machine

  /** An event the worker is done with: the sends made, the time waited between them, and whether one settled it. */
  datatype Finished = Finished(evt: BlockEvent, attempts: nat, waited: nat, settled: bool)

  /**
   * Where the worker is. `Receiving` is the outer select, `Draining` the inner one. While it handles an event it has
   * made `attempt` sends and waited `waited` between them; `Sending` is about to make the next, `Waiting` is in the
   * select before it. `draining` says which select it came from.
   */
  datatype Worker =
    | Receiving
    | Draining
    | Sending(evt: BlockEvent, attempt: nat, waited: nat, draining: bool)
    | Waiting(evt: BlockEvent, attempt: nat, waited: nat, draining: bool)
    | Exited

  datatype State = State(
    queue: seq<BlockEvent>, stopped: bool, worker: Worker,
    accepted: seq<BlockEvent>, dropped: seq<BlockEvent>, finished: seq<Finished>)

  datatype Action =
    | Notify(evt: BlockEvent)
    | Stop
    | Receive
    | SeeStop
    | DrainNext
    | DrainEnd
    | Send(ok: bool)
    | BackoffOver
    | BackoffStopped(elapsed: nat)

  const INITIAL := State([], false, Receiving, [], [], [])

  predicate Enabled(s: State, a: Action) {
    match a
    case Notify(_) => true
    case Stop => !s.stopped
    case Receive => s.worker == Receiving && s.queue != []
    case SeeStop => s.worker == Receiving && s.stopped
    case DrainNext => s.worker == Draining && s.queue != []
    case DrainEnd => s.worker == Draining && s.queue == []
    case Send(_) => s.worker.Sending?
    case BackoffOver => s.worker.Waiting?
    case BackoffStopped(elapsed) => s.worker.Waiting? && s.stopped && elapsed <= Backoff(s.worker.attempt)
  }

  /** The worker is done with its event and returns to the select it came from. */
  function Finish(s: State, attempts: nat, waited: nat, settled: bool): State
    requires s.worker.Sending? || s.worker.Waiting?
  {
    s.(worker := if s.worker.draining then Draining else Receiving,
       finished := s.finished + [Finished(s.worker.evt, attempts, waited, settled)])
  }

  function Step(capacity: nat, s: State, a: Action): State
    requires Enabled(s, a)
  {
    match a
    case Notify(evt) =>
      if |s.queue| < capacity then s.(queue := s.queue + [evt], accepted := s.accepted + [evt])
      else s.(dropped := s.dropped + [evt])
    case Stop => s.(stopped := true)
    case Receive => s.(queue := s.queue[1..], worker := Sending(s.queue[0], 0, 0, false))
    case SeeStop => s.(worker := Draining)
    case DrainNext => s.(queue := s.queue[1..], worker := Sending(s.queue[0], 0, 0, true))
    case DrainEnd => s.(worker := Exited)
    case Send(ok) =>
      var w, made := s.worker, s.worker.attempt + 1;
      if ok || made > MAX_RETRIES then Finish(s, made, w.waited, ok)
      else s.(worker := Waiting(w.evt, made, w.waited, w.draining))
    case BackoffOver =>
      var w := s.worker;
      s.(worker := Sending(w.evt, w.attempt, w.waited + Backoff(w.attempt), w.draining))
    case BackoffStopped(elapsed) => Finish(s, s.worker.attempt, s.worker.waited + elapsed, false)
  }

  /** Every prefix of a run takes only enabled actions. */
  predicate Runs(capacity: nat, s: State, actions: seq<Action>)
    decreases |actions|
  {
    actions == [] || (Enabled(s, actions[0]) && Runs(capacity, Step(capacity, s, actions[0]), actions[1..]))
  }

  function After(capacity: nat, s: State, actions: seq<Action>): State
    requires Runs(capacity, s, actions)
    decreases |actions|
  {
    if actions == [] then s else After(capacity, Step(capacity, s, actions[0]), actions[1..])
  }

  // ----- conservation and order

  function Events(finished: seq<Finished>): seq<BlockEvent> {
    if finished == [] then [] else Events(finished[..|finished| - 1]) + [finished[|finished| - 1].evt]
  }

  function InHand(w: Worker): seq<BlockEvent> {
    if w.Sending? || w.Waiting? then [w.evt] else []
  }

  /** Nothing accepted is lost or reordered. */
  ghost predicate Conserved(s: State) {
    s.accepted == Events(s.finished) + InHand(s.worker) + s.queue
  }

  ghost predicate Placed(w: Worker, stopped: bool) {
    && (w.Sending? ==> w.attempt <= MAX_RETRIES && w.waited == TotalBackoff(w.attempt + 1))
    && (w.Waiting? ==> 1 <= w.attempt <= MAX_RETRIES && w.waited == TotalBackoff(w.attempt))
    && (w.Draining? || w.Exited? || (InHand(w) != [] && w.draining) ==> stopped)
  }

  /** One to four sends, with all the waits between them, and at most part of one more. */
  ghost predicate WithinBudget(attempts: nat, waited: nat) {
    1 <= attempts <= MAX_RETRIES + 1 && TotalBackoff(attempts) <= waited <= TotalBackoff(MAX_RETRIES + 1)
  }

  ghost predicate Bounded(capacity: nat, s: State) {
    && |s.queue| <= capacity
    && Placed(s.worker, s.stopped)
    && (forall f :: f in s.finished ==> WithinBudget(f.attempts, f.waited))
  }

  ghost predicate Inv(capacity: nat, s: State) {
    Conserved(s) && Bounded(capacity, s)
  }

  lemma EventsNext(finished: seq<Finished>, f: Finished)
    ensures Events(finished + [f]) == Events(finished) + [f.evt]
  {
    assert (finished + [f])[..|finished|] == finished;
  }

  lemma HandEmptied(done: seq<BlockEvent>, evt: BlockEvent, queue: seq<BlockEvent>)
    ensures done + [evt] + queue == (done + [evt]) + [] + queue
  {
  }

  lemma FinishConserves(s: State, attempts: nat, waited: nat, settled: bool)
    requires Conserved(s) && (s.worker.Sending? || s.worker.Waiting?)
    ensures Conserved(Finish(s, attempts, waited, settled))
  {
    EventsNext(s.finished, Finished(s.worker.evt, attempts, waited, settled));
    HandEmptied(Events(s.finished), s.worker.evt, s.queue);
  }

  lemma FinishBounded(capacity: nat, s: State, attempts: nat, waited: nat, settled: bool)
    requires Bounded(capacity, s) && (s.worker.Sending? || s.worker.Waiting?) && WithinBudget(attempts, waited)
    ensures Bounded(capacity, Finish(s, attempts, waited, settled))
  {
  }

  lemma FinishKeepsInv(capacity: nat, s: State, attempts: nat, waited: nat, settled: bool)
    requires Inv(capacity, s) && (s.worker.Sending? || s.worker.Waiting?) && WithinBudget(attempts, waited)
    ensures Inv(capacity, Finish(s, attempts, waited, settled))
  {
    FinishConserves(s, attempts, waited, settled);
    FinishBounded(capacity, s, attempts, waited, settled);
  }

  lemma TakeKeepsInv(capacity: nat, s: State, draining: bool)
    requires Inv(capacity, s) && s.queue != [] && s.worker == if draining then Draining else Receiving
    ensures Inv(capacity, s.(queue := s.queue[1..], worker := Sending(s.queue[0], 0, 0, draining)))
  {
    var done := Events(s.finished);
    assert s.queue == [s.queue[0]] + s.queue[1..];
    assert done + [] + s.queue == done + [s.queue[0]] + s.queue[1..];
  }

  lemma NotifyKeepsInv(capacity: nat, s: State, evt: BlockEvent)
    requires Inv(capacity, s)
    ensures Inv(capacity, Step(capacity, s, Notify(evt)))
  {
    var done := Events(s.finished) + InHand(s.worker);
    assert done + s.queue + [evt] == done + (s.queue + [evt]);
  }

  /** The other steps only move the worker, or set the flag. */
  lemma MoveKeepsInv(capacity: nat, s: State, a: Action)
    requires Inv(capacity, s) && Enabled(s, a)
    requires a.Stop? || a.SeeStop? || a.DrainEnd? || a.BackoffOver?
      || (a.Send? && !a.ok && s.worker.attempt < MAX_RETRIES)
    ensures Inv(capacity, Step(capacity, s, a))
  {
    var s' := Step(capacity, s, a);
    assert s' == s.(worker := s'.worker, stopped := s'.stopped);
    assert InHand(s'.worker) == InHand(s.worker) && Placed(s'.worker, s'.stopped);
  }

  lemma SendBudget(w: Worker, stopped: bool)
    requires Placed(w, stopped) && w.Sending?
    ensures WithinBudget(w.attempt + 1, w.waited)
  {
    TotalGrows(w.attempt + 1, MAX_RETRIES + 1);
  }

  lemma SendFinishes(capacity: nat, s: State, ok: bool)
    requires s.worker.Sending? && (ok || s.worker.attempt == MAX_RETRIES)
    ensures Step(capacity, s, Send(ok)) == Finish(s, s.worker.attempt + 1, s.worker.waited, ok)
  {
  }

  lemma SendKeepsInv(capacity: nat, s: State, ok: bool)
    requires Inv(capacity, s) && s.worker.Sending? && (ok || s.worker.attempt == MAX_RETRIES)
    ensures Inv(capacity, Step(capacity, s, Send(ok)))
  {
    SendBudget(s.worker, s.stopped);
    SendFinishes(capacity, s, ok);
    FinishKeepsInv(capacity, s, s.worker.attempt + 1, s.worker.waited, ok);
  }

  lemma AbortKeepsInv(capacity: nat, s: State, elapsed: nat)
    requires Inv(capacity, s) && Enabled(s, BackoffStopped(elapsed))
    ensures Inv(capacity, Step(capacity, s, BackoffStopped(elapsed)))
  {
    TotalGrows(s.worker.attempt + 1, MAX_RETRIES + 1);
    FinishKeepsInv(capacity, s, s.worker.attempt, s.worker.waited + elapsed, false);
  }

  lemma StepKeepsInv(capacity: nat, s: State, a: Action)
    requires Inv(capacity, s) && Enabled(s, a)
    ensures Inv(capacity, Step(capacity, s, a))
  {
    if a.Notify? {
      NotifyKeepsInv(capacity, s, a.evt);
    } else if a.Receive? || a.DrainNext? {
      TakeKeepsInv(capacity, s, a.DrainNext?);
    } else if a.BackoffStopped? {
      AbortKeepsInv(capacity, s, a.elapsed);
    } else if a.Send? && (a.ok || s.worker.attempt == MAX_RETRIES) {
      SendKeepsInv(capacity, s, a.ok);
    } else {
      MoveKeepsInv(capacity, s, a);
    }
  }

  /** What `Notify` was called with, in order. */
  function Notified(actions: seq<Action>): seq<BlockEvent> {
    if actions == [] then []
    else (if actions[0].Notify? then [actions[0].evt] else []) + Notified(actions[1..])
  }

  lemma {:induction false} RunKeepsInv(capacity: nat, s: State, actions: seq<Action>)
    requires Inv(capacity, s) && Runs(capacity, s, actions)
    ensures Inv(capacity, After(capacity, s, actions))
    decreases |actions|
  {
    if actions != [] {
      StepKeepsInv(capacity, s, actions[0]);
      RunKeepsInv(capacity, Step(capacity, s, actions[0]), actions[1..]);
    }
  }

  lemma StepCounts(capacity: nat, s: State, a: Action)
    requires Enabled(s, a)
    ensures
      var s' := Step(capacity, s, a);
      multiset(s'.accepted) + multiset(s'.dropped)
      == multiset(s.accepted) + multiset(s.dropped) + multiset(if a.Notify? then [a.evt] else [])
  {
  }

  lemma {:induction false} RunCounts(capacity: nat, s: State, actions: seq<Action>)
    requires Runs(capacity, s, actions)
    ensures
      var s' := After(capacity, s, actions);
      multiset(s'.accepted) + multiset(s'.dropped)
        == multiset(s.accepted) + multiset(s.dropped) + multiset(Notified(actions))
    decreases |actions|
  {
    if actions != [] {
      StepCounts(capacity, s, actions[0]);
      RunCounts(capacity, Step(capacity, s, actions[0]), actions[1..]);
    }
  }

  /**
   * In every reachable state, the accepted events are those finished, then the one in hand, then those queued; the
   * queue is within its capacity; and every notified event was either accepted or dropped.
   */
  lemma Conservation(capacity: nat, actions: seq<Action>)
    requires Runs(capacity, INITIAL, actions)
    ensures
      var s := After(capacity, INITIAL, actions);
      && s.accepted == Events(s.finished) + InHand(s.worker) + s.queue
      && |s.queue| <= capacity
      && multiset(s.accepted) + multiset(s.dropped) == multiset(Notified(actions))
  {
    RunKeepsInv(capacity, INITIAL, actions);
    RunCounts(capacity, INITIAL, actions);
  }

  // ----- before the shutdown

  /** The event was settled, or all four sends were made, after the full waits. */
  ghost predicate Persisted(f: Finished) {
    (f.settled || f.attempts == MAX_RETRIES + 1) && f.waited == TotalBackoff(f.attempts)
  }

  ghost predicate AllPersisted(s: State) {
    s.stopped || forall f :: f in s.finished ==> Persisted(f)
  }

  lemma StepPersists(capacity: nat, s: State, a: Action)
    requires Inv(capacity, s) && Enabled(s, a) && AllPersisted(s)
    ensures AllPersisted(Step(capacity, s, a))
  {
  }

  lemma {:induction false} RunPersists(capacity: nat, s: State, actions: seq<Action>)
    requires Inv(capacity, s) && Runs(capacity, s, actions) && AllPersisted(s)
    ensures AllPersisted(After(capacity, s, actions))
    decreases |actions|
  {
    if actions != [] {
      StepKeepsInv(capacity, s, actions[0]);
      StepPersists(capacity, s, actions[0]);
      RunPersists(capacity, Step(capacity, s, actions[0]), actions[1..]);
    }
  }

  /** Until it is stopped, the worker neither ends nor gives up on an event before the fourth send. */
  lemma NeverGivesUpEarly(capacity: nat, actions: seq<Action>)
    requires Runs(capacity, INITIAL, actions) && !After(capacity, INITIAL, actions).stopped
    ensures
      var s := After(capacity, INITIAL, actions);
      && s.worker != Draining && s.worker != Exited
      && forall f :: f in s.finished ==>
           (f.settled || f.attempts == MAX_RETRIES + 1) && f.waited == TotalBackoff(f.attempts)
  {
    RunKeepsInv(capacity, INITIAL, actions);
    RunPersists(capacity, INITIAL, actions);
  }

  // ----- shutdown

  predicate Working(a: Action) {
    !a.Notify? && !a.Stop?
  }

  function Rank(w: Worker): nat {
    match w
    case Exited => 0
    case Draining => 1
    case Receiving => 2
    case Sending(_, k, _, d) => if k > MAX_RETRIES then 0 else 2 * (MAX_RETRIES - k) + (if d then 3 else 4)
    case Waiting(_, k, _, d) => if k > MAX_RETRIES then 0 else 2 * (MAX_RETRIES - k) + (if d then 4 else 5)
  }

  /** Decreases with every step of the worker. */
  function Measure(s: State): nat {
    10 * |s.queue| + Rank(s.worker)
  }

  lemma WorkDecreases(capacity: nat, s: State, a: Action)
    requires Inv(capacity, s) && Enabled(s, a) && Working(a)
    ensures Measure(Step(capacity, s, a)) < Measure(s)
  {
  }

  /** Once stopped, a worker that has not exited can always take a step: the shutdown cannot hang. */
  lemma StoppedWorkerMoves(s: State)
    requires s.stopped && s.worker != Exited
    ensures exists a :: Working(a) && Enabled(s, a)
  {
    match s.worker
    case Receiving => assert Enabled(s, SeeStop) && Working(SeeStop);
    case Draining =>
      var next := if s.queue == [] then DrainEnd else DrainNext;
      assert Enabled(s, next) && Working(next);
    case Sending(_, _, _, _) => assert Enabled(s, Send(true)) && Working(Send(true));
    case Waiting(_, _, _, _) => assert Enabled(s, BackoffOver) && Working(BackoffOver);
  }

  /** After `Stop` and without further notifications, the worker takes at most `Measure(s)` steps. */
  lemma {:induction false} ShutdownTerminates(capacity: nat, s: State, actions: seq<Action>)
    requires Inv(capacity, s) && Runs(capacity, s, actions) && forall a :: a in actions ==> Working(a)
    ensures |actions| + Measure(After(capacity, s, actions)) <= Measure(s)
    decreases |actions|
  {
    if actions != [] {
      assert actions[0] in actions && forall a :: a in actions[1..] ==> a in actions;
      StepKeepsInv(capacity, s, actions[0]);
      WorkDecreases(capacity, s, actions[0]);
      ShutdownTerminates(capacity, Step(capacity, s, actions[0]), actions[1..]);
    }
  }

  /** The steps of the worker in a run. */
  function WorkSteps(actions: seq<Action>): nat {
    if actions == [] then 0 else (if Working(actions[0]) then 1 else 0) + WorkSteps(actions[1..])
  }

  lemma OthersCost(capacity: nat, s: State, a: Action)
    requires Enabled(s, a) && !Working(a)
    ensures Measure(Step(capacity, s, a)) <= Measure(s) + if a.Notify? then 10 else 0
  {
  }

  /**
   * While others keep notifying, the worker takes at most ten steps for each notification on top of `Measure(s)`: with
   * finitely many of them the shutdown ends.
   */
  lemma {:induction false} WorkBounded(capacity: nat, s: State, actions: seq<Action>)
    requires Inv(capacity, s) && Runs(capacity, s, actions)
    ensures WorkSteps(actions) + Measure(After(capacity, s, actions)) <= Measure(s) + 10 * |Notified(actions)|
    decreases |actions|
  {
    if actions != [] {
      StepKeepsInv(capacity, s, actions[0]);
      if Working(actions[0]) {
        WorkDecreases(capacity, s, actions[0]);
      } else {
        OthersCost(capacity, s, actions[0]);
      }
      WorkBounded(capacity, Step(capacity, s, actions[0]), actions[1..]);
    }
  }

  /** Notifications that arrive one per send. */
  function Rounds(evt: BlockEvent, k: nat): seq<Action> {
    if k == 0 then [] else [Notify(evt), DrainNext, Send(true)] + Rounds(evt, k - 1)
  }

  lemma OneRound(capacity: nat, s: State, evt: BlockEvent, rest: seq<Action>)
    requires capacity >= 1 && s.worker == Draining && s.queue == []
    ensures
      var next := s.(accepted := s.accepted + [evt], finished := s.finished + [Finished(evt, 1, 0, true)]);
      var actions := [Notify(evt), DrainNext, Send(true)] + rest;
      && (Runs(capacity, next, rest) ==> Runs(capacity, s, actions))
      && (Runs(capacity, next, rest) ==> After(capacity, s, actions) == After(capacity, next, rest))
  {
    var next := s.(accepted := s.accepted + [evt], finished := s.finished + [Finished(evt, 1, 0, true)]);
    var s1 := Step(capacity, s, Notify(evt));
    var s2 := Step(capacity, s1, DrainNext);
    assert s1.queue == [evt] && s1.queue[1..] == [];
    assert Step(capacity, s2, Send(true)) == next;
    var actions := [Notify(evt), DrainNext, Send(true)] + rest;
    assert actions[1..] == [DrainNext, Send(true)] + rest;
    assert actions[1..][1..] == [Send(true)] + rest && actions[1..][1..][1..] == rest;
    if Runs(capacity, next, rest) {
      assert Runs(capacity, s2, [Send(true)] + rest);
      assert After(capacity, s2, [Send(true)] + rest) == After(capacity, next, rest);
      assert Runs(capacity, s1, actions[1..]) && After(capacity, s1, actions[1..]) == After(capacity, next, rest);
    }
  }

  /**
   * Without an end to the notifications there is none to the shutdown: a draining worker can be kept draining for any
   * number of rounds, each time with another event accepted after `Stop`.
   */
  lemma {:induction false} DrainGoesOn(capacity: nat, s: State, evt: BlockEvent, k: nat)
    requires capacity >= 1 && s.worker == Draining && s.queue == []
    ensures Runs(capacity, s, Rounds(evt, k))
    ensures
      var end := After(capacity, s, Rounds(evt, k));
      end.worker == Draining && end.queue == [] && |end.finished| == |s.finished| + k && end.stopped == s.stopped
    decreases k
  {
    if k > 0 {
      var next := s.(accepted := s.accepted + [evt], finished := s.finished + [Finished(evt, 1, 0, true)]);
      DrainGoesOn(capacity, next, evt, k - 1);
      OneRound(capacity, s, evt, Rounds(evt, k - 1));
    }
  }

  /** So no number of worker steps bounds the shutdown of a notifier just started. */
  lemma StopMayWait(capacity: nat, evt: BlockEvent, k: nat)
    requires capacity >= 1
    ensures
      var actions := [Stop, SeeStop] + Rounds(evt, k);
      && Runs(capacity, INITIAL, actions)
      && After(capacity, INITIAL, actions).worker == Draining && |After(capacity, INITIAL, actions).finished| == k
  {
    var s1 := Step(capacity, INITIAL, Stop);
    var s2 := Step(capacity, s1, SeeStop);
    var actions := [Stop, SeeStop] + Rounds(evt, k);
    DrainGoesOn(capacity, s2, evt, k);
    assert actions[1..] == [SeeStop] + Rounds(evt, k) && actions[1..][1..] == Rounds(evt, k);
    assert Runs(capacity, s1, actions[1..]);
    assert After(capacity, s1, actions[1..]) == After(capacity, s2, Rounds(evt, k));
  }

  lemma {:induction false} WorkEmptiesQueue(capacity: nat, s: State, actions: seq<Action>)
    requires Runs(capacity, s, actions) && forall a :: a in actions ==> Working(a)
    requires s.worker == Exited ==> s.queue == []
    ensures
      var end := After(capacity, s, actions);
      (end.worker == Exited ==> end.queue == []) && end.accepted == s.accepted && end.stopped == s.stopped
    decreases |actions|
  {
    if actions != [] {
      assert actions[0] in actions && forall a :: a in actions[1..] ==> a in actions;
      WorkEmptiesQueue(capacity, Step(capacity, s, actions[0]), actions[1..]);
    }
  }

  /**
   * After `Stop` and without further notifications, the worker can only come to rest by exiting, with an empty queue
   * and every accepted event sent, in order.
   */
  lemma ShutdownDelivers(capacity: nat, s: State, actions: seq<Action>)
    requires Inv(capacity, s) && s.stopped && s.worker != Exited
    requires Runs(capacity, s, actions) && forall a :: a in actions ==> Working(a)
    requires forall a :: Working(a) ==> !Enabled(After(capacity, s, actions), a)
    ensures
      var end := After(capacity, s, actions);
      end.worker == Exited && end.queue == [] && Events(end.finished) == end.accepted == s.accepted
  {
    var end := After(capacity, s, actions);
    RunKeepsInv(capacity, s, actions);
    WorkEmptiesQueue(capacity, s, actions);
    if end.worker != Exited { StoppedWorkerMoves(end); }
    assert Events(end.finished) + [] + [] == Events(end.finished);
  }

  /** The events that fit into a queue with this much room. */
  function Kept(room: nat, events: seq<BlockEvent>): seq<BlockEvent> {
    if |events| <= room then events else events[..room]
  }

  /** An exited worker changes nothing: later notifications fill the queue, then are dropped. */
  lemma {:induction false} AfterExit(capacity: nat, s: State, actions: seq<Action>)
    requires s.worker == Exited && |s.queue| <= capacity && Runs(capacity, s, actions)
    ensures
      var end, kept := After(capacity, s, actions), Kept(capacity - |s.queue|, Notified(actions));
      && end.worker == Exited && end.finished == s.finished
      && end.queue == s.queue + kept && end.accepted == s.accepted + kept
    decreases |actions|
  {
    if actions != [] {
      var next, rest := Step(capacity, s, actions[0]), actions[1..];
      assert After(capacity, s, actions) == After(capacity, next, rest);
      if actions[0].Notify? {
        LateNotify(capacity, s, actions[0].evt, Notified(rest));
        AfterExit(capacity, next, rest);
      } else {
        assert next == s.(stopped := true) && Notified(actions) == Notified(rest);
        AfterExit(capacity, next, rest);
      }
    }
  }

  lemma LateNotify(capacity: nat, s: State, evt: BlockEvent, late: seq<BlockEvent>)
    requires |s.queue| <= capacity
    ensures
      var next, kept := Step(capacity, s, Notify(evt)), Kept(capacity - |s.queue|, [evt] + late);
      && |next.queue| <= capacity
      && s.queue + kept == next.queue + Kept(capacity - |next.queue|, late)
      && s.accepted + kept == next.accepted + Kept(capacity - |next.queue|, late)
  {
    if |s.queue| < capacity {
      KeptFirst(capacity - |s.queue|, evt, late);
      Reassociate(s.queue, evt, Kept(capacity - |s.queue| - 1, late));
      Reassociate(s.accepted, evt, Kept(capacity - |s.queue| - 1, late));
    }
  }

  lemma KeptFirst(room: nat, first: BlockEvent, rest: seq<BlockEvent>)
    requires room > 0
    ensures Kept(room, [first] + rest) == [first] + Kept(room - 1, rest)
  {
  }

  lemma Reassociate(a: seq<BlockEvent>, b: BlockEvent, c: seq<BlockEvent>)
    ensures a + [b] + c == a + ([b] + c)
  {
  }

  /**
   * After the worker's last step every event accepted so far has had one to four send attempts within 3.5 s of waiting,
   * in order. What is notified later is never sent: as much as fits stays in the queue for ever. So every accepted
   * event is sent exactly when nothing is notified after that step.
   */
  lemma AcceptedLateIsLost(capacity: nat, before: seq<Action>, after: seq<Action>)
    requires capacity >= 1
    requires Runs(capacity, INITIAL, before) && Enabled(After(capacity, INITIAL, before), DrainEnd)
    requires Runs(capacity, Step(capacity, After(capacity, INITIAL, before), DrainEnd), after)
    ensures
      var exit := Step(capacity, After(capacity, INITIAL, before), DrainEnd);
      var end := After(capacity, exit, after);
      && exit.accepted == Events(exit.finished) == Events(end.finished)
      && (forall f :: f in end.finished ==> 1 <= f.attempts <= MAX_RETRIES + 1 && f.waited <= 3500)
      && end.queue == Kept(capacity, Notified(after)) && end.accepted == exit.accepted + end.queue
      && (end.accepted == Events(end.finished) <==> Notified(after) == [])
  {
    RunKeepsInv(capacity, INITIAL, before);
    var s := After(capacity, INITIAL, before);
    StepKeepsInv(capacity, s, DrainEnd);
    var exit := Step(capacity, s, DrainEnd);
    assert exit.accepted == Events(exit.finished) + [] + [];
    AfterExit(capacity, exit, after);
    BackoffBudget();
    assert [] + Kept(capacity, Notified(after)) == Kept(capacity, Notified(after));
  }

  /** A run that loses an event: the notifier is stopped while a request is still in flight. */
  lemma LateEventLost(capacity: nat, evt: BlockEvent)
    requires capacity >= 1
    ensures
      var actions := [Stop, SeeStop, DrainEnd, Notify(evt)];
      && Runs(capacity, INITIAL, actions)
      && After(capacity, INITIAL, actions) == State([evt], true, Exited, [evt], [], [])
  {
    var s1 := Step(capacity, INITIAL, Stop);
    var s2 := Step(capacity, s1, SeeStop);
    var s3 := Step(capacity, s2, DrainEnd);
    var s4 := Step(capacity, s3, Notify(evt));
    var all := [Stop, SeeStop, DrainEnd, Notify(evt)];
    assert all[1..] == [SeeStop, DrainEnd, Notify(evt)] && all[1..][1..] == [DrainEnd, Notify(evt)];
    assert all[1..][1..][1..] == [Notify(evt)] && all[1..][1..][1..][1..] == [];
    assert Runs(capacity, s4, []) && After(capacity, s4, []) == s4;
    assert Runs(capacity, s3, [Notify(evt)]) && After(capacity, s3, [Notify(evt)]) == s4;
    assert Runs(capacity, s2, all[1..][1..]) && After(capacity, s2, all[1..][1..]) == s4;
    assert Runs(capacity, s1, all[1..]) && After(capacity, s1, all[1..]) == s4;
  }

  // ----- one step more

  lemma {:induction false} Extended(capacity: nat, s: State, trace: seq<Action>, a: Action)
    requires Runs(capacity, s, trace) && Enabled(After(capacity, s, trace), a)
    ensures Runs(capacity, s, trace + [a])
    ensures After(capacity, s, trace + [a]) == Step(capacity, After(capacity, s, trace), a)
    ensures Notified(trace + [a]) == Notified(trace) + if a.Notify? then [a.evt] else []
    decreases |trace|
  {
    if trace == [] {
      assert trace + [a] == [a];
    } else {
      assert (trace + [a])[1..] == trace[1..] + [a];
      Extended(capacity, Step(capacity, s, trace[0]), trace[1..], a);
    }
  }

  lemma MeasureFalls(capacity: nat, trace: seq<Action>, a: Action)
    requires Runs(capacity, INITIAL, trace) && Enabled(After(capacity, INITIAL, trace), a) && Working(a)
    ensures Measure(Step(capacity, After(capacity, INITIAL, trace), a)) < Measure(After(capacity, INITIAL, trace))
  {
    RunKeepsInv(capacity, INITIAL, trace);
    WorkDecreases(capacity, After(capacity, INITIAL, trace), a);
  }

  lemma AllFinished(capacity: nat, trace: seq<Action>)
    requires Runs(capacity, INITIAL, trace)
    requires After(capacity, INITIAL, trace).worker == Exited && After(capacity, INITIAL, trace).queue == []
    ensures
      var s := After(capacity, INITIAL, trace);
      s.accepted == Events(s.finished) && multiset(s.accepted) + multiset(s.dropped) == multiset(Notified(trace))
  {
    Conservation(capacity, trace);
    var s := After(capacity, INITIAL, trace);
    assert Events(s.finished) + [] + [] == Events(s.finished);
  }

  lemma LastWithinBudget(capacity: nat, trace: seq<Action>)
    requires Runs(capacity, INITIAL, trace) && After(capacity, INITIAL, trace).finished != []
    ensures
      var finished := After(capacity, INITIAL, trace).finished;
      WithinBudget(finished[|finished| - 1].attempts, finished[|finished| - 1].waited)
  {
    RunKeepsInv(capacity, INITIAL, trace);
    var finished := After(capacity, INITIAL, trace).finished;
    assert finished[|finished| - 1] in finished;
  }

  // ----- the notifier

  /**
   * What other goroutines are still to do: finitely many notifications, and `Stop` exactly once unless it has happened.
   */
  predicate Scheduled(outside: seq<Action>, done: bool)
    decreases |outside|
  {
    if outside == [] then done
    else if outside[0].Stop? then !done && Scheduled(outside[1..], true)
    else outside[0].Notify? && Scheduled(outside[1..], done)
  }

  class Notifier {
    const url: string
    const capacity: nat
    var queue: seq<BlockEvent>
    var done: bool
    var worker: Worker
    /** The schedule of the other goroutines; they may run whenever the worker looks at a channel. */
    var outside: seq<Action>
    ghost var accepted: seq<BlockEvent>
    ghost var dropped: seq<BlockEvent>
    ghost var finished: seq<Finished>
    /** Every step so far. */
    ghost var trace: seq<Action>

    constructor (url: string, bufferSize: int, outside: seq<Action>)
      ensures Valid() && trace == [] && this.outside == outside
      ensures this.url == url && capacity == if bufferSize <= 0 then 256 else bufferSize
    {
      this.url := url;
      capacity := if bufferSize <= 0 then 256 else bufferSize;
      queue, done, this.outside := [], false, outside;
      worker, accepted, dropped, finished, trace := Receiving, [], [], [], [];
    }

    ghost function Current(): State
      reads this
    {
      State(queue, done, worker, accepted, dropped, finished)
    }

    /** The fields are in the state its steps lead to. */
    ghost predicate Valid()
      reads this
    {
      Runs(capacity, INITIAL, trace) && After(capacity, INITIAL, trace) == Current()
    }

    /** In service, among other goroutines. */
    ghost predicate Ready()
      reads this
    {
      Valid() && url != "" && Scheduled(outside, done)
    }

    /** Everything that was or will be notified, in order. */
    ghost function Plan(): seq<BlockEvent>
      reads this
    {
      Notified(trace) + Notified(outside)
    }

    /** Time goes on: the others have moved, or the queue is as it was. */
    twostate predicate Onward()
      reads this
    {
      && (old(done) ==> done) && Plan() == old(Plan())
      && (|outside| < |old(outside)| || (outside == old(outside) && queue == old(queue)))
    }

    /** Never blocks: with the queue full the event is dropped. */
    method Notify(evt: BlockEvent)
      requires Valid()
      modifies `queue, `accepted, `dropped, `trace
      ensures Valid() && trace == if url == "" then old(trace) else old(trace) + [Action.Notify(evt)]
      ensures
        var fits := url != "" && |old(queue)| < capacity;
        && queue == old(queue) + (if fits then [evt] else [])
        && accepted == old(accepted) + (if fits then [evt] else [])
        && dropped == old(dropped) + (if fits || url == "" then [] else [evt])
    {
      if url == "" {
        return;
      }
      Extended(capacity, INITIAL, trace, Action.Notify(evt));
      trace := trace + [Action.Notify(evt)];
      if |queue| < capacity {
        queue := queue + [evt];
        accepted := accepted + [evt];
      } else {
        dropped := dropped + [evt];
      }
    }

    method CloseDone()
      requires Valid() && !done
      modifies `done, `trace
      ensures Valid() && done && trace == old(trace) + [Action.Stop]
    {
      Extended(capacity, INITIAL, trace, Action.Stop);
      trace := trace + [Action.Stop];
      done := true;
    }

    /** The next thing some other goroutine does. */
    method OutsideStep()
      requires Ready() && outside != []
      modifies `queue, `done, `outside, `accepted, `dropped, `trace
      ensures Ready() && Onward() && |outside| < |old(outside)|
    {
      var a := outside[0];
      Extended(capacity, INITIAL, trace, a);
      PlanMoves(trace, outside);
      outside := outside[1..];
      match a {
        case Notify(evt) => this.Notify(evt);
        case Stop => CloseDone();
      }
    }

    /** Other goroutines run for a while. */
    method Interlude()
      requires Ready()
      modifies `queue, `done, `outside, `accepted, `dropped, `trace
      ensures Ready() && Onward()
    {
      var more: bool := *;
      while outside != [] && more
        invariant Ready() && Onward()
        decreases |outside|
      {
        OutsideStep();
        more := *;
      }
    }

    /** Notes a step of the worker that is about to be taken. */
    ghost method Note(a: Action)
      requires Valid() && Working(a) && Enabled(Current(), a)
      modifies `trace
      ensures trace == old(trace) + [a] && Plan() == old(Plan()) && Runs(capacity, INITIAL, trace)
      ensures After(capacity, INITIAL, trace) == Step(capacity, Current(), a)
    {
      Extended(capacity, INITIAL, trace, a);
      trace := trace + [a];
    }

    /** Takes the next event off the queue. */
    method Take(draining: bool) returns (evt: BlockEvent)
      requires Valid() && queue != [] && worker == if draining then Draining else Receiving
      modifies `queue, `worker, `trace
      ensures Valid() && Plan() == old(Plan()) && evt == old(queue[0]) && queue == old(queue[1..])
      ensures worker == Sending(evt, 0, 0, draining)
      ensures Current() == Step(capacity, old(Current()), if draining then DrainNext else Receive)
    {
      Note(if draining then DrainNext else Receive);
      evt := queue[0];
      queue := queue[1..];
      worker := Sending(evt, 0, 0, draining);
    }

    /** The outer select finds the notifier stopped. */
    method SeeDone()
      requires Valid() && done && worker == Receiving
      modifies `worker, `trace
      ensures Valid() && Plan() == old(Plan()) && worker == Draining
      ensures Current() == Step(capacity, old(Current()), SeeStop)
    {
      Note(SeeStop);
      worker := Draining;
    }

    /** The inner select finds the queue empty, and the goroutine returns. */
    method Return()
      requires Valid() && queue == [] && worker == Draining
      modifies `worker, `trace
      ensures Valid() && Plan() == old(Plan()) && worker == Exited
      ensures Current() == Step(capacity, old(Current()), DrainEnd)
    {
      Note(DrainEnd);
      worker := Exited;
    }

    /** One POST, with any outcome. Only a network error or a server error asks for a retry. */
    method SendOnce() returns (settled: bool, outcome: SendOutcome)
      requires Valid() && worker.Sending?
      modifies `worker, `finished, `trace
      ensures Valid() && Plan() == old(Plan()) && Current() == Step(capacity, old(Current()), Send(settled))
      ensures !settled <==> outcome == NetworkError || (outcome.Status? && outcome.code >= 500)
      ensures
        var w, made := old(worker), old(worker.attempt) + 1;
        if settled || made > MAX_RETRIES then
          && worker == (if w.draining then Draining else Receiving)
          && finished == old(finished) + [Finished(w.evt, made, w.waited, settled)]
        else
          worker == Waiting(w.evt, made, w.waited, w.draining) && finished == old(finished)
    {
      outcome := *;
      settled := Settled(outcome);
      Note(Send(settled));
      var made := worker.attempt + 1;
      if settled || made > MAX_RETRIES {
        finished := finished + [Finished(worker.evt, made, worker.waited, settled)];
        worker := if worker.draining then Draining else Receiving;
      } else {
        worker := Waiting(worker.evt, made, worker.waited, worker.draining);
      }
    }

    /** The select of a wait: the timer is over, or, once stopped, the rest of the wait is cut. */
    method EndWait() returns (stop: bool, elapsed: nat)
      requires Valid() && worker.Waiting?
      modifies `worker, `finished, `trace
      ensures Valid() && Plan() == old(Plan()) && (stop ==> done)
      ensures elapsed <= Backoff(old(worker.attempt)) && (!stop ==> elapsed == Backoff(old(worker.attempt)))
      ensures Current() == Step(capacity, old(Current()), if stop then BackoffStopped(elapsed) else BackoffOver)
    {
      var w := worker;
      stop, elapsed := *, *;
      stop := stop && done && elapsed <= Backoff(w.attempt);
      if stop {
        Note(BackoffStopped(elapsed));
        finished := finished + [Finished(w.evt, w.attempt, w.waited + elapsed, false)];
        worker := if w.draining then Draining else Receiving;
      } else {
        elapsed := Backoff(w.attempt);
        Note(BackoffOver);
        worker := Sending(w.evt, w.attempt, w.waited + elapsed, w.draining);
      }
    }

    /** The wait before a retry, while others act. */
    method AwaitBackoff() returns (stop: bool, elapsed: nat)
      requires Ready() && worker.Waiting?
      modifies this
      ensures Ready() && Onward() && (stop ==> done)
      ensures
        var w := old(worker);
        if stop then
          && elapsed <= Backoff(w.attempt) && worker == (if w.draining then Draining else Receiving)
          && finished == old(finished) + [Finished(w.evt, w.attempt, w.waited + elapsed, false)]
        else
          && elapsed == Backoff(w.attempt) && worker == Sending(w.evt, w.attempt, w.waited + elapsed, w.draining)
          && finished == old(finished)
    {
      Interlude();
      stop, elapsed := EndWait();
    }

    /** One turn of the retry loop: a wait, unless it is the first, and a send, unless stopped meanwhile. */
    method Attempt(attempt: nat) returns (sent: bool, over: bool, elapsed: nat, settled: bool)
      requires Ready() && (if attempt == 0 then worker.Sending? else worker.Waiting?) && worker.attempt == attempt
      modifies this
      ensures Ready() && Onward()
      ensures (attempt == 0 ==> sent) && (!sent ==> done && !settled)
      ensures over <==> !sent || settled || attempt >= MAX_RETRIES
      ensures elapsed <= Backoff(attempt) && (sent ==> elapsed == Backoff(attempt))
      ensures
        var w, made := old(worker), if sent then attempt + 1 else attempt;
        if over then
          && worker == (if w.draining then Draining else Receiving)
          && finished == old(finished) + [Finished(w.evt, made, w.waited + elapsed, settled)]
        else
          worker == Waiting(w.evt, made, w.waited + elapsed, w.draining) && finished == old(finished)
    {
      elapsed := 0;
      if attempt > 0 {
        var stop;
        stop, elapsed := AwaitBackoff();
        if stop {
          return false, true, elapsed, false;
        }
      }
      sent := true;
      var outcome;
      settled, outcome := SendOnce();
      over := settled || attempt >= MAX_RETRIES;
    }

    /** At most four sends of one event, and no fewer while none settles it, unless the notifier is stopped. */
    method SendWithRetry(evt: BlockEvent) returns (sends: nat, waited: nat, settled: bool)
      requires Ready() && worker.Sending? && worker.evt == evt && worker.attempt == worker.waited == 0
      modifies this
      ensures Ready() && Onward()
      ensures worker == if old(worker.draining) then Draining else Receiving
      ensures WithinBudget(sends, waited) && finished == old(finished) + [Finished(evt, sends, waited, settled)]
      ensures !done ==> settled || sends == MAX_RETRIES + 1
    {
      sends, waited, settled := 0, 0, false;
      ghost var draining := worker.draining;
      var over := false;
      while !over
        invariant Ready() && Onward()
        invariant !over ==> sends <= MAX_RETRIES && finished == old(finished)
        invariant !over && sends == 0 ==> worker == Sending(evt, 0, waited, draining)
        invariant !over && sends > 0 ==> worker == Waiting(evt, sends, waited, draining)
        invariant over ==> worker == if draining then Draining else Receiving
        invariant over ==> finished == old(finished) + [Finished(evt, sends, waited, settled)]
        invariant over && !done ==> settled || sends == MAX_RETRIES + 1
        decreases !over, MAX_RETRIES + 1 - sends
      {
        var sent, elapsed;
        sent, over, elapsed, settled := Attempt(sends);
        waited := waited + elapsed;
        if sent {
          sends := sends + 1;
        }
      }
      LastWithinBudget(capacity, trace);
    }

    /** The inner loop of `processQueue`, among finitely many notifications. */
    method Drain()
      requires Ready() && done && worker == Draining
      modifies this
      ensures Ready() && done && worker == Exited && queue == [] && Plan() == old(Plan())
    {
      Interlude();
      while queue != []
        invariant Ready() && done && worker == Draining && Plan() == old(Plan())
        decreases |outside|, |queue|
      {
        var evt := Take(true);
        var _, _, _ := SendWithRetry(evt);
        Interlude();
      }
      Return();
    }

    /** One turn of the outer loop of `processQueue`. */
    method Turn()
      requires Ready() && worker == Receiving
      modifies this
      ensures Ready() && Plan() == old(Plan()) && (worker == Receiving || (worker == Draining && done))
      ensures worker == Draining || |outside| < |old(outside)| || (outside == old(outside) && |queue| < |old(queue)|)
    {
      Interlude();
      var stop: bool := *;
      if done && (stop || queue == []) {
        SeeDone();
      } else if queue != [] {
        var evt := Take(false);
        var _, _, _ := SendWithRetry(evt);
      } else {
        OutsideStep();
      }
    }

    /**
     * `processQueue`, while others notify and at some time stop the notifier: it returns, with the queue empty and
     * every event accepted until then handed to `SendWithRetry` in order. What is then left of `outside` is too late.
     */
    method ProcessQueue()
      requires Ready() && worker == Receiving
      modifies this
      ensures Ready() && done && worker == Exited && queue == [] && Plan() == old(Plan())
      ensures accepted == Events(finished) && multiset(accepted) + multiset(dropped) == multiset(Notified(trace))
    {
      while worker == Receiving
        invariant Ready() && (worker == Receiving || (worker == Draining && done)) && Plan() == old(Plan())
        decreases worker == Receiving, |outside|, |queue|
      {
        Turn();
      }
      Drain();
      AllFinished(capacity, trace);
    }

    /** Some next step of a worker that has been stopped. */
    method Work() returns (ghost a: Action)
      requires Valid() && done && worker != Exited
      modifies `queue, `worker, `finished, `trace
      ensures Valid() && Plan() == old(Plan()) && (worker == Exited ==> queue == [])
      ensures Working(a) && Enabled(old(Current()), a) && Current() == Step(capacity, old(Current()), a)
    {
      var first: bool := *;
      match worker {
        case Receiving =>
          if queue != [] && first {
            a := Receive;
            var _ := Take(false);
          } else {
            a := SeeStop;
            SeeDone();
          }
        case Draining =>
          if queue != [] {
            a := DrainNext;
            var _ := Take(true);
          } else {
            a := DrainEnd;
            Return();
          }
        case Sending(_, _, _, _) =>
          var settled, _ := SendOnce();
          a := Send(settled);
        case Waiting(_, _, _, _) =>
          var stop, elapsed := EndWait();
          a := if stop then BackoffStopped(elapsed) else BackoffOver;
      }
    }

    /** A step of the stopped worker, or of the goroutines around it. */
    method Proceed()
      requires Ready() && done && worker != Exited
      modifies this
      ensures Ready() && done && Plan() == old(Plan()) && (worker == Exited ==> queue == [])
      ensures |outside| < |old(outside)| || (outside == old(outside) && Measure(Current()) < Measure(old(Current())))
    {
      var other: bool := *;
      if other && outside != [] {
        OutsideStep();
      } else {
        ghost var before := trace;
        ghost var a := Work();
        MeasureFalls(capacity, before, a);
      }
    }

    /**
     * Called while the worker is anywhere, with finitely many notifications to come, `Stop` returns: the worker has
     * then exited, with the queue empty and every event accepted until then finished in order.
     */
    method Stop()
      requires Valid() && url != "" && !done && Scheduled(outside, true)
      modifies this
      ensures Ready() && done && worker == Exited && queue == [] && Plan() == old(Plan())
      ensures accepted == Events(finished) && multiset(accepted) + multiset(dropped) == multiset(Notified(trace))
    {
      RunKeepsInv(capacity, INITIAL, trace);
      Extended(capacity, INITIAL, trace, Action.Stop);
      CloseDone();
      while worker != Exited
        invariant Ready() && done && Plan() == old(Plan()) && (worker == Exited ==> queue == [])
        decreases |outside|, Measure(Current())
      {
        Proceed();
      }
      AllFinished(capacity, trace);
    }
  }

  lemma PlanMoves(trace: seq<Action>, outside: seq<Action>)
    requires outside != []
    ensures Notified(trace) + Notified(outside)
      == Notified(trace) + (if outside[0].Notify? then [outside[0].evt] else []) + Notified(outside[1..])
  {
  }
}
