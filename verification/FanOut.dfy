/**
 * The concurrent inspector chain (internal/inspector): one goroutine each, a buffered channel, a closer, a collector.
 */
module FanOut {
  import opened Strings
  import opened Sets

  datatype BlockResult = BlockResult(blocked: bool, reason: string, failed: bool)

  /** What one inspector returns; `None` is nil. An error without a block counts as a pass. */
  type Verdict = Option<BlockResult>

  predicate Blocks(v: Verdict) {
    v.Some? && v.value.blocked
  }

  // ----- the collector

  /** The first blocking result, in the order the results arrive. */
  ghost predicate IsFirstBlock(results: seq<Verdict>, r: Verdict) {
    if r == None then forall v :: v in results ==> !Blocks(v)
    else exists k :: FirstBlockAt(results, r, k)
  }

  ghost predicate FirstBlockAt(results: seq<Verdict>, r: Verdict, k: int) {
    0 <= k < |results| && results[k] == r && Blocks(r) && forall j :: 0 <= j < k ==> !Blocks(results[j])
  }

  /** One turn of the collecting loop. */
  function Collect1(sofar: Verdict, v: Verdict): Verdict {
    if Blocks(v) && sofar == None then v else sofar
  }

  lemma CollectNext(results: seq<Verdict>, sofar: Verdict, v: Verdict)
    requires IsFirstBlock(results, sofar)
    ensures IsFirstBlock(results + [v], Collect1(sofar, v))
  {
    if sofar == None {
      if Blocks(v) {
        assert FirstBlockAt(results + [v], v, |results|);
      }
    } else {
      var k :| FirstBlockAt(results, sofar, k);
      assert FirstBlockAt(results + [v], sofar, k);
    }
  }

  method Collect(results: seq<Verdict>) returns (blockResult: Verdict)
    ensures IsFirstBlock(results, blockResult)
  {
    blockResult := None;
    for i := 0 to |results|
      invariant IsFirstBlock(results[..i], blockResult)
    {
      CollectNext(results[..i], blockResult, results[i]);
      assert results[..i + 1] == results[..i] + [results[i]];
      if results[i].Some? && results[i].value.blocked {
        if blockResult == None {
          blockResult := results[i];
        }
      }
    }
    assert results[..|results|] == results;
  }

  // ----- the goroutines

  datatype Stage = Unborn | Ready | Ran | Sent | Over

  /** The goroutine that waits for the group and closes the channel. */
  datatype Closer = Absent | Waiting | Past | Gone

  datatype State = State(
    stages: seq<Stage>, runs: seq<nat>, spawned: nat, waitGroup: int,
    channel: seq<nat>, closer: Closer, closed: bool,
    received: seq<nat>, result: Verdict, finished: bool, panicked: bool)

  datatype Action =
    | Spawn
    | SpawnCloser
    | Inspect(i: nat)
    | Put(i: nat)
    | SignalDone(i: nat)
    | WaitOver
    | Close
    | Take
    | EndRange

  function Initial(n: nat): State {
    State(seq(n, _ => Unborn), seq(n, _ => 0), 0, 0, [], Absent, false, [], None, false, false)
  }

  predicate At(s: State, i: nat, stage: Stage) {
    i < |s.stages| && s.stages[i] == stage
  }

  /** The collector runs once the closer has been spawned; a send blocks only on a full open channel. */
  predicate Enabled(s: State, a: Action) {
    match a
    case Spawn => s.spawned < |s.stages|
    case SpawnCloser => s.spawned == |s.stages| && s.closer == Absent
    case Inspect(i) => At(s, i, Ready)
    case Put(i) => At(s, i, Ran) && (s.closed || |s.channel| < |s.stages|)
    case SignalDone(i) => At(s, i, Sent)
    case WaitOver => s.closer == Waiting && s.waitGroup == 0
    case Close => s.closer == Past
    case Take => s.closer != Absent && !s.finished && s.channel != []
    case EndRange => s.closer != Absent && !s.finished && s.channel == [] && s.closed
  }

  ghost predicate WellFormed(verdicts: seq<Verdict>, s: State) {
    |s.stages| == |s.runs| == |verdicts| && Indices(s.channel, |verdicts|)
  }

  ghost predicate Indices(order: seq<nat>, n: nat) {
    forall k :: 0 <= k < |order| ==> order[k] < n
  }

  /** Sending on a closed channel, closing one twice, and a negative wait group panic. */
  function Step(verdicts: seq<Verdict>, s: State, a: Action): State
    requires WellFormed(verdicts, s) && Enabled(s, a)
  {
    match a
    case Spawn => s.(stages := s.stages[s.spawned := Ready], spawned := s.spawned + 1, waitGroup := s.waitGroup + 1)
    case SpawnCloser => s.(closer := Waiting)
    case Inspect(i) => s.(stages := s.stages[i := Ran], runs := s.runs[i := s.runs[i] + 1])
    case Put(i) =>
      if s.closed then s.(panicked := true) else s.(stages := s.stages[i := Sent], channel := s.channel + [i])
    case SignalDone(i) =>
      s.(stages := s.stages[i := Over], waitGroup := s.waitGroup - 1, panicked := s.panicked || s.waitGroup <= 0)
    case WaitOver => s.(closer := Past)
    case Close => s.(closer := Gone, closed := true, panicked := s.panicked || s.closed)
    case Take =>
      var i := s.channel[0];
      s.(channel := s.channel[1..], received := s.received + [i], result := Collect1(s.result, verdicts[i]))
    case EndRange => s.(finished := true)
  }

  // ----- the invariant

  predicate Active(stage: Stage) {
    stage == Ready || stage == Ran || stage == Sent
  }

  predicate Delivered(stage: Stage) {
    stage == Sent || stage == Over
  }

  ghost function InGroup(stages: seq<Stage>): set<nat> {
    set i | 0 <= i < |stages| && Active(stages[i])
  }

  ghost function HaveSent(stages: seq<Stage>): set<nat> {
    set i | 0 <= i < |stages| && Delivered(stages[i])
  }

  lemma CountMoved(stages: seq<Stage>, i: nat, stage: Stage)
    requires i < |stages|
    ensures |InGroup(stages[i := stage])|
      == |InGroup(stages)| + (if Active(stage) then 1 else 0) - (if Active(stages[i]) then 1 else 0)
  {
    var before, after := InGroup(stages), InGroup(stages[i := stage]);
    var others := before - {i};
    assert after == if Active(stage) then others + {i} else others;
    assert before == if Active(stages[i]) then others + {i} else others;
  }

  lemma SentMoved(stages: seq<Stage>, i: nat, stage: Stage)
    requires i < |stages|
    ensures Delivered(stages[i]) == Delivered(stage) ==> HaveSent(stages[i := stage]) == HaveSent(stages)
    ensures !Delivered(stages[i]) && Delivered(stage) ==>
      multiset(HaveSent(stages[i := stage])) == multiset(HaveSent(stages)) + multiset{i}
  {
    var before, after := HaveSent(stages), HaveSent(stages[i := stage]);
    if Delivered(stages[i]) == Delivered(stage) {
      assert after == before;
    } else if Delivered(stage) {
      assert i !in before && after == before + {i};
    }
  }

  ghost function Results(verdicts: seq<Verdict>, order: seq<nat>): seq<Verdict>
    requires Indices(order, |verdicts|)
  {
    seq(|order|, k requires 0 <= k < |order| => verdicts[order[k]])
  }

  /** Goroutines are born in order, and each runs its inspector once. */
  ghost predicate Lifecycle(stages: seq<Stage>, runs: seq<nat>, spawned: nat) {
    && spawned <= |stages| == |runs|
    && (forall i :: 0 <= i < |stages| ==> (stages[i] == Unborn <==> i >= spawned))
    && (forall i :: 0 <= i < |stages| ==> runs[i] == if stages[i] == Unborn || stages[i] == Ready then 0 else 1)
  }

  ghost predicate StageInv(s: State) {
    && Lifecycle(s.stages, s.runs, s.spawned)
    && s.waitGroup == |InGroup(s.stages)|
    && multiset(s.received + s.channel) == multiset(HaveSent(s.stages))
  }

  ghost predicate CloserInv(s: State) {
    && (s.closer != Absent ==> s.spawned == |s.stages|)
    && (s.closer == Past || s.closer == Gone ==> forall i :: 0 <= i < |s.stages| ==> s.stages[i] == Over)
    && (s.closed <==> s.closer == Gone)
    && (s.finished ==> s.closed && s.channel == [])
    && !s.panicked
  }

  ghost predicate Inv(verdicts: seq<Verdict>, s: State) {
    && WellFormed(verdicts, s) && StageInv(s) && CloserInv(s)
    && Indices(s.received, |verdicts|)
    && IsFirstBlock(Results(verdicts, s.received), s.result)
  }

  lemma InitialInv(verdicts: seq<Verdict>)
    ensures Inv(verdicts, Initial(|verdicts|))
  {
    var s := Initial(|verdicts|);
    assert InGroup(s.stages) == {} && HaveSent(s.stages) == {};
    assert s.received + s.channel == [];
  }

  lemma SpawnKeepsInv(verdicts: seq<Verdict>, s: State)
    requires Inv(verdicts, s) && Enabled(s, Spawn)
    ensures Inv(verdicts, Step(verdicts, s, Spawn))
  {
    CountMoved(s.stages, s.spawned, Ready);
    SentMoved(s.stages, s.spawned, Ready);
  }

  lemma InspectKeepsInv(verdicts: seq<Verdict>, s: State, i: nat)
    requires Inv(verdicts, s) && Enabled(s, Inspect(i))
    ensures Inv(verdicts, Step(verdicts, s, Inspect(i)))
  {
    CountMoved(s.stages, i, Ran);
    SentMoved(s.stages, i, Ran);
  }

  lemma PutKeepsInv(verdicts: seq<Verdict>, s: State, i: nat)
    requires Inv(verdicts, s) && Enabled(s, Put(i))
    ensures Inv(verdicts, Step(verdicts, s, Put(i)))
  {
    CountMoved(s.stages, i, Sent);
    SentMoved(s.stages, i, Sent);
    assert !s.closed;
    assert s.received + (s.channel + [i]) == s.received + s.channel + [i];
  }

  lemma SignalKeepsInv(verdicts: seq<Verdict>, s: State, i: nat)
    requires Inv(verdicts, s) && Enabled(s, SignalDone(i))
    ensures Inv(verdicts, Step(verdicts, s, SignalDone(i)))
  {
    CountMoved(s.stages, i, Over);
    SentMoved(s.stages, i, Over);
    assert i in InGroup(s.stages);
  }

  lemma CloserKeepsInv(verdicts: seq<Verdict>, s: State, a: Action)
    requires Inv(verdicts, s) && Enabled(s, a) && (a.SpawnCloser? || a.WaitOver? || a.Close? || a.EndRange?)
    ensures Inv(verdicts, Step(verdicts, s, a))
  {
    var s' := Step(verdicts, s, a);
    assert InGroup(s'.stages) == InGroup(s.stages) && HaveSent(s'.stages) == HaveSent(s.stages);
    if a.WaitOver? {
      assert InGroup(s.stages) == {};
      forall i | 0 <= i < |s.stages| ensures s.stages[i] == Over {
        assert i !in InGroup(s.stages);
      }
    }
  }

  lemma TakeKeepsInv(verdicts: seq<Verdict>, s: State)
    requires Inv(verdicts, s) && Enabled(s, Take)
    ensures Inv(verdicts, Step(verdicts, s, Take))
  {
    var s', i := Step(verdicts, s, Take), s.channel[0];
    assert InGroup(s'.stages) == InGroup(s.stages) && HaveSent(s'.stages) == HaveSent(s.stages);
    assert s.channel == [i] + s.channel[1..];
    assert s.received + [i] + s.channel[1..] == s.received + s.channel;
    assert Indices(s.channel[1..], |verdicts|) by {
      assert forall k :: 0 <= k < |s.channel| - 1 ==> s.channel[1..][k] == s.channel[k + 1];
    }
    CollectNext(Results(verdicts, s.received), s.result, verdicts[i]);
    assert Results(verdicts, s'.received) == Results(verdicts, s.received) + [verdicts[i]];
  }

  lemma StepKeepsInv(verdicts: seq<Verdict>, s: State, a: Action)
    requires Inv(verdicts, s) && Enabled(s, a)
    ensures Inv(verdicts, Step(verdicts, s, a))
  {
    match a
    case Spawn => SpawnKeepsInv(verdicts, s);
    case Inspect(i) => InspectKeepsInv(verdicts, s, i);
    case Put(i) => PutKeepsInv(verdicts, s, i);
    case SignalDone(i) => SignalKeepsInv(verdicts, s, i);
    case Take => TakeKeepsInv(verdicts, s);
    case _ => CloserKeepsInv(verdicts, s, a);
  }

  // ----- progress

  function StageRank(stage: Stage): nat {
    match stage
    case Unborn => 4
    case Ready => 3
    case Ran => 2
    case Sent => 1
    case Over => 0
  }

  function StagesRank(stages: seq<Stage>): nat {
    if stages == [] then 0 else StagesRank(stages[..|stages| - 1]) + StageRank(stages[|stages| - 1])
  }

  function CloserRank(c: Closer): nat {
    match c
    case Absent => 3
    case Waiting => 2
    case Past => 1
    case Gone => 0
  }

  /** Steps left at most: strictly smaller after every step. */
  function Measure(s: State): int {
    StagesRank(s.stages) + CloserRank(s.closer) + (|s.stages| - |s.received|) + if s.finished then 0 else 1
  }

  lemma {:induction false} RankUpdate(stages: seq<Stage>, i: nat, stage: Stage)
    requires i < |stages|
    ensures StagesRank(stages[i := stage]) == StagesRank(stages) - StageRank(stages[i]) + StageRank(stage)
  {
    var n := |stages| - 1;
    if i < n {
      RankUpdate(stages[..n], i, stage);
      assert stages[i := stage][..n] == stages[..n][i := stage];
    } else {
      assert stages[i := stage][..n] == stages[..n];
    }
  }

  lemma ReceivedAtMostAll(verdicts: seq<Verdict>, s: State)
    requires Inv(verdicts, s)
    ensures |s.received| + |s.channel| == |HaveSent(s.stages)| <= |s.stages|
  {
    assert |multiset(s.received + s.channel)| == |s.received + s.channel|;
    assert |multiset(HaveSent(s.stages))| == |HaveSent(s.stages)|;
    var all: set<int> := HaveSent(s.stages);
    RangeSize(0, |s.stages|);
    forall i | i in all ensures i in Range(0, |s.stages|) { assert Between(0, i, |s.stages|); }
    SubsetSize(all, Range(0, |s.stages|));
  }

  lemma StepLowersRank(verdicts: seq<Verdict>, s: State, a: Action)
    requires Inv(verdicts, s) && Enabled(s, a)
    ensures Measure(Step(verdicts, s, a)) < Measure(s)
  {
    if a.Spawn? {
      RankUpdate(s.stages, s.spawned, Ready);
    } else if a.Inspect? {
      RankUpdate(s.stages, a.i, Ran);
    } else if a.Put? {
      assert !s.closed;
      RankUpdate(s.stages, a.i, Sent);
    } else if a.SignalDone? {
      RankUpdate(s.stages, a.i, Over);
    }
  }

  lemma StepDecreases(verdicts: seq<Verdict>, s: State, a: Action)
    requires Inv(verdicts, s) && Enabled(s, a)
    ensures 0 <= Measure(Step(verdicts, s, a)) < Measure(s)
  {
    StepLowersRank(verdicts, s, a);
    StepKeepsInv(verdicts, s, a);
    ReceivedAtMostAll(verdicts, Step(verdicts, s, a));
  }

  /** A goroutine that has not sent leaves room in the channel. */
  lemma RoomToSend(verdicts: seq<Verdict>, s: State, i: nat)
    requires Inv(verdicts, s) && At(s, i, Ran)
    ensures |s.channel| < |s.stages|
  {
    ReceivedAtMostAll(verdicts, s);
    var all: set<int> := HaveSent(s.stages) + {i};
    RangeSize(0, |s.stages|);
    forall j | j in all ensures j in Range(0, |s.stages|) { assert Between(0, j, |s.stages|); }
    SubsetSize(all, Range(0, |s.stages|));
    assert i !in HaveSent(s.stages);
  }

  /** No reachable state before the end is stuck. */
  lemma NoDeadlock(verdicts: seq<Verdict>, s: State)
    requires Inv(verdicts, s) && !s.finished
    ensures exists a :: Enabled(s, a)
  {
    if s.spawned < |s.stages| {
      assert Enabled(s, Spawn);
    } else if s.closer == Absent {
      assert Enabled(s, SpawnCloser);
    } else if i :| 0 <= i < |s.stages| && s.stages[i] != Over {
      match s.stages[i] {
        case Ready => assert Enabled(s, Inspect(i));
        case Ran => RoomToSend(verdicts, s, i); assert Enabled(s, Put(i));
        case Sent => assert Enabled(s, SignalDone(i));
      }
    } else {
      assert InGroup(s.stages) == {};
      match s.closer {
        case Waiting => assert Enabled(s, WaitOver);
        case Past => assert Enabled(s, Close);
        case Gone => assert Enabled(s, if s.channel == [] then EndRange else Take);
      }
    }
  }

  // ----- every run

  ghost predicate Runs(verdicts: seq<Verdict>, s: State, actions: seq<Action>)
    decreases |actions|
  {
    actions == [] ||
    (WellFormed(verdicts, s) && Enabled(s, actions[0]) && Runs(verdicts, Step(verdicts, s, actions[0]), actions[1..]))
  }

  ghost function After(verdicts: seq<Verdict>, s: State, actions: seq<Action>): State
    requires Runs(verdicts, s, actions)
    decreases |actions|
  {
    if actions == [] then s else After(verdicts, Step(verdicts, s, actions[0]), actions[1..])
  }

  lemma {:induction false} RunKeepsInv(verdicts: seq<Verdict>, s: State, actions: seq<Action>)
    requires Inv(verdicts, s) && Runs(verdicts, s, actions)
    ensures Inv(verdicts, After(verdicts, s, actions))
    ensures |actions| + Measure(After(verdicts, s, actions)) <= Measure(s)
    decreases |actions|
  {
    if actions != [] {
      StepKeepsInv(verdicts, s, actions[0]);
      StepDecreases(verdicts, s, actions[0]);
      RunKeepsInv(verdicts, Step(verdicts, s, actions[0]), actions[1..]);
    }
  }

  lemma {:induction false} InitialRank(n: nat)
    ensures StagesRank(Initial(n).stages) == 4 * n
  {
    if n > 0 {
      InitialRank(n - 1);
      assert Initial(n).stages[..n - 1] == Initial(n - 1).stages;
    }
  }

  /** Safety, progress and termination of every interleaving: no panic, never stuck, at most `5n + 4` steps. */
  lemma EveryRunProceeds(verdicts: seq<Verdict>, actions: seq<Action>)
    requires Runs(verdicts, Initial(|verdicts|), actions)
    ensures
      var s := After(verdicts, Initial(|verdicts|), actions);
      !s.panicked && (s.finished || exists a :: Enabled(s, a)) && |actions| <= 5 * |verdicts| + 4
  {
    InitialInv(verdicts);
    RunKeepsInv(verdicts, Initial(|verdicts|), actions);
    InitialRank(|verdicts|);
    var s := After(verdicts, Initial(|verdicts|), actions);
    ReceivedAtMostAll(verdicts, s);
    if !s.finished { NoDeadlock(verdicts, s); }
  }

  lemma AllHeard(verdicts: seq<Verdict>, s: State)
    requires Inv(verdicts, s) && s.finished
    ensures |s.received| == |verdicts|
    ensures forall i :: 0 <= i < |verdicts| ==> multiset(s.received)[i] == 1
  {
    assert s.received + s.channel == s.received;
    ReceivedAtMostAll(verdicts, s);
    var all: set<int> := HaveSent(s.stages);
    forall i | i in Range(0, |verdicts|) ensures i in all {
      assert s.stages[i] == Over;
    }
    RangeSize(0, |verdicts|);
    SubsetSize(Range(0, |verdicts|), all);
    forall i | 0 <= i < |verdicts| ensures multiset(s.received)[i] == 1 {
      assert s.stages[i] == Over && i in HaveSent(s.stages);
    }
  }

  lemma NilMeansNoBlock(verdicts: seq<Verdict>, order: seq<nat>, result: Verdict)
    requires Indices(order, |verdicts|) && IsFirstBlock(Results(verdicts, order), result)
    requires forall i :: 0 <= i < |verdicts| ==> i in order
    ensures result == None <==> forall i :: 0 <= i < |verdicts| ==> !Blocks(verdicts[i])
  {
    var results := Results(verdicts, order);
    forall i | 0 <= i < |verdicts| ensures verdicts[i] in results {
      assert i in order;
      var k :| 0 <= k < |order| && order[k] == i;
      assert results[k] == verdicts[i];
    }
    if result != None {
      var k :| FirstBlockAt(results, result, k);
      assert Blocks(verdicts[order[k]]);
    }
  }

  /**
   * When the collector returns, every inspector has run exactly once and been heard exactly once; the result is the
   * first block in the order of arrival, and nil exactly when no inspector blocked.
   */
  lemma FanOutResult(verdicts: seq<Verdict>, actions: seq<Action>)
    requires Runs(verdicts, Initial(|verdicts|), actions) && After(verdicts, Initial(|verdicts|), actions).finished
    ensures
      var s := After(verdicts, Initial(|verdicts|), actions);
      && |s.runs| == |s.received| == |verdicts| && Indices(s.received, |verdicts|)
      && (forall i :: 0 <= i < |verdicts| ==> s.runs[i] == 1 && multiset(s.received)[i] == 1)
      && IsFirstBlock(Results(verdicts, s.received), s.result)
      && (s.result == None <==>
            forall i :: 0 <= i < |verdicts| ==> verdicts[i] == None || !verdicts[i].value.blocked)
      && (s.result != None ==> s.result.value.blocked)
  {
    InitialInv(verdicts);
    RunKeepsInv(verdicts, Initial(|verdicts|), actions);
    var s := After(verdicts, Initial(|verdicts|), actions);
    AllHeard(verdicts, s);
    forall i | 0 <= i < |verdicts| ensures i in s.received {
      assert i in multiset(s.received);
    }
    NilMeansNoBlock(verdicts, s.received, s.result);
  }
}
