/** The fixed-window rate limiter (internal/ratelimit). Times are integers read from one nondecreasing clock. */
module RateLimit {
  import opened Sets

  type Key = string

  datatype Entry = Entry(count: int, windowStart: int)

  /** A call to the limiter, with the time it read under the lock. */
  datatype Call = Request(key: Key, now: int) | Sweep(now: int)

  /** Call times never go back. */
  ghost predicate Ordered(calls: seq<Call>) {
    forall i, j :: 0 <= i < j < |calls| ==> calls[i].now <= calls[j].now
  }

  // ----- the specification: request times only

  /** The times at which `key` was requested. */
  function Times(calls: seq<Call>, key: Key): seq<int> {
    if calls == [] then []
    else
      var last := calls[|calls| - 1];
      Times(calls[..|calls| - 1], key) + if last.Request? && last.key == key then [last.now] else []
  }

  /** The request that opened the window request `j` falls in: windows are opened greedily. */
  function Leader(window: int, times: seq<int>, j: nat): (i: nat)
    requires j < |times|
    ensures i <= j
  {
    if j == 0 then 0
    else
      var i := Leader(window, times, j - 1);
      if times[j] - times[i] > window then j else i
  }

  /** The first `limit` requests of each window pass, and always its first. */
  predicate Passes(limit: int, window: int, times: seq<int>, j: nat)
    requires j < |times|
  {
    var i := Leader(window, times, j);
    j == i || j - i < limit
  }

  /** The answer the specification gives to the request at `i`: it depends on nothing later. */
  predicate Answer(limit: int, window: int, calls: seq<Call>, i: nat)
    requires i < |calls| && calls[i].Request?
  {
    TimesUpTo(calls, i);
    Passes(limit, window, Times(calls[..i + 1], calls[i].key), |Times(calls[..i], calls[i].key)|)
  }

  /** These are the answers given to the requests of the history. */
  ghost predicate Answered(limit: int, window: int, calls: seq<Call>, answers: seq<bool>) {
    |answers| == |calls| && forall i :: 0 <= i < |calls| && calls[i].Request? ==>
      answers[i] == Answer(limit, window, calls, i)
  }

  lemma TimesUpTo(calls: seq<Call>, i: nat)
    requires i < |calls| && calls[i].Request?
    ensures Times(calls[..i + 1], calls[i].key) == Times(calls[..i], calls[i].key) + [calls[i].now]
  {
    assert calls[..i + 1][..i] == calls[..i];
  }

  // ----- the limiter

  class Limiter {
    const limit: int
    const window: int
    var windows: map<Key, Entry>
    /** Every call so far. */
    ghost var calls: seq<Call>
    /** The answers given to them; nothing is read into that of a sweep. */
    ghost var answers: seq<bool>

    constructor (limit: int, window: int)
      ensures Valid() && calls == [] && this.limit == limit && this.window == window
    {
      this.limit, this.window := limit, window;
      windows := map[];
      calls, answers := [], [];
    }

    ghost predicate Valid()
      reads this
    {
      Ordered(calls) && Tracks(window, calls, windows) && Answered(limit, window, calls, answers)
    }

    method Allow(key: Key, now: int) returns (ok: bool)
      requires Valid() && (calls != [] ==> calls[|calls| - 1].now <= now)
      modifies this
      ensures Valid() && calls == old(calls) + [Request(key, now)] && answers == old(answers) + [ok]
      ensures Times(calls, key) == Times(old(calls), key) + [now]
      ensures ok == Passes(limit, window, Times(calls, key), |Times(old(calls), key)|)
    {
      ghost var was := windows;
      if key !in windows || now - windows[key].windowStart > window {
        windows := windows[key := Entry(1, now)];
        ok := true;
      } else {
        var e := windows[key];
        windows := windows[key := Entry(e.count + 1, e.windowStart)];
        ok := windows[key].count <= limit;
      }
      assert windows == Admitted(was, window, key, now);
      RequestGranted(limit, window, calls, answers, was, key, now, ok);
      calls, answers := calls + [Request(key, now)], answers + [ok];
    }

    method Cleanup(now: int)
      requires Valid() && (calls != [] ==> calls[|calls| - 1].now <= now)
      modifies this
      ensures Valid() && calls == old(calls) + [Sweep(now)] && answers == old(answers) + [false]
      ensures forall k :: k in windows <==> k in old(windows) && now - old(windows)[k].windowStart <= window
      ensures forall k :: k in windows ==> windows[k] == old(windows)[k]
    {
      ghost var was := windows;
      var keys := windows.Keys;
      while keys != {}
        invariant keys <= windows.Keys <= was.Keys
        invariant forall k :: k in windows ==> windows[k] == was[k]
        invariant forall k :: k in was && k !in keys ==> (k in windows <==> now - was[k].windowStart <= window)
        invariant calls == old(calls) && answers == old(answers)
        decreases keys
      {
        var k :| k in keys;
        if now - windows[k].windowStart > window {
          windows := windows - {k};
        }
        keys := keys - {k};
      }
      SweepTracked(window, calls, was, windows, now);
      AnswerAppended(limit, window, calls, answers, Sweep(now), false);
      calls, answers := calls + [Sweep(now)], answers + [false];
    }
  }

  // ----- the map tracks the history

  /**
   * For each key, the map holds its current window: leader and request count. The entry may be missing, but only
   * when that window is already over.
   */
  ghost predicate Tracks(window: int, calls: seq<Call>, windows: map<Key, Entry>) {
    forall key :: TracksKey(window, calls, windows, key)
  }

  ghost predicate TracksKey(window: int, calls: seq<Call>, windows: map<Key, Entry>, key: Key) {
    var times := Times(calls, key);
    if times == [] then key !in windows
    else
      var i := Leader(window, times, |times| - 1);
      if key in windows then windows[key] == Entry(|times| - i, times[i])
      else calls[|calls| - 1].now - times[i] > window
  }

  /** What the map becomes on a request. */
  function Admitted(windows: map<Key, Entry>, window: int, key: Key, now: int): map<Key, Entry> {
    if key !in windows || now - windows[key].windowStart > window then windows[key := Entry(1, now)]
    else windows[key := Entry(windows[key].count + 1, windows[key].windowStart)]
  }

  lemma {:induction false} TimesFromCalls(calls: seq<Call>, key: Key, j: nat)
    requires Ordered(calls) && j < |Times(calls, key)|
    ensures calls != [] && Times(calls, key)[j] <= calls[|calls| - 1].now
  {
    var n := |calls| - 1;
    if j < |Times(calls[..n], key)| { TimesFromCalls(calls[..n], key, j); }
  }

  /** Appending later requests does not change earlier leaders. */
  lemma {:induction false} LeaderStable(window: int, times: seq<int>, more: seq<int>, j: nat)
    requires j < |times|
    ensures Leader(window, times + more, j) == Leader(window, times, j)
  {
    if j > 0 { LeaderStable(window, times, more, j - 1); }
  }

  lemma TracksOther(window: int, calls: seq<Call>, windows: map<Key, Entry>, call: Call, windows': map<Key, Entry>,
                    key: Key)
    requires Ordered(calls + [call]) && TracksKey(window, calls, windows, key)
    requires call.Request? ==> call.key != key
    requires key in windows' ==> key in windows && windows'[key] == windows[key]
    requires key in windows && key !in windows' ==> call.now - windows[key].windowStart > window
    ensures TracksKey(window, calls + [call], windows', key)
  {
    var all := calls + [call];
    assert all[..|all| - 1] == calls;
    assert Times(calls, key) + [] == Times(calls, key);
    assert calls != [] ==> all[|calls| - 1].now <= all[|calls|].now;
  }

  lemma OwnTracked(window: int, calls: seq<Call>, windows: map<Key, Entry>, key: Key, now: int)
    requires TracksKey(window, calls, windows, key) && (calls != [] ==> calls[|calls| - 1].now <= now)
    ensures
      var calls', windows' := calls + [Request(key, now)], Admitted(windows, window, key, now);
      var before, times := Times(calls, key), Times(calls', key);
      && TracksKey(window, calls', windows', key)
      && times == before + [now]
      && windows'[key].count == |times| - Leader(window, times, |before|)
      && (key in windows && now - windows[key].windowStart <= window <==> Leader(window, times, |before|) < |before|)
  {
    var calls' := calls + [Request(key, now)];
    assert calls'[..|calls'| - 1] == calls;
    var before, times := Times(calls, key), Times(calls', key);
    if before != [] {
      var n := |before| - 1;
      LeaderStable(window, before, [now], n);
      assert times[Leader(window, before, n)] == before[Leader(window, before, n)];
    }
  }

  lemma RequestTracked(window: int, calls: seq<Call>, windows: map<Key, Entry>, key: Key, now: int)
    requires Ordered(calls) && Tracks(window, calls, windows) && (calls != [] ==> calls[|calls| - 1].now <= now)
    ensures
      var calls' := calls + [Request(key, now)];
      Ordered(calls') && Tracks(window, calls', Admitted(windows, window, key, now))
  {
    var calls', windows' := calls + [Request(key, now)], Admitted(windows, window, key, now);
    OrderedAppend(calls, Request(key, now));
    forall k ensures TracksKey(window, calls', windows', k) {
      assert TracksKey(window, calls, windows, k);
      if k == key {
        OwnTracked(window, calls, windows, key, now);
      } else {
        TracksOther(window, calls, windows, Request(key, now), windows', k);
      }
    }
  }

  lemma RequestGranted(limit: int, window: int, calls: seq<Call>, answers: seq<bool>, windows: map<Key, Entry>,
                       key: Key, now: int, ok: bool)
    requires Ordered(calls) && Tracks(window, calls, windows) && Answered(limit, window, calls, answers)
    requires calls != [] ==> calls[|calls| - 1].now <= now
    requires ok == (key !in windows || now - windows[key].windowStart > window || windows[key].count + 1 <= limit)
    ensures
      var calls' := calls + [Request(key, now)];
      && Ordered(calls') && Tracks(window, calls', Admitted(windows, window, key, now))
      && Answered(limit, window, calls', answers + [ok])
      && Times(calls', key) == Times(calls, key) + [now]
      && ok == Passes(limit, window, Times(calls', key), |Times(calls, key)|)
  {
    var calls' := calls + [Request(key, now)];
    assert TracksKey(window, calls, windows, key);
    OwnTracked(window, calls, windows, key, now);
    RequestTracked(window, calls, windows, key, now);
    assert calls'[..|calls| + 1] == calls' && calls'[..|calls|] == calls;
    AnswerAppended(limit, window, calls, answers, Request(key, now), ok);
  }

  lemma OrderedAppend(calls: seq<Call>, call: Call)
    requires Ordered(calls) && (calls != [] ==> calls[|calls| - 1].now <= call.now)
    ensures Ordered(calls + [call])
  {
  }

  lemma SweepTracked(window: int, calls: seq<Call>, windows: map<Key, Entry>, windows': map<Key, Entry>, now: int)
    requires Ordered(calls) && Tracks(window, calls, windows) && (calls != [] ==> calls[|calls| - 1].now <= now)
    requires forall k :: k in windows' ==> k in windows && windows'[k] == windows[k]
    requires forall k :: k in windows ==> (k in windows' <==> now - windows[k].windowStart <= window)
    ensures Ordered(calls + [Sweep(now)]) && Tracks(window, calls + [Sweep(now)], windows')
  {
    OrderedAppend(calls, Sweep(now));
    forall k ensures TracksKey(window, calls + [Sweep(now)], windows', k) {
      assert TracksKey(window, calls, windows, k);
      TracksOther(window, calls, windows, Sweep(now), windows', k);
    }
  }

  lemma AnswerAppended(limit: int, window: int, calls: seq<Call>, answers: seq<bool>, call: Call, answer: bool)
    requires Answered(limit, window, calls, answers)
    requires call.Request? ==> answer == Answer(limit, window, calls + [call], |calls|)
    ensures Answered(limit, window, calls + [call], answers + [answer])
  {
    var all := calls + [call];
    forall i | 0 <= i < |calls| && calls[i].Request?
      ensures Answer(limit, window, all, i) == Answer(limit, window, calls, i)
    {
      assert all[..i + 1] == calls[..i + 1] && all[..i] == calls[..i];
    }
  }

  // ----- what the greedy windows mean

  ghost predicate Sorted(times: seq<int>) {
    forall i, j :: 0 <= i < j < |times| ==> times[i] <= times[j]
  }

  lemma {:induction false} TimesSorted(calls: seq<Call>, key: Key)
    requires Ordered(calls)
    ensures Sorted(Times(calls, key))
  {
    if calls != [] {
      var n := |calls| - 1;
      TimesSorted(calls[..n], key);
      forall j | 0 <= j < |Times(calls[..n], key)| ensures Times(calls[..n], key)[j] <= calls[n].now {
        TimesFromCalls(calls[..n], key, j);
      }
    }
  }

  /** A window holds the requests up to `window` after its leader, and leaders lead themselves. */
  lemma {:induction false} LeaderProperties(window: int, times: seq<int>, j: nat)
    requires j < |times|
    ensures
      var i := Leader(window, times, j);
      Leader(window, times, i) == i && forall k :: i < k <= j ==>
        Leader(window, times, k) == i && times[k] - times[i] <= window
  {
    if j > 0 { LeaderProperties(window, times, j - 1); }
  }

  /** Leaders are more than `window` apart. */
  lemma {:induction false} LeadersApart(window: int, times: seq<int>, j: nat, k: nat)
    requires j <= k < |times| && Sorted(times) && Leader(window, times, j) != Leader(window, times, k)
    ensures j < Leader(window, times, k) && times[Leader(window, times, k)] - times[Leader(window, times, j)] > window
  {
    if Leader(window, times, k) != k {
      LeadersApart(window, times, j, k - 1);
    } else {
      var i := Leader(window, times, k - 1);
      assert times[k] - times[i] > window;
      if i != Leader(window, times, j) {
        LeadersApart(window, times, j, k - 1);
        assert times[Leader(window, times, j)] <= times[j];
      }
    }
  }

  /**
   * A request is refused only if its window, not yet over, has let `limit` earlier ones through, and its own leader at
   * that: the limiter never refuses early.
   */
  lemma RefusedOnlyWhenFull(limit: int, window: int, times: seq<int>, j: nat)
    requires j < |times| && !Passes(limit, window, times, j)
    ensures
      var i := Leader(window, times, j);
      && i < j && times[j] - times[i] <= window && j - i >= limit
      && Passes(limit, window, times, i)
      && forall k :: i <= k < i + limit ==> k < j && Passes(limit, window, times, k)
  {
    LeaderProperties(window, times, j);
  }

  // ----- the sliding bound

  /** The requests of one key that passed at a time in `[from, to]`. */
  ghost function PassedIn(limit: int, window: int, times: seq<int>, from: int, to: int): set<int> {
    set j | 0 <= j < |times| && from <= times[j] <= to && Passes(limit, window, times, j)
  }

  function Max1(limit: int): int {
    if limit < 1 then 1 else limit
  }

  lemma WithinOne(passed: set<int>, lo: int, hi: int)
    requires lo <= hi && forall j :: j in passed ==> lo <= j < hi
    ensures |passed| <= hi - lo
  {
    forall j | j in passed ensures j in Range(lo, hi) {
      assert Between(lo, j, hi);
    }
    RangeSize(lo, hi);
    SubsetSize(passed, Range(lo, hi));
  }

  lemma WithinTwo(passed: set<int>, lo: int, hi: int, lo': int, hi': int)
    requires lo <= hi && lo' <= hi'
    requires forall j :: j in passed ==> lo <= j < hi || lo' <= j < hi'
    ensures |passed| <= hi - lo + hi' - lo'
  {
    var first, second := set j | j in passed && j < hi && lo <= j, set j | j in passed && lo' <= j < hi';
    WithinOne(first, lo, hi);
    WithinOne(second, lo', hi');
    assert passed == first + second;
  }

  /**
   * In any closed interval no longer than `window`, at most `2 * limit - 1` requests of a key pass: they belong to at
   * most two windows, and if to two, the request that opened the first of them came before the interval.
   */
  lemma SlidingBound(limit: int, window: int, times: seq<int>, from: int, to: int)
    requires Sorted(times) && to - from <= window
    ensures |PassedIn(limit, window, times, from, to)| <= 2 * Max1(limit) - 1
  {
    var passed, m := PassedIn(limit, window, times, from, to), Max1(limit);
    if passed != {} {
      var lo, hi := Extremes(limit, window, times, from, to);
      var a, b := Leader(window, times, lo), Leader(window, times, hi);
      if a == b {
        forall j | j in passed ensures a <= j < a + m {
          SameWindow(window, times, lo, j, hi);
        }
        WithinOne(passed, a, a + m);
      } else {
        forall j | j in passed ensures a + 1 <= j < a + m || b <= j < b + m {
          TwoWindows(window, times, lo, j, hi, from, to);
        }
        WithinTwo(passed, a + 1, a + m, b, b + m);
      }
    }
  }

  /** The first and the last request that passed in the interval. */
  lemma Extremes(limit: int, window: int, times: seq<int>, from: int, to: int) returns (lo: nat, hi: nat)
    requires PassedIn(limit, window, times, from, to) != {}
    ensures lo in PassedIn(limit, window, times, from, to) && hi in PassedIn(limit, window, times, from, to)
    ensures forall j :: j in PassedIn(limit, window, times, from, to) ==> lo <= j <= hi
  {
    var passed := PassedIn(limit, window, times, from, to);
    var x :| x in passed;
    lo, hi := x, x;
    while exists j :: j in passed && j < lo
      invariant lo in passed
      decreases lo
    {
      var j :| j in passed && j < lo;
      lo := j;
    }
    while exists j :: j in passed && j > hi
      invariant hi in passed
      decreases |times| - hi
    {
      var j :| j in passed && j > hi;
      hi := j;
    }
  }

  lemma SameWindow(window: int, times: seq<int>, lo: nat, j: nat, hi: nat)
    requires lo <= j <= hi < |times| && Leader(window, times, lo) == Leader(window, times, hi)
    ensures Leader(window, times, j) == Leader(window, times, lo)
  {
    LeaderProperties(window, times, hi);
  }

  lemma TwoWindows(window: int, times: seq<int>, lo: nat, j: nat, hi: nat, from: int, to: int)
    requires Sorted(times) && to - from <= window && lo <= j <= hi < |times|
    requires from <= times[lo] && times[hi] <= to
    requires Leader(window, times, lo) != Leader(window, times, hi)
    ensures Leader(window, times, j) == Leader(window, times, hi)
      || (Leader(window, times, j) == Leader(window, times, lo) < j)
  {
    var a, b, c := Leader(window, times, lo), Leader(window, times, hi), Leader(window, times, j);
    LeadersApart(window, times, lo, hi);
    assert times[b] <= times[hi];
    if c != b && c != a {
      LeadersApart(window, times, lo, j);
      LeadersApart(window, times, j, hi);
      assert false;
    }
  }

  /** The requests of a key in `[from, to]` that were answered with yes. */
  ghost function AdmittedIn(calls: seq<Call>, answers: seq<bool>, key: Key, from: int, to: int): set<int>
    requires |answers| == |calls|
  {
    set i | 0 <= i < |calls| && calls[i].Request? && calls[i].key == key && from <= calls[i].now <= to && answers[i]
  }

  /** The place of a request among those of its key. */
  function Place(calls: seq<Call>, key: Key, i: int): nat {
    if 0 <= i <= |calls| then |Times(calls[..i], key)| else 0
  }

  lemma {:induction false} TimesPrefix(calls: seq<Call>, key: Key, n: nat)
    requires n <= |calls|
    ensures Times(calls[..n], key) <= Times(calls, key)
  {
    if n < |calls| {
      TimesPrefix(calls[..|calls| - 1], key, n);
      assert calls[..|calls| - 1][..n] == calls[..n];
    } else {
      assert calls[..n] == calls;
    }
  }

  lemma PlaceGrows(calls: seq<Call>, key: Key, i: nat, j: nat)
    requires i < j < |calls| && calls[i].Request? && calls[i].key == key
    ensures Place(calls, key, i) < Place(calls, key, j)
  {
    TimesUpTo(calls, i);
    TimesPrefix(calls[..j], key, i + 1);
    assert calls[..j][..i + 1] == calls[..i + 1];
  }

  /** An answer once given is still the one the final history explains. */
  lemma AnswerStable(limit: int, window: int, calls: seq<Call>, i: nat)
    requires i < |calls| && calls[i].Request?
    ensures
      var times, j := Times(calls, calls[i].key), Place(calls, calls[i].key, i);
      j < |times| && times[j] == calls[i].now && Answer(limit, window, calls, i) == Passes(limit, window, times, j)
  {
    var key := calls[i].key;
    var early, times, j := Times(calls[..i + 1], key), Times(calls, key), Place(calls, key, i);
    TimesUpTo(calls, i);
    TimesPrefix(calls, key, i + 1);
    assert times == early + times[|early|..];
    LeaderStable(window, early, times[|early|..], j);
  }

  /**
   * The bound over any history of requests and sweeps, on the answers given: in any closed interval no longer than
   * `window`, at most `2 * limit - 1` requests of a key were let through.
   */
  lemma AdmissionsBounded(limit: int, window: int, calls: seq<Call>, answers: seq<bool>, key: Key, from: int, to: int)
    requires Ordered(calls) && Answered(limit, window, calls, answers) && to - from <= window
    ensures |AdmittedIn(calls, answers, key, from, to)| <= 2 * Max1(limit) - 1
  {
    var admitted := AdmittedIn(calls, answers, key, from, to);
    var passed := PassedIn(limit, window, Times(calls, key), from, to);
    var place := i => Place(calls, key, i);
    forall i | i in admitted ensures place(i) in passed {
      AnswerStable(limit, window, calls, i);
    }
    forall i, j | i in admitted && j in admitted && i != j ensures place(i) != place(j) {
      if i < j { PlaceGrows(calls, key, i, j); } else { PlaceGrows(calls, key, j, i); }
    }
    ImageSize(admitted, place, passed);
    TimesSorted(calls, key);
    SlidingBound(limit, window, Times(calls, key), from, to);
  }

  /**
   * A sweep, or a request of another key, can be inserted anywhere in a history without changing what a key's answers
   * depend on.
   */
  lemma {:induction false} OthersInvisible(before: seq<Call>, call: Call, after: seq<Call>, key: Key)
    requires call.Request? ==> call.key != key
    ensures Times(before + [call] + after, key) == Times(before + after, key)
  {
    if after == [] {
      assert before + [call] + after == before + [call] && before + after == before;
      assert (before + [call])[..|before|] == before;
      assert Times(before, key) + [] == Times(before, key);
    } else {
      var n := |after| - 1;
      OthersInvisible(before, call, after[..n], key);
      assert (before + [call] + after)[..|before| + 1 + n] == before + [call] + after[..n];
      assert (before + after)[..|before| + n] == before + after[..n];
    }
  }

  lemma SameTimes(limit: int, window: int, calls: seq<Call>, i: nat, calls': seq<Call>, i': nat)
    requires i < |calls| && i' < |calls'| && calls[i] == calls'[i'] && calls[i].Request?
    requires Times(calls[..i], calls[i].key) == Times(calls'[..i'], calls[i].key)
    ensures Answer(limit, window, calls, i) == Answer(limit, window, calls', i')
  {
    TimesUpTo(calls, i);
    TimesUpTo(calls', i');
  }

  /** Inserted anywhere, they change no later answer of the key. */
  lemma OthersChangeNoAnswer(limit: int, window: int, before: seq<Call>, call: Call, after: seq<Call>, i: nat)
    requires i < |after| && after[i].Request? && (call.Request? ==> call.key != after[i].key)
    ensures Answer(limit, window, before + [call] + after, |before| + 1 + i)
      == Answer(limit, window, before + after, |before| + i)
  {
    var long, short, n := before + [call] + after, before + after, |before| + i;
    assert long[..n + 1] == before + [call] + after[..i] && short[..n] == before + after[..i];
    OthersInvisible(before, call, after[..i], after[i].key);
    SameTimes(limit, window, long, n + 1, short, n);
  }

  /** A window that is full at its very end, and another one, full at once right after it. */
  function TightTime(m: nat, window: nat, j: nat): int {
    if j == 0 then 0 else if j < m then window else window + 1
  }

  /** The bound is reached. */
  lemma SlidingBoundTight(limit: int, window: nat, key: Key)
    requires window >= 1
    ensures exists calls, answers ::
      && Ordered(calls) && Answered(limit, window, calls, answers)
      && |AdmittedIn(calls, answers, key, 1, 1 + window)| == 2 * Max1(limit) - 1
  {
    var m := Max1(limit);
    var times := seq(2 * m, j requires 0 <= j => TightTime(m, window, j));
    var calls := seq(2 * m, j requires 0 <= j => Request(key, TightTime(m, window, j)));
    var answers := seq(2 * m, j => true);
    forall i | 0 <= i < 2 * m ensures Answer(limit, window, calls, i) {
      TightAnswer(limit, window, key, times, calls, i);
    }
    assert AdmittedIn(calls, answers, key, 1, 1 + window) == Range(1, 2 * m);
    RangeSize(1, 2 * m);
    assert Ordered(calls) && Answered(limit, window, calls, answers)
      && |AdmittedIn(calls, answers, key, 1, 1 + window)| == 2 * m - 1;
  }

  lemma TightAnswer(limit: int, window: nat, key: Key, times: seq<int>, calls: seq<Call>, i: nat)
    requires window >= 1 && i < |calls| == |times| == 2 * Max1(limit)
    requires forall j :: 0 <= j < |times| ==> calls[j] == Request(key, times[j])
    requires forall j :: 0 <= j < |times| ==> times[j] == TightTime(Max1(limit), window, j)
    ensures Answer(limit, window, calls, i)
  {
    TightTimes(key, times, calls, i);
    TightTimes(key, times, calls, i + 1);
    TightLeaders(Max1(limit), window, times[..i + 1], i);
  }

  lemma {:induction false} TightTimes(key: Key, times: seq<int>, calls: seq<Call>, n: nat)
    requires n <= |calls| == |times| && forall j :: 0 <= j < |times| ==> calls[j] == Request(key, times[j])
    ensures Times(calls[..n], key) == times[..n]
  {
    if n > 0 {
      TightTimes(key, times, calls, n - 1);
      assert calls[..n][..n - 1] == calls[..n - 1] && times[..n] == times[..n - 1] + [times[n - 1]];
    }
  }

  lemma {:induction false} TightLeaders(m: nat, window: nat, times: seq<int>, j: nat)
    requires m >= 1 && window >= 1 && j < |times| <= 2 * m
    requires forall k :: 0 <= k < |times| ==> times[k] == TightTime(m, window, k)
    ensures Leader(window, times, j) == if j < m then 0 else m
  {
    if j > 0 { TightLeaders(m, window, times, j - 1); }
  }
}
