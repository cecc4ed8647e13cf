/**
 * Policy hot reload and the fail-open decision (internal/policy). A compiled policy is represented by its source
 * text.
 */
module Policy {
  import opened Strings
  import opened Json

  const DEFAULT_POLICY := "package bulwarkai\n\ndefault allow := true\n"

  /** Which texts `compilePolicy` accepts. */
  type Compiles = string -> bool

  // ----- decisions

  datatype Decision = Decision(allowed: bool, reason: string)

  /** What evaluating the prepared query yields: an error, no result, or the first expression's value. */
  datatype EvalResult = EvalError | NoResult | Result(value: Value)

  function Decide(r: EvalResult): Decision {
    match r
    case EvalError => Decision(true, "")
    case NoResult => Decision(true, "")
    case Result(Obj(fields)) =>
      var allow := Get(fields, "allow");
      if !allow.Bool? || allow.b then Decision(true, "")
      else
        var reason := StrVal(Get(fields, "deny_reason"), "");
        Decision(false, if reason == "" then "denied by policy" else reason)
    case Result(Bool(b)) => Decision(b, "")
    case Result(_) => Decision(true, "")
  }

  method Evaluate(enabled: bool, result: EvalResult) returns (d: Decision)
    ensures d == if enabled then Decide(result) else Decision(true, "")
  {
    if !enabled || !result.Result? {
      return Decision(true, "");
    }
    var value := result.value;
    if !value.Obj? {
      if value.Bool? {
        return Decision(value.b, "");
      }
      return Decision(true, "");
    }
    var allowed, reason := true, "";
    if "allow" in value.fields {
      var v := value.fields["allow"];
      if v.Bool? {
        allowed := v.b;
      }
    }
    if "deny_reason" in value.fields {
      var v := value.fields["deny_reason"];
      if v.Str? {
        reason := v.s;
      }
    }
    if allowed {
      return Decision(true, "");
    }
    if reason == "" {
      reason := "denied by policy";
    }
    d := Decision(false, reason);
  }

  /** Fail-open: a request is denied only on an explicit boolean false, bare or under `allow`. */
  lemma DeniedExactly(r: EvalResult)
    ensures !Decide(r).allowed <==>
      r.Result? && (r.value == Bool(false) || (r.value.Obj? && Get(r.value.fields, "allow") == Bool(false)))
    ensures !Decide(r).allowed && !r.value.Obj? ==> Decide(r).reason == ""
    ensures !Decide(r).allowed && r.value.Obj? ==>
      var given := Get(r.value.fields, "deny_reason");
      Decide(r).reason == if given.Str? && given.s != "" then given.s else "denied by policy"
    ensures Decide(r).allowed ==> Decide(r).reason == ""
  {
  }

  // ----- the file and its watcher

  /** The file's content and modification time; a missing file shows up as failing stats and reads. */
  datatype File = File(content: string, modTime: int)

  /** What the engine keeps. `time.Time{}` is 0, before every modification time. */
  datatype Engine = Engine(installed: string, lastModTime: int)

  predicate Good(compiles: Compiles, content: string) {
    content != "" && compiles(content)
  }

  /** One tick: whether the watcher's stat, the read, and the second stat in `applyPolicy` succeed. */
  datatype Tick = Tick(statOk: bool, readOk: bool, restatOk: bool)

  /** The outside world replaces the file, or the watcher ticks. Ticks are atomic with respect to edits. */
  datatype Action = Edit(file: File) | Poll(tick: Tick)

  function AfterTick(compiles: Compiles, e: Engine, f: File, t: Tick): Engine {
    if !t.statOk || f.modTime <= e.lastModTime || !t.readOk || !Good(compiles, f.content) then e
    else Engine(f.content, if t.restatOk then f.modTime else e.lastModTime)
  }

  datatype World = World(file: File, engine: Engine)

  function Step(compiles: Compiles, w: World, a: Action): World {
    match a
    case Edit(f) => w.(file := f)
    case Poll(t) => w.(engine := AfterTick(compiles, w.engine, w.file, t))
  }

  function After(compiles: Compiles, w: World, actions: seq<Action>): World {
    if actions == [] then w else Step(compiles, After(compiles, w, actions[..|actions| - 1]), actions[|actions| - 1])
  }

  /** `newEngine` for a file source that can be read: an empty file stands for the default policy. */
  function Startup(compiles: Compiles, f: File, statOk: bool): Option<Engine> {
    var content := if f.content == "" then DEFAULT_POLICY else f.content;
    if compiles(content) then Some(Engine(content, if statOk then f.modTime else 0)) else None
  }

  // ----- the specification: no modification times, reload at every tick

  /** The policy a watcher would run that reloaded at every successful tick. */
  function LastGood(compiles: Compiles, f: File, installed: string, actions: seq<Action>): string {
    if actions == [] then installed
    else
      var n := |actions| - 1;
      var before := LastGood(compiles, f, installed, actions[..n]);
      if actions[n].Poll? && actions[n].tick.statOk && actions[n].tick.readOk
        && Good(compiles, FileAt(f, actions[..n]).content)
      then FileAt(f, actions[..n]).content
      else before
  }

  function FileAt(f: File, actions: seq<Action>): File {
    if actions == [] then f
    else if actions[|actions| - 1].Edit? then actions[|actions| - 1].file
    else FileAt(f, actions[..|actions| - 1])
  }

  /** Modification times are positive and every edit has a later one. */
  ghost predicate Increasing(f: File, actions: seq<Action>) {
    f.modTime > 0 && forall n :: 0 <= n < |actions| && actions[n].Edit? ==>
      actions[n].file.modTime > FileAt(f, actions[..n]).modTime
  }

  /**
   * The watcher's knowledge: its time is never ahead of the file's, and when it has caught up, the installed policy is
   * the one compiled from the file's content, unless the content is not usable at all.
   */
  ghost predicate InStep(compiles: Compiles, w: World) {
    && 0 <= w.engine.lastModTime <= w.file.modTime && w.file.modTime > 0
    && compiles(w.engine.installed)
    && (w.engine.lastModTime == w.file.modTime && Good(compiles, w.file.content) ==>
          w.engine.installed == w.file.content)
  }

  lemma {:induction false} WatcherInStep(compiles: Compiles, f: File, statOk: bool, actions: seq<Action>)
    requires Startup(compiles, f, statOk).Some? && Increasing(f, actions)
    ensures
      var w := After(compiles, World(f, Startup(compiles, f, statOk).value), actions);
      InStep(compiles, w) && w.file == FileAt(f, actions)
  {
    if actions != [] {
      var n := |actions| - 1;
      IncreasingPrefix(f, actions, n);
      WatcherInStep(compiles, f, statOk, actions[..n]);
    }
  }

  lemma IncreasingPrefix(f: File, actions: seq<Action>, n: nat)
    requires n <= |actions| && Increasing(f, actions)
    ensures Increasing(f, actions[..n])
  {
    forall k | 0 <= k < n && actions[..n][k].Edit?
      ensures actions[..n][k].file.modTime > FileAt(f, actions[..n][..k]).modTime
    {
      assert actions[..n][..k] == actions[..k];
    }
  }

  /**
   * The modification-time check is invisible: in every run with increasing times, the watcher runs exactly the policy
   * of a watcher that reloads at every tick, which is the last usable content a successful tick saw.
   */
  lemma {:induction false} ReloadRefinesAlways(compiles: Compiles, f: File, statOk: bool, actions: seq<Action>)
    requires Startup(compiles, f, statOk).Some? && Increasing(f, actions)
    ensures
      var start := Startup(compiles, f, statOk).value;
      After(compiles, World(f, start), actions).engine.installed == LastGood(compiles, f, start.installed, actions)
  {
    if actions != [] {
      var n := |actions| - 1;
      IncreasingPrefix(f, actions, n);
      ReloadRefinesAlways(compiles, f, statOk, actions[..n]);
      WatcherInStep(compiles, f, statOk, actions[..n]);
    }
  }

  /** A usable edit is never missed: the next successful tick runs it. An unusable one changes nothing at all. */
  lemma NextTick(compiles: Compiles, f: File, statOk: bool, actions: seq<Action>, t: Tick)
    requires Startup(compiles, f, statOk).Some? && Increasing(f, actions)
    ensures
      var w := After(compiles, World(f, Startup(compiles, f, statOk).value), actions);
      var e := AfterTick(compiles, w.engine, w.file, t);
      var usable := w.file.content != "" && compiles(w.file.content);
      && (usable && t.statOk && t.readOk ==> e.installed == w.file.content)
      && (!usable || !t.statOk || !t.readOk ==> e == w.engine)
  {
    WatcherInStep(compiles, f, statOk, actions);
  }

  /**
   * After any run, `lastModTime` equals the file's time only if the installed policy is the one compiled from the
   * file's content, or the default policy for a file that was empty at startup.
   */
  lemma {:induction false} CaughtUp(compiles: Compiles, f: File, statOk: bool, actions: seq<Action>)
    requires Startup(compiles, f, statOk).Some? && Increasing(f, actions)
    ensures
      var w := After(compiles, World(f, Startup(compiles, f, statOk).value), actions);
      w.engine.lastModTime == w.file.modTime ==>
        w.engine.installed == if w.file.content == "" then DEFAULT_POLICY else w.file.content
  {
    if actions != [] {
      var n := |actions| - 1;
      IncreasingPrefix(f, actions, n);
      CaughtUp(compiles, f, statOk, actions[..n]);
      WatcherInStep(compiles, f, statOk, actions[..n]);
    }
  }

  // ----- without increasing times

  /** At the tick, usable content is behind a modification time no later than the one remembered. */
  ghost predicate Hidden(compiles: Compiles, w: World, a: Action) {
    && a.Poll? && a.tick.statOk && a.tick.readOk && Good(compiles, w.file.content)
    && w.file.modTime <= w.engine.lastModTime && w.file.content != w.engine.installed
  }

  ghost predicate Agrees(compiles: Compiles, start: World, actions: seq<Action>) {
    After(compiles, start, actions).engine.installed
    == LastGood(compiles, start.file, start.engine.installed, actions)
  }

  ghost predicate AgreesThroughout(compiles: Compiles, start: World, actions: seq<Action>) {
    forall n :: 0 <= n <= |actions| ==> Agrees(compiles, start, actions[..n])
  }

  ghost predicate NeverHidden(compiles: Compiles, start: World, actions: seq<Action>) {
    forall n :: 0 <= n < |actions| ==> !Hidden(compiles, After(compiles, start, actions[..n]), actions[n])
  }

  lemma {:induction false} FileFollows(compiles: Compiles, start: World, actions: seq<Action>)
    ensures After(compiles, start, actions).file == FileAt(start.file, actions)
  {
    if actions != [] { FileFollows(compiles, start, actions[..|actions| - 1]); }
  }

  lemma AgreementGrows(compiles: Compiles, start: World, actions: seq<Action>)
    requires actions != []
    ensures AgreesThroughout(compiles, start, actions) <==>
      AgreesThroughout(compiles, start, actions[..|actions| - 1]) && Agrees(compiles, start, actions)
  {
    var n := |actions| - 1;
    if AgreesThroughout(compiles, start, actions) {
      forall k | 0 <= k <= n ensures Agrees(compiles, start, actions[..n][..k]) {
        assert actions[..n][..k] == actions[..k];
      }
      assert Agrees(compiles, start, actions[..n + 1]) && actions[..n + 1] == actions;
    }
    if AgreesThroughout(compiles, start, actions[..n]) && Agrees(compiles, start, actions) {
      forall k | 0 <= k <= n + 1 ensures Agrees(compiles, start, actions[..k]) {
        if k <= n {
          assert actions[..n][..k] == actions[..k];
        } else {
          assert actions[..k] == actions;
        }
      }
    }
  }

  lemma HidingGrows(compiles: Compiles, start: World, actions: seq<Action>)
    requires actions != []
    ensures
      var n := |actions| - 1;
      NeverHidden(compiles, start, actions) <==>
        NeverHidden(compiles, start, actions[..n])
          && !Hidden(compiles, After(compiles, start, actions[..n]), actions[n])
  {
    var n := |actions| - 1;
    assert forall k :: 0 <= k <= n ==> actions[..n][..k] == actions[..k];
    assert forall k :: 0 <= k < n ==> actions[..n][k] == actions[k];
  }

  lemma LastAgrees(compiles: Compiles, start: World, actions: seq<Action>)
    requires actions != [] && Agrees(compiles, start, actions[..|actions| - 1])
    ensures Agrees(compiles, start, actions)
      <==> !Hidden(compiles, After(compiles, start, actions[..|actions| - 1]), actions[|actions| - 1])
  {
    FileFollows(compiles, start, actions[..|actions| - 1]);
  }

  /**
   * In every run, whatever the times and from whatever start: the watcher runs the policy of one that reloads at every
   * tick, all the way, exactly when no tick finds usable content it does not run yet behind a time that is not later.
   */
  lemma {:induction false} MissedExactly(compiles: Compiles, start: World, actions: seq<Action>)
    ensures AgreesThroughout(compiles, start, actions) <==> NeverHidden(compiles, start, actions)
  {
    if actions != [] {
      var earlier := actions[..|actions| - 1];
      MissedExactly(compiles, start, earlier);
      AgreementGrows(compiles, start, actions);
      HidingGrows(compiles, start, actions);
      if AgreesThroughout(compiles, start, earlier) {
        assert earlier[..|earlier|] == earlier;
        LastAgrees(compiles, start, actions);
      }
    }
  }

  /**
   * A usable edit with a time that is not later is not just delayed: no number of ticks installs it. With a later
   * time, any successful tick does.
   */
  lemma {:induction false} SameTimeEditMissed(compiles: Compiles, w: World, ticks: seq<Action>)
    requires Good(compiles, w.file.content) && w.engine.installed != w.file.content
    requires forall a :: a in ticks ==> a.Poll?
    ensures After(compiles, w, ticks).engine.installed == w.file.content
      <==> w.file.modTime > w.engine.lastModTime && exists a :: a in ticks && a.tick.statOk && a.tick.readOk
    ensures After(compiles, w, ticks).file == w.file
    ensures After(compiles, w, ticks).engine.installed != w.file.content ==> After(compiles, w, ticks) == w
  {
    if ticks != [] {
      var n := |ticks| - 1;
      var earlier, last := ticks[..n], ticks[n];
      SameTimeEditMissed(compiles, w, earlier);
      assert last in ticks && forall a :: a in ticks <==> a in earlier || a == last;
      if After(compiles, w, earlier).engine.installed == w.file.content {
        var a :| a in earlier && a.tick.statOk && a.tick.readOk;
        assert a in ticks;
      }
    }
  }

  /** The plainest case: an edit within the clock's resolution of the start is never seen. */
  lemma EditMissed(compiles: Compiles, original: string, edited: string, ticks: seq<Action>)
    requires Good(compiles, original) && Good(compiles, edited) && original != edited
    requires forall a :: a in ticks ==> a.Poll?
    ensures
      var start := Startup(compiles, File(original, 1), true);
      start.Some? && After(compiles, World(File(edited, 1), start.value), ticks).engine.installed == original
  {
    SameTimeEditMissed(compiles, World(File(edited, 1), Startup(compiles, File(original, 1), true).value), ticks);
  }

  // ----- stopping

  /**
   * The watcher goroutine and what it selects on: a tick ready to be taken, and the closed channel. From Go 1.23 on, a
   * stopped ticker takes its ready tick back.
   */
  datatype Watcher = Watcher(
    tickerStopped: bool, pending: bool, doneClosed: bool, exited: bool, panicked: bool, ticks: nat)

  datatype WatcherAction = Fire | TakeTick | SeeDone | Halt

  const RUNNING := Watcher(false, false, false, false, false, 0)

  predicate CanStep(w: Watcher, a: WatcherAction) {
    match a
    case Fire => !w.tickerStopped
    case TakeTick => !w.exited && w.pending
    case SeeDone => !w.exited && w.doneClosed
    case Halt => true
  }

  /** Closing a closed channel panics. */
  function CloseDone(w: Watcher): Watcher {
    w.(doneClosed := true, panicked := w.panicked || w.doneClosed)
  }

  function WatcherStep(w: Watcher, a: WatcherAction): Watcher {
    match a
    case Fire => w.(pending := true)
    case TakeTick => w.(pending := false, ticks := w.ticks + 1)
    case SeeDone => w.(exited := true)
    case Halt =>
      var halted := w.(tickerStopped := true, pending := false);
      if w.doneClosed then halted else CloseDone(halted)
  }

  predicate WatcherRuns(w: Watcher, actions: seq<WatcherAction>)
    decreases |actions|
  {
    actions == [] || (CanStep(w, actions[0]) && WatcherRuns(WatcherStep(w, actions[0]), actions[1..]))
  }

  function WatcherAfter(w: Watcher, actions: seq<WatcherAction>): Watcher
    decreases |actions|
  {
    if actions == [] then w else WatcherAfter(WatcherStep(w, actions[0]), actions[1..])
  }

  /** Reachable watchers: the channel is closed together with the ticker, and never twice. */
  ghost predicate WatcherInv(w: Watcher) {
    w.doneClosed == w.tickerStopped && !(w.doneClosed && w.pending) && !w.panicked && (w.exited ==> w.doneClosed)
  }

  /**
   * However often it is stopped, in every interleaving: nothing panics, no tick is taken any more, the watcher can
   * exit.
   */
  lemma {:induction false} StopQuiets(w: Watcher, actions: seq<WatcherAction>)
    requires WatcherInv(w) && WatcherRuns(w, actions)
    ensures
      var end := WatcherAfter(w, actions);
      && WatcherInv(end)
      && (w.doneClosed ==> end.doneClosed && end.ticks == w.ticks)
      && (end.doneClosed && !end.exited ==> CanStep(end, SeeDone))
    decreases |actions|
  {
    if actions != [] { StopQuiets(WatcherStep(w, actions[0]), actions[1..]); }
  }

  /** From the start: whatever happens before and after a `Stop`, no panic, and not one more tick. */
  lemma NothingAfterStop(before: seq<WatcherAction>, after: seq<WatcherAction>)
    requires WatcherRuns(RUNNING, before) && WatcherRuns(WatcherStep(WatcherAfter(RUNNING, before), Halt), after)
    ensures
      var stopped := WatcherStep(WatcherAfter(RUNNING, before), Halt);
      var end := WatcherAfter(stopped, after);
      !end.panicked && end.ticks == WatcherAfter(RUNNING, before).ticks && (!end.exited ==> CanStep(end, SeeDone))
  {
    StopQuiets(RUNNING, before);
    StopQuiets(WatcherStep(WatcherAfter(RUNNING, before), Halt), after);
  }

  // ----- the engine

  class FileEngine {
    const compiles: Compiles
    var prepared: string
    var lastModTime: int
    var watcher: Watcher

    /** Built from a startup that succeeded. */
    constructor (compiles: Compiles, content: string, modTime: int)
      requires compiles(if content == "" then DEFAULT_POLICY else content)
      ensures this.compiles == compiles && watcher == RUNNING
      ensures Startup(compiles, File(content, modTime), true) == Some(Current())
    {
      this.compiles := compiles;
      prepared := if content == "" then DEFAULT_POLICY else content;
      lastModTime, watcher := modTime, RUNNING;
    }

    ghost function Current(): Engine
      reads this
    {
      Engine(prepared, lastModTime)
    }

    /** `applyPolicy`: an empty text is ignored, a broken one is an error, and neither changes anything. */
    method ApplyPolicy(content: string, file: File, restatOk: bool) returns (ok: bool)
      modifies `prepared, `lastModTime
      ensures ok == (content == "" || compiles(content))
      ensures prepared == if content != "" && compiles(content) then content else old(prepared)
      ensures lastModTime ==
        if content != "" && compiles(content) && restatOk then file.modTime else old(lastModTime)
    {
      if content == "" {
        return true;
      }
      if !compiles(content) {
        return false;
      }
      prepared := content;
      if restatOk {
        lastModTime := file.modTime;
      }
      ok := true;
    }

    /** One turn of `watchFile`, with `reloadFromFile` inlined. */
    method WatchTick(file: File, t: Tick)
      modifies `prepared, `lastModTime
      ensures Current() == AfterTick(compiles, old(Current()), file, t)
    {
      if !t.statOk {
        return;
      }
      if file.modTime > lastModTime {
        if t.readOk {
          var _ := ApplyPolicy(file.content, file, t.restatOk);
        }
      }
    }

    /** The source's guard: the channel is closed unless it already is. */
    method Stop()
      requires WatcherInv(watcher)
      modifies `watcher
      ensures watcher == WatcherStep(old(watcher), Halt)
      ensures WatcherInv(watcher) && watcher.doneClosed && (old(watcher.doneClosed) ==> watcher == old(watcher))
    {
      watcher := watcher.(tickerStopped := true, pending := false);
      if !watcher.doneClosed {
        watcher := CloseDone(watcher);
      }
    }
  }
}
