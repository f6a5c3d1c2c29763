/** The step-execution engine of lib/runner.ts.

    A run first tries to build a browser session. If that raises, the whole run is
    simulated; otherwise every step is dispatched to the session. Each step is then
    resolved on its own (dispatch, best-effort screenshot, duration) into exactly
    one result, appended in step order, and the session is quit at the end. A
    `null` entry among the steps makes the run raise when it reaches that entry:
    the results so far are lost and the session is never quit.

    The browser, the placeholder image generator and the wall clock are not code
    of this model: they are oracles carried by a `Host`.
 */
module Runner {
  import opened Types

  /** How a click finds its element. */
  datatype Locator = ByCss(css: string) | ByXPath(xpath: string)

  /** A command a step sends to the browser session. */
  datatype Command = Get(url: string) | FindAndClick(locator: Locator)

  /** A raised error: its `message` property, and the text `String(err)` renders. */
  datatype Fault = Fault(message: Option<string>, shown: string)

  /** A live browser session, as an oracle. `respond(i, c)` is the fault command
      `c` raises at step `i` (None: it succeeds); `capture(i)` is the screenshot
      taken after step `i` (None: capture raised); `quit` is the fault teardown
      raises, if any. */
  datatype Browser = Browser(
    respond: (nat, Command) -> Option<Fault>,
    capture: nat -> Option<string>,
    quit: Option<Fault>)

  /** Wall-clock readings taken when a step starts and when it is recorded. */
  datatype Interval = Interval(start: int, end: int)

  /** Everything a run depends on besides its script. `driver` is the session the
      builder produced, or None when building it raised; `placeholder` is the
      simulated-screenshot generator; `clock(i)` brackets step `i`. */
  datatype Host = Host(
    driver: Option<Browser>,
    placeholder: (nat, string) -> string,
    clock: nat -> Interval)

  /** One interaction with the browser session, tagged with the step it serves. */
  datatype DriverCall = Issue(step: nat, command: Command) | TakeScreenshot(step: nat) | Quit

  const DefaultKind: string := "css"
  const DefaultLabel: string := "StepShot"

  /** The message of the TypeError raised by reading `action` of a `null` step. */
  const NullStepError: string := "Cannot read properties of null (reading 'action')"

  /** The locator of a click: CSS when the declared kind is 'css' or absent, XPath
      for any other kind. */
  function Locate(kind: Option<string>, value: string): (loc: Locator)
    ensures loc.ByCss? <==> kind.None? || kind.value == "css"
    ensures loc == ByCss(value) || loc == ByXPath(value)
  {
    if kind.GetOr(DefaultKind) == "css" then ByCss(value) else ByXPath(value)
  }

  /** A click step whose selector carries a non-empty value. */
  predicate Clickable(step: Step) {
    step.selector.Some? && Truthy(step.selector.value.value)
  }

  /** The steps the driver flow tolerates without talking to the browser: a
      navigate without target, a click without selector value, any other action. */
  predicate NoOp(step: Step) {
    || (step.action == Some("navigate") && !Truthy(step.target))
    || (step.action == Some("click") && !Clickable(step))
    || (step.action != Some("navigate") && step.action != Some("click"))
  }

  /** The browser command a step issues in driver mode, if any. */
  function CommandFor(step: Step): (c: Option<Command>)
    ensures c.None? <==> NoOp(step)
    ensures (c.Some? && c.value.Get?) <==> step.action == Some("navigate") && Truthy(step.target)
    ensures c.Some? && c.value.Get? ==> c.value.url == step.target.value
    ensures (c.Some? && c.value.FindAndClick?) <==> step.action == Some("click") && Clickable(step)
    ensures c.Some? && c.value.FindAndClick? ==>
              c.value.locator == Locate(step.selector.value.kind, step.selector.value.value.value)
  {
    if step.action == Some("navigate") then
      if Truthy(step.target) then Some(Get(step.target.value)) else None
    else if step.action == Some("click") then
      if Clickable(step) then
        var sel := step.selector.value;
        Some(FindAndClick(Locate(sel.kind, sel.value.value)))
      else None
    else None
  }

  /** The fault dispatching step `i` raises in driver mode, if any. */
  function DispatchFault(b: Browser, i: nat, step: Step): Option<Fault> {
    match CommandFor(step)
    case None => None
    case Some(c) => b.respond(i, c)
  }

  /** The error text recorded for a fault: its message, else its rendering. */
  function ErrorText(f: Fault): string {
    f.message.GetOr(f.shown)
  }

  /** The label simulated screenshots are keyed on. */
  function Label(script: Script): string {
    script.name.GetOr(DefaultLabel)
  }

  /** The exported helper: the placeholder for a named script's step. */
  function PlaceholderFor(placeholder: (nat, string) -> string, scriptName: string, stepIndex: nat): string {
    placeholder(stepIndex, scriptName)
  }

  /** The result a step starts from, before it is resolved. */
  function Begin(i: nat, step: Step): StepResult {
    StepResult(i, step.action, Pending, 0, None, None)
  }

  /** Best-effort screenshot: a capture that raises leaves the result as it was. */
  function Capture(r: StepResult, b: Browser, i: nat): StepResult {
    match b.capture(i)
    case Some(shot) => r.(screenshot := Some(shot))
    case None => r
  }

  /** The try and catch blocks of one step. */
  function Settle(script: Script, host: Host, i: nat): StepResult
    requires i < |script.steps| && script.steps[i].Some?
  {
    var step := script.steps[i].value;
    var started := Begin(i, step);
    match host.driver
    case None =>
      started.(status := Passed, screenshot := Some(host.placeholder(i, Label(script))))
    case Some(b) =>
      match DispatchFault(b, i, step)
      case None => Capture(started.(status := Passed), b, i)
      case Some(f) => Capture(started.(status := Failed, error := Some(ErrorText(f))), b, i)
  }

  /** Time between two clock readings. */
  function Elapsed(iv: Interval): int {
    iv.end - iv.start
  }

  /** The result recorded for step `i`, the finally block adding its duration. */
  function ResolveStep(script: Script, host: Host, i: nat): (r: StepResult)
    requires i < |script.steps| && script.steps[i].Some?
    ensures r.index == i && r.action == script.steps[i].value.action
    ensures r.status.Settled()
    ensures r.duration == Elapsed(host.clock(i))
    ensures host.driver.None? ==>
              && r.status == Passed
              && r.error == None
              && r.screenshot == Some(host.placeholder(i, Label(script)))
    ensures host.driver.Some? ==> r.screenshot == host.driver.value.capture(i)
    ensures host.driver.Some? ==>
              (r.status == Failed <==> DispatchFault(host.driver.value, i, script.steps[i].value).Some?)
    ensures host.driver.Some? && r.status == Failed ==>
              r.error == Some(ErrorText(DispatchFault(host.driver.value, i, script.steps[i].value).value))
    ensures r.status == Passed ==> r.error == None
    ensures host.driver.Some? && NoOp(script.steps[i].value) ==> r.status == Passed
  {
    Settle(script, host, i).(duration := Elapsed(host.clock(i)))
  }

  /** Every entry of the script is a step, none is `null`. */
  predicate Loaded(script: Script) {
    forall i :: 0 <= i < |script.steps| ==> script.steps[i].Some?
  }

  /** How far the loop gets: the position of the first `null` entry, or the
      number of entries when there is none. */
  function Reached(steps: seq<Option<Step>>): (k: nat)
    ensures k <= |steps|
    ensures forall i :: 0 <= i < k ==> steps[i].Some?
    ensures k < |steps| ==> steps[k].None?
  {
    if steps == [] || steps[0].None? then 0 else 1 + Reached(steps[1..])
  }

  /** The results of the first `n` steps, pushed in order. */
  function Results(script: Script, host: Host, n: nat): (rs: seq<StepResult>)
    requires n <= Reached(script.steps)
    ensures |rs| == n
    ensures forall k :: 0 <= k < n ==> rs[k] == ResolveStep(script, host, k)
  {
    if n == 0 then [] else Results(script, host, n - 1) + [ResolveStep(script, host, n - 1)]
  }

  /** The mode a run reports, fixed by whether the session could be built. */
  function ModeOf(host: Host): Mode {
    if host.driver.Some? then Driver else Simulation
  }

  /** One run of the engine. */
  function Execute(script: Script, host: Host): (o: Outcome)
    ensures o.Returned? <==> Loaded(script)
    ensures o.Threw? ==> o.message == Some(NullStepError)
    ensures o.Returned? ==>
              && |o.execution.results| == |script.steps|
              && (o.execution.mode == Simulation <==> host.driver.None?)
    ensures o.Returned? ==>
              forall i :: 0 <= i < |o.execution.results| ==>
                && o.execution.results[i].index == i
                && o.execution.results[i].action == script.steps[i].value.action
                && o.execution.results[i].status.Settled()
    ensures o.Returned? ==>
              forall i :: 0 <= i < |o.execution.results| ==> o.execution.results[i] == ResolveStep(script, host, i)
  {
    var k := Reached(script.steps);
    if k < |script.steps| then Threw(Some(NullStepError))
    else Returned(Execution(Results(script, host, k), ModeOf(host)))
  }

  /** The engine as the source writes it: one sequential loop that pushes one
      result per step, and raises at a `null` entry. */
  method ExecuteScript(script: Script, host: Host) returns (o: Outcome)
    ensures o == Execute(script, host)
    ensures o.Returned? ==> |o.execution.results| == |script.steps|
  {
    var usingSim := host.driver.None?;
    var results: seq<StepResult> := [];
    var i := 0;
    while i < |script.steps|
      invariant 0 <= i <= Reached(script.steps)
      invariant results == Results(script, host, i)
    {
      if script.steps[i].None? {
        return Threw(Some(NullStepError));
      }
      results := results + [ResolveStep(script, host, i)];
      i := i + 1;
    }
    o := Returned(Execution(results, if usingSim then Simulation else Driver));
  }

  /** The browser interactions of step `i` in driver mode: its command, if any,
      then one screenshot attempt whatever the command did. */
  function StepCalls(i: nat, step: Step): (cs: seq<DriverCall>)
    ensures |cs| == if NoOp(step) then 1 else 2
    ensures cs[|cs| - 1] == TakeScreenshot(i)
    ensures !NoOp(step) ==> cs[0] == Issue(i, CommandFor(step).value)
    ensures forall j :: 0 <= j < |cs| ==> !cs[j].Quit? && cs[j].step == i
  {
    match CommandFor(step)
    case None => [TakeScreenshot(i)]
    case Some(c) => [Issue(i, c), TakeScreenshot(i)]
  }

  /** Every call serves one of the first `n` steps, and calls come in step order. */
  predicate InStepOrder(cs: seq<DriverCall>, n: nat) {
    && (forall j :: 0 <= j < |cs| ==> !cs[j].Quit? && cs[j].step < n)
    && (forall j, j' :: 0 <= j < j' < |cs| ==> !cs[j].Quit? && !cs[j'].Quit? && cs[j].step <= cs[j'].step)
  }

  /** Every command is immediately followed by its step's screenshot attempt. */
  predicate ShotFollowsCommand(cs: seq<DriverCall>) {
    && (forall j :: 0 <= j < |cs| && cs[j].Issue? ==> j + 1 < |cs|)
    && (forall j, j' :: 0 <= j < |cs| && j' == j + 1 < |cs| && cs[j].Issue? ==> cs[j'] == TakeScreenshot(cs[j].step))
  }

  /** Each of the first `n` steps makes exactly one screenshot attempt, and no
      later step makes any. */
  ghost predicate OneShotPerStep(cs: seq<DriverCall>, n: nat) {
    forall k: nat :: multiset(cs)[TakeScreenshot(k)] == if k < n then 1 else 0
  }

  /** The commands issued are exactly those the first `n` steps call for. */
  ghost predicate IssuesAsCommanded(script: Script, cs: seq<DriverCall>, n: nat)
    requires n <= Reached(script.steps)
  {
    forall k: nat, c :: Issue(k, c) in cs <==> k < n && CommandFor(script.steps[k].value) == Some(c)
  }

  /** Appending step `n - 1`'s calls keeps the calls in step order. */
  lemma {:induction false} AppendKeepsOrder(prev: seq<DriverCall>, i: nat, step: Step)
    requires InStepOrder(prev, i)
    ensures InStepOrder(prev + StepCalls(i, step), i + 1)
  {
    var last := StepCalls(i, step);
    var cs := prev + last;
    forall j, j' | 0 <= j < j' < |cs|
      ensures cs[j].step <= cs[j'].step
    {
      if j' < |prev| {
      } else if j < |prev| {
        assert cs[j'] == last[j' - |prev|];
      } else {
        assert cs[j] == last[j - |prev|] && cs[j'] == last[j' - |prev|];
      }
    }
  }

  /** Appending a step's calls keeps every command followed by its screenshot
      attempt. */
  lemma {:induction false} AppendKeepsPairs(prev: seq<DriverCall>, i: nat, step: Step)
    requires ShotFollowsCommand(prev)
    ensures ShotFollowsCommand(prev + StepCalls(i, step))
  {
  }

  /** The steps whose screenshot is attempted, in call order. */
  function ShotSteps(cs: seq<DriverCall>): seq<nat> {
    if cs == [] then []
    else ShotSteps(cs[..|cs| - 1]) + (if cs[|cs| - 1].TakeScreenshot? then [cs[|cs| - 1].step] else [])
  }

  /** The screenshot attempts of two stretches of calls, one after the other. */
  lemma {:induction false} ShotStepsAppend(a: seq<DriverCall>, b: seq<DriverCall>)
    ensures ShotSteps(a + b) == ShotSteps(a) + ShotSteps(b)
    decreases |b|
  {
    if b != [] {
      var b' := b[..|b| - 1];
      assert (a + b)[..|a + b| - 1] == a + b';
      assert (a + b)[|a + b| - 1] == b[|b| - 1];
      ShotStepsAppend(a, b');
    } else {
      assert a + b == a;
    }
  }

  /** A call sequence attempts a screenshot of step `k` as often as `k` occurs in
      its screenshot steps. */
  lemma {:induction false} ShotStepsCount(cs: seq<DriverCall>, k: nat)
    ensures multiset(cs)[TakeScreenshot(k)] == multiset(ShotSteps(cs))[k]
  {
    if cs != [] {
      var init := cs[..|cs| - 1];
      assert cs == init + [cs[|cs| - 1]];
      ShotStepsCount(init, k);
    }
  }

  /** A step makes one screenshot attempt, its own. */
  lemma StepShootsOnce(i: nat, step: Step)
    ensures ShotSteps(StepCalls(i, step)) == [i]
  {
    var cs := StepCalls(i, step);
    assert cs[..|cs| - 1] == if |cs| == 2 then [cs[0]] else [];
    if |cs| == 2 {
      assert [cs[0]][..0] == [] && cs[0].Issue?;
      assert ShotSteps([cs[0]]) == [];
    }
  }

  /** The step indices below `n`, in increasing order. */
  function Upto(n: nat): seq<nat> {
    if n == 0 then [] else Upto(n - 1) + [n - 1]
  }

  /** Each step index below `n` occurs once in `Upto(n)`, and no other does. */
  lemma {:induction false} UptoCount(n: nat, k: nat)
    ensures multiset(Upto(n))[k] == if k < n then 1 else 0
  {
    if n > 0 {
      var r := Upto(n - 1);
      UptoCount(n - 1, k);
      assert Upto(n) == r + [n - 1];
      assert multiset(r + [n - 1]) == multiset(r) + multiset([n - 1]);
    }
  }

  /** Appending step `n - 1`'s calls adds exactly its command, if it has one. */
  lemma {:induction false} AppendIssues(script: Script, prev: seq<DriverCall>, n: nat)
    requires 0 < n <= Reached(script.steps)
    requires IssuesAsCommanded(script, prev, n - 1)
    ensures IssuesAsCommanded(script, prev + StepCalls(n - 1, script.steps[n - 1].value), n)
  {
    var step := script.steps[n - 1].value;
    var last := StepCalls(n - 1, step);
    var cs := prev + last;
    forall k: nat, c
      ensures Issue(k, c) in cs <==> k < n && CommandFor(script.steps[k].value) == Some(c)
    {
      if k == n - 1 {
        assert Issue(k, c) !in prev;
        assert Issue(k, c) in last <==> CommandFor(step) == Some(c) by {
          if |last| == 2 {
            assert last == [last[0], TakeScreenshot(n - 1)];
          } else {
            assert last == [TakeScreenshot(n - 1)];
          }
        }
      } else {
        assert forall j :: 0 <= j < |last| ==> last[j] != Issue(k, c);
      }
    }
  }

  /** The browser interactions of the first `n` steps, one step after another. */
  function StepsCalls(script: Script, n: nat): seq<DriverCall>
    requires n <= Reached(script.steps)
  {
    if n == 0 then [] else StepsCalls(script, n - 1) + StepCalls(n - 1, script.steps[n - 1].value)
  }

  /** The calls of the first `n` steps serve those steps, in step order. */
  lemma {:induction false} CallsInStepOrder(script: Script, n: nat)
    requires n <= Reached(script.steps)
    ensures InStepOrder(StepsCalls(script, n), n)
  {
    if n > 0 {
      CallsInStepOrder(script, n - 1);
      AppendKeepsOrder(StepsCalls(script, n - 1), n - 1, script.steps[n - 1].value);
    }
  }

  /** Among the calls of the first `n` steps, every command is immediately
      followed by its step's screenshot attempt. */
  lemma {:induction false} CallsPairShotWithCommand(script: Script, n: nat)
    requires n <= Reached(script.steps)
    ensures ShotFollowsCommand(StepsCalls(script, n))
  {
    if n > 0 {
      CallsPairShotWithCommand(script, n - 1);
      AppendKeepsPairs(StepsCalls(script, n - 1), n - 1, script.steps[n - 1].value);
    }
  }

  /** The screenshot attempts of the first `n` steps are one per step, in step
      order. */
  lemma {:induction false} CallsShootEachStepOnce(script: Script, n: nat)
    requires n <= Reached(script.steps)
    ensures ShotSteps(StepsCalls(script, n)) == Upto(n)
  {
    if n > 0 {
      var prev := StepsCalls(script, n - 1);
      var last := StepCalls(n - 1, script.steps[n - 1].value);
      CallsShootEachStepOnce(script, n - 1);
      ShotStepsAppend(prev, last);
      StepShootsOnce(n - 1, script.steps[n - 1].value);
    }
  }

  /** The calls of the first `n` steps issue exactly the commands those steps
      call for. */
  lemma {:induction false} CallsIssueCommands(script: Script, n: nat)
    requires n <= Reached(script.steps)
    ensures IssuesAsCommanded(script, StepsCalls(script, n), n)
  {
    if n > 0 {
      CallsIssueCommands(script, n - 1);
      AppendIssues(script, StepsCalls(script, n - 1), n);
    }
  }

  /** The calls of the steps a run reaches contain no quit, and one screenshot
      attempt for each of those steps only. */
  lemma {:induction false} ReachedCallsNeverQuit(script: Script, n: nat)
    requires n <= Reached(script.steps)
    ensures Quit !in StepsCalls(script, n)
    ensures OneShotPerStep(StepsCalls(script, n), n)
  {
    var steps := StepsCalls(script, n);
    CallsInStepOrder(script, n);
    CallsShootEachStepOnce(script, n);
    assert forall j :: 0 <= j < |steps| ==> steps[j] != Quit;
    forall k: nat
      ensures multiset(steps)[TakeScreenshot(k)] == if k < n then 1 else 0
    {
      ShotStepsCount(steps, k);
      UptoCount(n, k);
    }
  }

  /** Every browser interaction of a run: none when simulated; otherwise the
      calls of each step the loop reaches, then a quit only if the loop completed. */
  function Calls(script: Script, host: Host): (cs: seq<DriverCall>)
    ensures host.driver.None? ==> cs == []
    ensures host.driver.Some? && Loaded(script) ==>
              |cs| > 0 && cs[|cs| - 1] == Quit && Quit !in cs[..|cs| - 1]
    ensures !Loaded(script) ==> Quit !in cs
    ensures host.driver.Some? ==>
              forall k :: 0 <= k < |script.steps| ==>
                multiset(cs)[TakeScreenshot(k)] == if k < Reached(script.steps) then 1 else 0
  {
    if host.driver.None? then []
    else
      var k := Reached(script.steps);
      var steps := StepsCalls(script, k);
      var tail := if k == |script.steps| then [Quit] else [];
      ReachedCallsNeverQuit(script, k);
      assert Loaded(script) ==> (steps + tail)[..|steps + tail| - 1] == steps;
      assert multiset(steps + tail) == multiset(steps) + multiset(tail);
      assert forall i: nat :: multiset(tail)[TakeScreenshot(i)] == 0;
      steps + tail
  }

  /** The trace and the results tell one story: in driver mode step `k`'s one
      screenshot attempt is the capture its result shows, and the step failed
      exactly when the command it issued was answered with a fault. */
  lemma TraceDecidesResults(script: Script, host: Host)
    requires host.driver.Some?
    ensures var o := Execute(script, host);
            var cs := Calls(script, host);
            var b := host.driver.value;
            o.Returned? ==>
              forall k :: 0 <= k < |script.steps| ==>
                && TakeScreenshot(k) in cs
                && o.execution.results[k].screenshot == b.capture(k)
                && (o.execution.results[k].status == Failed <==>
                      exists c :: Issue(k, c) in cs && b.respond(k, c).Some?)
  {
    var o := Execute(script, host);
    var cs := Calls(script, host);
    var b := host.driver.value;
    if o.Returned? {
      var n := |script.steps|;
      var trace := StepsCalls(script, n);
      assert cs == trace + [Quit];
      CallsIssueCommands(script, n);
      forall k | 0 <= k < n
        ensures TakeScreenshot(k) in cs
        ensures (o.execution.results[k].status == Failed <==>
                   exists c :: Issue(k, c) in cs && b.respond(k, c).Some?)
      {
        assert multiset(cs)[TakeScreenshot(k)] == 1;
        if o.execution.results[k].status == Failed {
          var c := CommandFor(script.steps[k].value).value;
          assert Issue(k, c) in trace;
          assert Issue(k, c) in cs;
        }
      }
    }
  }

  /** A `null` entry makes the run raise, whatever the mode: no execution is
      returned, the steps before it have still talked to the browser, and the
      session is never quit. */
  lemma NullEntryAborts(script: Script, host: Host, k: nat)
    requires k < |script.steps| && script.steps[k].None?
    ensures Execute(script, host) == Threw(Some(NullStepError))
    ensures Quit !in Calls(script, host)
  {
  }

  /** A simulated run passes every step with the placeholder keyed on the step's
      index and the script's label, and records no error. */
  lemma SimulatedRun(script: Script, host: Host)
    requires host.driver.None?
    ensures var o := Execute(script, host);
            o.Returned? ==>
              && o.execution.mode == Simulation
              && forall i :: 0 <= i < |o.execution.results| ==>
                   && o.execution.results[i].status == Passed
                   && o.execution.results[i].error == None
                   && o.execution.results[i].screenshot == Some(PlaceholderFor(host.placeholder, Label(script), i))
  {
  }

  /** In driver mode a step fails exactly when its dispatch raised, and then
      carries that fault's text; every screenshot comes from the session. */
  lemma DriverRun(script: Script, host: Host)
    requires host.driver.Some?
    ensures var o := Execute(script, host);
            var b := host.driver.value;
            o.Returned? ==>
              && o.execution.mode == Driver
              && forall i :: 0 <= i < |o.execution.results| ==>
                   var r := o.execution.results[i];
                   var fault := DispatchFault(b, i, script.steps[i].value);
                   && r.screenshot == b.capture(i)
                   && (r.status == Failed <==> fault.Some?)
                   && (r.status == Failed ==> r.error == Some(ErrorText(fault.value)))
  {
  }

  /** Screenshot capture never decides a step: replacing the session's capture
      behaviour changes only the screenshot fields. */
  lemma CaptureOnlySetsScreenshots(script: Script, host: Host, capture: nat -> Option<string>)
    requires host.driver.Some?
    ensures var other := host.(driver := Some(host.driver.value.(capture := capture)));
            var o := Execute(script, host);
            var o' := Execute(script, other);
            && o'.Returned? == o.Returned?
            && (o.Returned? ==>
                  forall i :: 0 <= i < |o.execution.results| ==>
                    o'.execution.results[i] == o.execution.results[i].(screenshot := capture(i)))
  {
  }

  /** Whatever teardown does, the outcome is the same. */
  lemma TeardownIsSilent(script: Script, host: Host, quit: Option<Fault>)
    requires host.driver.Some?
    ensures Execute(script, host.(driver := Some(host.driver.value.(quit := quit)))) == Execute(script, host)
  {
  }

  /** The loop carries nothing from one step's result into another's: with the
      session's per-step answers fixed, step `j`'s result depends only on step `j`
      and the script's name. */
  lemma StepsAreIndependent(s1: Script, s2: Script, host: Host, j: nat)
    requires s1.name == s2.name
    requires j < |s1.steps| && j < |s2.steps|
    requires s1.steps[j] == s2.steps[j]
    ensures Execute(s1, host).Returned? && Execute(s2, host).Returned? ==>
              Execute(s1, host).execution.results[j] == Execute(s2, host).execution.results[j]
  {
  }

  /** With a clock that never runs backwards, no recorded duration is negative. */
  lemma DurationsNonNegative(script: Script, host: Host)
    requires forall i: nat :: host.clock(i).start <= host.clock(i).end
    ensures var o := Execute(script, host);
            o.Returned? ==> forall i :: 0 <= i < |o.execution.results| ==> o.execution.results[i].duration >= 0
  {
  }
}
