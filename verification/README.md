# StepShot runner — a Dafny model

StepShot runs a JSON script of UI-automation steps (navigate, click, …) in a
browser and returns a trace with one result per step. Each result holds a status,
a duration, an error and a screenshot. This project models the step-execution
engine (`executeScript` in `lib/runner.ts`) and proves properties about it. It
also models the small pure pieces around the engine: the request gate and
runner-exception fallback of the run endpoint (`pages/api/run.ts`), and the
screenshot-URL normaliser and status-badge choice of the run page
(`pages/index.tsx`).

Modules:

- `Types` (`types.dfy`): the data shapes of `types/index.d.ts`. Those are
  `Step`, `Selector`, `Script`, `StepResult`, `Status`, `Mode` and `Execution`,
  plus `Option` and JavaScript truthiness of optional strings. A field the code
  reads through `?.`, `??` or a truthiness test is optional, because request
  bodies are never checked against the declared types.
- `Runner` (`runner.dfy`): the engine. The run is a sequential fold (`Results`,
  `Execute`) and also the source's loop (`ExecuteScript`). Either one returns an
  `Outcome`: an execution, or an exception. The exception happens when an entry of
  `steps` is `null`. `Calls` is the sequence of browser interactions the run
  issues, each tagged with the step it serves.
- `RunApi` (`run_api.dfy`): method check, payload and steps validation, the
  one-step fallback execution when the runner raises, and the reply shape.
- `View` (`view.dfy`): `getDataUrl` and the badge colour.

The browser session, the placeholder generator and the wall clock are parameters.
A `Runner.Host` carries:

- `driver`: the session, or `None` when building it raised;
- `placeholder`: the `generatePlaceholder` function;
- `clock(i)`: the two `Date.now()` readings around step `i`.

A `Runner.Browser` is an oracle. For each step and command it says whether the
command raises, and with which fault. It also says whether the screenshot succeeds
and with which image, and whether `quit` raises. The runner itself is a parameter
of the endpoint (`Script -> Outcome`). `Runner.Execute` is one such runner,
and `RunApi.ServedByEngine` connects the two.

## Model

| member | source | states |
|---|---|---|
| Runner.Execute | lib/runner.ts:12-123 | The run returns an execution exactly when no entry of `steps` is `null`. Otherwise it raises the TypeError of reading `action` of `null`. When it returns, there is one result per step, in order: `results[i].index == i`, its action is the step's action, and it is never pending. The mode is `Simulation` exactly when building the driver raised, and is one value for the whole run. Each result is the resolution of its own step. |
| Runner.ExecuteScript | lib/runner.ts:31-122 | The source's loop pushes one `ResolveStep` result per iteration, raises at a `null` entry, and has the same outcome as the fold `Execute`. |
| Runner.Reached | lib/runner.ts:33-38 | The loop gets as far as the first `null` entry: every entry before it is a step, and the entry at it is `null` unless it is the end. |
| Runner.Results | lib/runner.ts:33-110 | After `n` iterations there are exactly `n` results, and result `k` is step `k`'s own resolution. A failed step does not cut the loop short. |
| Runner.NullEntryAborts | lib/runner.ts:36-43 | A `null` entry raises while its result is being built, before the step's `try` opens. The run then returns no execution, and the quit at lines 112-119 never happens. |
| Runner.ResolveStep | lib/runner.ts:33-109 | Every path ends `Passed` or `Failed`, with the step's index and action and a per-step duration of `end - start`. Simulation: passed, no error, screenshot is the placeholder for `(i, name ?? 'StepShot')`. Driver: failed exactly when dispatch raised, with error `message ?? String(err)`. The screenshot is whatever capture gave, even after a failure. A no-op step passes. A passed step has no error. |
| Runner.CommandFor | lib/runner.ts:51-70 | No command exactly for navigate without a truthy target, click without a truthy `selector.value`, and any other action. Navigate issues `get(target)`. Click issues a find-and-click with the locator from `Locate`. |
| Runner.Locate | lib/runner.ts:58-61 | The locator is CSS exactly when `selector.type` is absent or `'css'`, and XPath for any other type. The value is passed through. |
| Runner.StepCalls | lib/runner.ts:51-102 | In driver mode a step makes one call when it is a no-op and two otherwise. The two are its `CommandFor` command and then the screenshot attempt, which follows whether or not the command raised. Every call is tagged with the step. |
| Runner.CallsInStepOrder | lib/runner.ts:33-110 | Over the first `n` steps, every call serves one of those steps, none is a quit, and calls come in step order. |
| Runner.CallsPairShotWithCommand | lib/runner.ts:51-102 | Over the first `n` steps, every command is immediately followed by its own step's screenshot attempt. |
| Runner.CallsShootEachStepOnce | lib/runner.ts:33-110 | Over the first `n` steps, the screenshot attempts are exactly one per step, in step order: steps `0, 1, …, n-1`. |
| Runner.CallsIssueCommands | lib/runner.ts:51-70 | Over the first `n` steps, step `k` issues command `c` exactly when `c` is its `CommandFor` command. No step issues any other command. |
| Runner.ReachedCallsNeverQuit | lib/runner.ts:33-110 | The calls of the steps the loop reaches contain no quit, and exactly one screenshot attempt for each of those steps and none for any other. |
| Runner.Calls | lib/runner.ts:112-119 | A simulated run talks to no browser at all. In driver mode each step before the first `null` entry makes exactly one screenshot attempt, and later steps make none. A completed driver run ends with exactly one quit, after every step's calls. A run that hits a `null` entry never quits. |
| Runner.TraceDecidesResults | lib/runner.ts:80-102 | The trace and the results agree. Step `k`'s one screenshot attempt is in the trace, and its result shows that capture. The step failed exactly when a command it issued in the trace was answered with a fault. |
| Runner.SimulatedRun | lib/runner.ts:72-91 | In simulation mode every step passes with no error. Its screenshot is `generatePlaceholderFor(name ?? 'StepShot', i)`, which is `generatePlaceholder(i, name ?? 'StepShot')` (lib/runner.ts:126-128). |
| Runner.DriverRun | lib/runner.ts:92-102 | In driver mode a step fails exactly when its dispatch raised, and then carries that fault's text. Every screenshot comes from the session's capture. |
| Runner.CaptureOnlySetsScreenshots | lib/runner.ts:80-87 | Changing what screenshot capture does, failures included, changes only the `screenshot` fields. It never changes a status or an error. |
| Runner.TeardownIsSilent | lib/runner.ts:113-119 | Whether `quit` raises has no effect on the execution. |
| Runner.StepsAreIndependent | lib/runner.ts:33-110 | The loop carries nothing from one step's result into another's. With the session's per-step answers fixed, step `j`'s result depends only on step `j` and the script name. |
| Runner.DurationsNonNegative | lib/runner.ts:35-107 | With a clock that does not run backwards, every duration is at least 0. |
| RunApi.Gate | pages/api/run.ts:13-29 | A non-POST request gets 405 with `Allow: POST`, and a POST never does. Otherwise a body that fails JSON parsing gets 400 'Invalid JSON payload'. A missing script, non-array steps or empty steps gets 400 'Script must include at least one step'. Only a POST with at least one step is admitted, and its name and steps are forwarded. |
| RunApi.Fallback | pages/api/run.ts:37-50 | A runner exception becomes exactly one failed result in simulation mode, with index 0, duration 0 and no screenshot. Its action is the first step's action, or 'unknown' when there is no first step, the first entry is `null`, or it has no action. Its error is the exception's message, or 'Runner error'. |
| RunApi.Handle | pages/api/run.ts:13-80 | A refused request gets the gate's reply. An admitted one gets 200 carrying the runner's results and mode unchanged (or the fallback's), `name = script.name ?? 'Run'`, and the JSON and HTML URLs built from the same run id. |
| RunApi.RefusalIgnoresRunner | pages/api/run.ts:13-29 | A refused request's reply is the same whatever the runner would do, so the runner is never consulted. |
| RunApi.ReportUrlInjective | pages/api/run.ts:78-79 | The report URL determines both run id and format. The JSON and HTML URLs of one run differ only by format and never coincide, and different run ids never share a URL. |
| RunApi.AdmittedRepliesWellFormed | pages/api/run.ts:35-53 | For any runner whose returned executions have settled results indexed by position, every admitted reply has such results too. That includes the fallback used when the runner raises. |
| RunApi.ServedByEngine | pages/api/run.ts:35-53 | An admitted request served by this engine, with no `null` entry, replies with one settled result per step (at least one), in order, and with the mode the driver build decided. With a `null` entry the engine raises, and the reply is the fallback: one failed result carrying the TypeError's message, in simulation mode even when a driver was built. |
| View.DataUrl | pages/index.tsx:78-82 | A missing or empty input gives `''`. Input starting with `data:` is returned unchanged. Any other input gets the `data:image/png;base64,` prefix. A non-empty input's result always starts with `data:` and ends with the input. |
| View.DataUrlIdempotent | pages/index.tsx:78-82 | Normalising an already normalised source changes nothing. |
| View.Badge | pages/index.tsx:149-153 | Green exactly for 'passed', red exactly for 'failed', yellow for every other status. |
| View.RunShowsNoYellow | pages/index.tsx:149-153 | Every result a run returns shows green or red, never the yellow of a pending step. |

## Left out

- Selenium and chromedriver (`Builder().build`, `get`, `findElement`, `click`, `takeScreenshot`, `quit`) and the dynamic imports: these are foreign calls, modelled only as oracle outcomes. Whether `build()` raises synchronously cannot be seen from this code. Any raise in lines 18-29 counts as "no driver".
- `findElement` followed by `el.click()` is modelled as one command. A raise from either one fails the step the same way.
- `Date.now()` is two abstract clock readings per step. The random `setTimeout` delay of the simulation (60-180 ms, floating point) is not modelled. Only its effect on the clock readings remains.
- `generatePlaceholder` (lib/simulation) and `generateHtmlReport` (lib/report) are not part of this model. The placeholder is an opaque total function parameter, so the case where it raises (which would make line 104 raise out of the runner) is not modelled.
- `script.steps ?? []` (line 31): the runner's `Script` always carries a sequence. A missing one is the empty sequence, which gives the same empty loop.
- The endpoint's file-system writes (`fs.mkdir`, `fs.writeFile`), JSON serialisation of the report, and `runId` generation from `Date.now()`: these are I/O. The run id is a parameter. A failing write (an HTTP 500) is not modelled.
- Runner.Browser: the session is an oracle indexed by step position. It carries no state from one step to the next, so a failed navigation cannot make the next click fail through the page it left behind. Such effects show up only through the per-step answers the oracle gives. `Runner.StepsAreIndependent` holds with those answers fixed.
- Runner.NullStepError: the TypeError text is that of current V8 engines. Older engines word it differently. Any other non-object entry (a number, a string) is read as a step with no fields, which is what property access on it gives.
- RunApi.Gate: a JSON body of `null` makes `payload.script` raise a TypeError that the handler does not catch (so the framework answers 500). This is not modelled: every parsed payload has an optional `script`.
- `err?.message` and `e?.message` are taken to be strings or absent. A non-string `message` is not modelled.
- React state, `fetch`, `window.open` and JSX rendering of the run page: only `getDataUrl` and the badge choice are modelled.
- async/await scheduling: the loop is strictly sequential, so it is modelled as a plain fold.
