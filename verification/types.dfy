/** Shared data shapes of the runner: scripts and their steps as they arrive in a
    request body, the per-step results the runner produces and the execution it
    returns. Fields that the code reads through `?.`, `??` or a truthiness test are
    optional here, because the request body is never checked against the declared
    TypeScript types.
 */
module Types {

  /** A value that may be absent (`undefined` or `null` in the source). */
  datatype Option<+T> = None | Some(value: T) {

    /** The value if present, otherwise `default`: the source's `x ?? default`. */
    function GetOr(default: T): T {
      match this
      case Some(v) => v
      case None => default
    }
  }

  /** JavaScript truthiness of an optional string: present and not empty. */
  predicate Truthy(s: Option<string>) {
    s.Some? && s.value != ""
  }

  /** How a click locates its element: `kind` is the declared `type`
      ('css' or 'xpath'), `value` the selector text. */
  datatype Selector = Selector(kind: Option<string>, value: Option<string>)

  /** One step of a script. */
  datatype Step = Step(action: Option<string>, target: Option<string>, selector: Option<Selector>)

  /** A script handed to the runner. An element of `steps` is None when the
      request body holds `null` in that position. */
  datatype Script = Script(name: Option<string>, steps: seq<Option<Step>>)

  /** Lifecycle of one step: created `Pending`, settled as `Passed` or `Failed`. */
  datatype Status = Pending | Passed | Failed {

    predicate Settled() {
      this != Pending
    }

    /** The status string a client receives. */
    function Text(): string {
      match this
      case Pending => "pending"
      case Passed => "passed"
      case Failed => "failed"
    }
  }

  /** The evidence recorded for one step. */
  datatype StepResult = StepResult(
    index: int,
    action: Option<string>,
    status: Status,
    duration: int,
    error: Option<string>,
    screenshot: Option<string>)

  /** Whether a run talked to a real browser or was simulated. */
  datatype Mode = Driver | Simulation

  /** What one run of the runner returns. */
  datatype Execution = Execution(results: seq<StepResult>, mode: Mode)

  /** How a call of the runner ends: it returns an execution, or it raises an
      exception with an optional message. */
  datatype Outcome = Returned(execution: Execution) | Threw(message: Option<string>)
}
