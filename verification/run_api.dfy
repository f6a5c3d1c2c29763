/** The run endpoint of pages/api/run.ts: it admits only a POST whose body holds a
    script with at least one step, runs that script, turns a runner exception into
    a one-step failed execution, and replies with the execution and the two report
    URLs. The runner is a parameter; `Runner.Execute` is one such runner.
 */
module RunApi {
  import opened Types
  import Runner

  /** A script as it appears in a request body; `steps` is None when the field is
      missing or is not an array. */
  datatype RawScript = RawScript(name: Option<string>, steps: Option<seq<Option<Step>>>)

  /** The parsed request body. */
  datatype Payload = Payload(script: Option<RawScript>)

  /** A request body: a string, together with what JSON parsing makes of it
      (None: parsing raised), or a value the framework already parsed. */
  datatype Body = TextBody(parsed: Option<Payload>) | ObjectBody(payload: Payload)

  /** The JSON a successful run replies with. */
  datatype Report = Report(
    runId: string,
    name: string,
    mode: Mode,
    steps: seq<StepResult>,
    jsonUrl: string,
    htmlUrl: string)

  datatype ReplyBody = Text(text: string) | ErrorJson(error: string) | RunJson(report: Report)

  /** An HTTP reply: status code, `Allow` header (if set) and body. */
  datatype Reply = Reply(status: nat, allow: Option<seq<string>>, body: ReplyBody)

  /** The outcome of request validation: a script to run, or the reply that ends
      the request before the runner is reached. */
  datatype Gated = Admit(script: Script) | Refuse(reply: Reply)

  const NotAllowedText: string := "Method Not Allowed"
  const InvalidJson: string := "Invalid JSON payload"
  const NoSteps: string := "Script must include at least one step"
  const RunnerError: string := "Runner error"
  const UnknownAction: string := "unknown"
  const DefaultName: string := "Run"
  const ReportsPath: string := "/api/reports/"
  const FormatQuery: string := "?format="

  /** The payload a body yields, None when its text is not valid JSON. */
  function PayloadOf(body: Body): Option<Payload> {
    match body
    case TextBody(parsed) => parsed
    case ObjectBody(payload) => Some(payload)
  }

  /** A raw script the endpoint is willing to run. */
  predicate Runnable(raw: Option<RawScript>) {
    raw.Some? && raw.value.steps.Some? && |raw.value.steps.value| > 0
  }

  /** Request validation: verb, then JSON, then the script's steps. */
  function Gate(verb: string, body: Body): (g: Gated)
    ensures verb != "POST" <==> g.Refuse? && g.reply.status == 405
    ensures g.Refuse? && g.reply.status == 405 ==>
              g.reply.allow == Some(["POST"]) && g.reply.body == Text(NotAllowedText)
    ensures verb == "POST" && PayloadOf(body).None? ==>
              g == Refuse(Reply(400, None, ErrorJson(InvalidJson)))
    ensures verb == "POST" && PayloadOf(body).Some? && !Runnable(PayloadOf(body).value.script) ==>
              g == Refuse(Reply(400, None, ErrorJson(NoSteps)))
    ensures g.Admit? <==> verb == "POST" && PayloadOf(body).Some? && Runnable(PayloadOf(body).value.script)
    ensures g.Admit? ==>
              var raw := PayloadOf(body).value.script.value;
              g.script == Script(raw.name, raw.steps.value) && |g.script.steps| > 0
  {
    if verb != "POST" then
      Refuse(Reply(405, Some(["POST"]), Text(NotAllowedText)))
    else
      match PayloadOf(body)
      case None => Refuse(Reply(400, None, ErrorJson(InvalidJson)))
      case Some(payload) =>
        if !Runnable(payload.script) then Refuse(Reply(400, None, ErrorJson(NoSteps)))
        else
          var raw := payload.script.value;
          Admit(Script(raw.name, raw.steps.value))
  }

  /** The first step's action, absent when there is no first step, it is `null`,
      or it has no action. */
  function FirstAction(script: Script): Option<string> {
    if |script.steps| > 0 && script.steps[0].Some? then script.steps[0].value.action else None
  }

  /** The execution the endpoint substitutes when the runner raised. */
  function Fallback(script: Script, message: Option<string>): (e: Execution)
    ensures |e.results| == 1 && e.mode == Simulation
    ensures var r := e.results[0];
            && r.index == 0 && r.status == Failed && r.duration == 0 && r.screenshot == None
            && r.error == Some(message.GetOr(RunnerError))
    ensures FirstAction(script).Some? ==> e.results[0].action == FirstAction(script)
    ensures FirstAction(script).None? ==> e.results[0].action == Some(UnknownAction)
  {
    var action := FirstAction(script).GetOr(UnknownAction);
    Execution([StepResult(0, Some(action), Failed, 0, Some(message.GetOr(RunnerError)), None)], Simulation)
  }

  /** The execution a runner outcome amounts to. */
  function Settled(script: Script, outcome: Outcome): Execution {
    match outcome
    case Returned(e) => e
    case Threw(message) => Fallback(script, message)
  }

  /** The download URL of one report format. */
  function ReportUrl(runId: string, format: string): string {
    ReportsPath + runId + FormatQuery + format
  }

  /** The whole endpoint, given the runner and the id chosen for this run. */
  function Handle(verb: string, body: Body, runner: Script -> Outcome, runId: string): (r: Reply)
    ensures Gate(verb, body).Refuse? ==> r == Gate(verb, body).reply
    ensures Gate(verb, body).Admit? ==>
              var script := Gate(verb, body).script;
              var e := Settled(script, runner(script));
              && r.status == 200 && r.allow == None && r.body.RunJson?
              && r.body.report.runId == runId
              && r.body.report.steps == e.results
              && r.body.report.mode == e.mode
              && r.body.report.name == script.name.GetOr(DefaultName)
              && r.body.report.jsonUrl == ReportUrl(runId, "json")
              && r.body.report.htmlUrl == ReportUrl(runId, "html")
  {
    match Gate(verb, body)
    case Refuse(reply) => reply
    case Admit(script) =>
      var e := Settled(script, runner(script));
      Reply(200, None, RunJson(Report(
        runId, script.name.GetOr(DefaultName), e.mode, e.results,
        ReportUrl(runId, "json"), ReportUrl(runId, "html"))))
  }

  /** A refused request never reaches the runner: the reply is the same whatever
      the runner would have done. */
  lemma RefusalIgnoresRunner(verb: string, body: Body, run1: Script -> Outcome,
                             run2: Script -> Outcome, runId: string)
    requires Gate(verb, body).Refuse?
    ensures Handle(verb, body, run1, runId) == Handle(verb, body, run2, runId)
  {
  }

  /** A report URL determines its run id and format: the JSON and HTML URLs of one
      run differ, and URLs of different run ids never coincide. */
  lemma ReportUrlInjective(id1: string, f1: string, id2: string, f2: string)
    requires f1 in {"json", "html"} && f2 in {"json", "html"}
    requires ReportUrl(id1, f1) == ReportUrl(id2, f2)
    ensures id1 == id2 && f1 == f2
  {
    var u := ReportUrl(id1, f1);
    var p := |ReportsPath|;
    assert |f1| == 4 && |f2| == 4;
    assert |id1| == |id2|;
    assert id1 == u[p..p + |id1|];
    assert id2 == u[p..p + |id2|];
    assert f1 == u[|u| - 4..];
    assert f2 == u[|u| - 4..];
  }

  /** Results that a client can lay out by position: each is settled and its
      index is its position. */
  predicate WellFormed(e: Execution) {
    forall i :: 0 <= i < |e.results| ==> e.results[i].index == i && e.results[i].status.Settled()
  }

  /** If the runner only ever returns well-formed executions, every admitted
      request replies with well-formed results, a runner exception included:
      the fallback is itself well-formed. */
  lemma AdmittedRepliesWellFormed(verb: string, body: Body, runner: Script -> Outcome, runId: string)
    requires Gate(verb, body).Admit?
    requires forall s: Script :: runner(s).Returned? ==> WellFormed(runner(s).execution)
    ensures var r := Handle(verb, body, runner, runId);
            && r.status == 200
            && WellFormed(Execution(r.body.report.steps, r.body.report.mode))
  {
    var script := Gate(verb, body).script;
    var e := Settled(script, runner(script));
    assert WellFormed(e) by {
      if runner(script).Threw? {
        assert |e.results| == 1 && e.results[0].index == 0;
      }
    }
  }

  /** Served by the engine of this model, an admitted request replies with one
      settled result per step, in order, and the mode the session decided. When an
      entry of the steps is `null`, the engine raises and the reply carries the
      fallback instead: one failed result in simulation mode, whatever the
      session. */
  lemma ServedByEngine(verb: string, body: Body, host: Runner.Host, runId: string)
    requires Gate(verb, body).Admit?
    ensures var script := Gate(verb, body).script;
            var r := Handle(verb, body, s => Runner.Execute(s, host), runId);
            && r.status == 200
            && (Runner.Loaded(script) ==>
                  && |r.body.report.steps| == |script.steps| > 0
                  && r.body.report.mode == Runner.ModeOf(host)
                  && forall i :: 0 <= i < |r.body.report.steps| ==>
                       r.body.report.steps[i].index == i && r.body.report.steps[i].status.Settled())
            && (!Runner.Loaded(script) ==>
                  && |r.body.report.steps| == 1
                  && r.body.report.mode == Simulation
                  && r.body.report.steps[0].status == Failed
                  && r.body.report.steps[0].error == Some(Runner.NullStepError))
  {
  }
}
