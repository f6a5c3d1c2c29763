/** The two pure helpers of the run page in pages/index.tsx: turning a recorded
    screenshot into an image source, and choosing the colour of a step's status
    badge.
 */
module View {
  import opened Types
  import Runner

  const DataScheme: string := "data:"
  const PngPrefix: string := "data:image/png;base64,"

  /** An image source for a screenshot: empty when there is none, a data URL
      unchanged, and bare base64 wrapped as a PNG data URL. */
  function DataUrl(b64: Option<string>): (r: string)
    ensures !Truthy(b64) ==> r == ""
    ensures Truthy(b64) ==> DataScheme <= r
    ensures Truthy(b64) && DataScheme <= b64.value ==> r == b64.value
    ensures Truthy(b64) && !(DataScheme <= b64.value) ==> r == PngPrefix + b64.value
    ensures Truthy(b64) ==> |r| >= |b64.value| && r[|r| - |b64.value|..] == b64.value
  {
    if !Truthy(b64) then ""
    else if DataScheme <= b64.value then b64.value
    else PngPrefix + b64.value
  }

  /** Normalising an image source twice changes nothing. */
  lemma DataUrlIdempotent(b64: Option<string>)
    ensures DataUrl(Some(DataUrl(b64))) == DataUrl(b64)
  {
  }

  /** The colours of a status badge. */
  datatype Tone = Green | Red | Yellow

  /** Green for "passed", red for "failed", yellow for any other status. */
  function Badge(status: string): (t: Tone)
    ensures t == Green <==> status == "passed"
    ensures t == Red <==> status == "failed"
    ensures t == Yellow <==> status != "passed" && status != "failed"
  {
    if status == "passed" then Green
    else if status == "failed" then Red
    else Yellow
  }

  /** A step still pending would show yellow, but no result of a run is pending,
      so every step of a run shows green or red. */
  lemma RunShowsNoYellow(script: Script, host: Runner.Host)
    ensures var o := Runner.Execute(script, host);
            o.Returned? ==>
              forall i :: 0 <= i < |o.execution.results| ==> Badge(o.execution.results[i].status.Text()) != Yellow
  {
  }
}
