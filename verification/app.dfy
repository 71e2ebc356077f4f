/** One pass of the analysis flow in `main`: the reply is turned into the analysis
    dictionary, the results panel is shown, and only an analysis without an
    `"error"` key goes on to the narration script and the downloadable report.
    The buttons that gate the downloads are not modelled: both outputs are
    computed whenever the flow would offer them. */
module App {
  import opened Wrappers
  import opened Json
  import Analysis
  import Display
  import Narration
  import Report

  /** What one analysis shows and offers. */
  datatype Screen = Screen(panel: Display.Panel, script: Option<string>, report: Option<string>)

  /** The analysis dictionary for a reply; its fields hold the expected types unless it
      is a failure. */
  predicate WellTyped(status: int, body: string, content: string, decode: Decoder) {
    var a := Analysis.AnalyzeToothImage(status, body, content, decode);
    "error" !in a ==> Conforms(a)
  }

  /** The flow after the request: panel always; script and report only without an error. */
  function Run(status: int, body: string, content: string, decode: Decoder, timestamp: string): (s: Screen)
    requires WellTyped(status, body, content, decode)
    ensures var a := Analysis.AnalyzeToothImage(status, body, content, decode);
            && s.panel == Display.ShowResults(a)
            && (s.script.Some? <==> !Analysis.IsFailure(a))
            && (s.report.Some? <==> !Analysis.IsFailure(a))
            && (s.panel.ErrorPanel? <==> Analysis.IsFailure(a))
            && (s.script.Some? ==> s.script.value != Narration.Apology)
            && (s.report.Some? ==> Report.Header(a, timestamp) <= s.report.value)
  {
    var a := Analysis.AnalyzeToothImage(status, body, content, decode);
    var panel := Display.ShowResults(a);
    if "error" in a then
      Screen(panel, None, None)
    else
      Narration.ApologyOnlyForErrors(a);
      Screen(panel, Some(Narration.Narrate(a)), Some(Report.Render(a, timestamp)))
  }

  /** A status other than 200 ends at the error banner, which shows the status message;
      nothing is offered for download. */
  lemma FailedStatusOffersNothing(status: int, body: string, content: string, decode: Decoder, timestamp: string)
    requires status != 200
    ensures WellTyped(status, body, content, decode)
    ensures var s := Run(status, body, content, decode, timestamp);
            && s.panel == Display.ErrorPanel(Str(Analysis.StatusMessage(status)), None)
            && s.script == None && s.report == None
  {
    Analysis.StatusFailureCarriesCode(status, body, content, decode);
  }

  /** A successfully decoded reply that itself carries an `"error"` key is handled as a
      failure: its own error value is shown and nothing is offered for download. */
  lemma DecodedErrorIsFailure(body: string, content: string, decode: Decoder, timestamp: string, obj: Object)
    requires Analysis.JsonSlice(content).Some? && decode(Analysis.JsonSlice(content).value) == Some(obj)
    requires "error" in obj
    ensures WellTyped(200, body, content, decode)
    ensures var s := Run(200, body, content, decode, timestamp);
            && s.panel.ErrorPanel? && s.panel.message == obj["error"]
            && s.script == None && s.report == None
  {
    Analysis.DecodedVerbatim(body, content, decode, obj);
  }

  /** A successfully decoded reply without an `"error"` key is shown with its own stage,
      read out, and offered as a report of its own fields. */
  lemma DecodedAnalysisShown(body: string, content: string, decode: Decoder, timestamp: string, obj: Object)
    requires Analysis.JsonSlice(content).Some? && decode(Analysis.JsonSlice(content).value) == Some(obj)
    requires "error" !in obj && Conforms(obj)
    ensures WellTyped(200, body, content, decode)
    ensures var s := Run(200, body, content, decode, timestamp);
            && s.panel.ResultPanel? && s.panel.stage == Stage(obj)
            && s.script == Some(Narration.Narrate(obj))
            && s.report == Some(Report.Render(obj, timestamp))
  {
    Analysis.DecodedVerbatim(body, content, decode, obj);
  }
}
