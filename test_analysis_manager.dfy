/** The `AnalysisManager` of the test extension
    (testExtension/youtube/analysis-manager.js): it records the analysis,
    asks the background page to open the analysis tab, and files the
    analysis in its history when completion is reported. */
module TestAnalysisManager {
  import opened Common
  import opened JsValues
  import opened ShortsUrl
  import opened AnalysisSession

  /** The arguments of `messageHandler.notifyAnalysisStart`. */
  datatype StartRequest = StartRequest(videoId: string, videoUrl: string, analysisUrl: string)

  class AnalysisManager {
    var current: Option<AnalysisRecord>
    var history: seq<AnalysisRecord>

    function State(): SessionState
      reads this
    {
      SessionState(current, history)
    }

    constructor()
      ensures State() == INITIAL_SESSION
    {
      current := None;
      history := [];
    }

    /** `startAnalysis(videoUrl)` up to its `await`. Without a shorts id it
        alerts and the call returns false with nothing sent; otherwise the
        record is stored first and then the notification is requested.
        `encodedUrl` is `encodeURIComponent(videoUrl)`. */
    method StartAnalysis(videoUrl: string, now: int, encodedUrl: string)
      returns (request: Option<StartRequest>, alert: Option<string>)
      modifies this
      ensures State() == Started(old(State()), videoUrl, now)
      ensures request.None? <==> ExtractVideoId(videoUrl).None?
      ensures request.Some? ==>
        request.value == StartRequest(ExtractVideoId(videoUrl).value, videoUrl, AnalyzeUrl(encodedUrl))
      ensures alert.Some? <==> request.None?
      ensures alert.Some? ==> alert.value == NO_VIDEO_ID_ALERT
    {
      var videoId := ExtractVideoId(videoUrl);
      if videoId.None? {
        return None, Some(NO_VIDEO_ID_ALERT);
      }
      current := Some(AnalysisRecord(videoId.value, videoUrl, now, Analyzing, None, None));
      request := Some(StartRequest(videoId.value, videoUrl, AnalyzeUrl(encodedUrl)));
      alert := None;
    }

    /** The rest of `startAnalysis`, once the notification has settled: a
        rejection clears the current analysis and shows 'error', success
        shows 'analyzing'; the call returns whether it succeeded. The UI is
        only told when `window.uiManager` exists (`hasUi`). */
    method FinishStartAnalysis(notifyRejected: bool, hasUi: bool)
      returns (result: bool, uiStatus: Option<string>)
      modifies this
      ensures State() == (if notifyRejected then Abandoned(old(State())) else old(State()))
      ensures result <==> !notifyRejected
      ensures uiStatus.Some? <==> hasUi
      ensures uiStatus.Some? ==> uiStatus.value == (if notifyRejected then "error" else "analyzing")
    {
      if notifyRejected {
        current := None;
        result := false;
        uiStatus := if hasUi then Some("error") else None;
      } else {
        result := true;
        uiStatus := if hasUi then Some("analyzing") else None;
      }
    }

    /** `onAnalysisComplete(data)`: files the current analysis, if any, and
        always asks the UI (when present) to reset the button. */
    method OnAnalysisComplete(data: JsValue, now: int, hasUi: bool) returns (resetButton: bool)
      modifies this
      ensures State() == Completed(old(State()), Get(data, "resultUrl"), now)
      ensures resetButton == hasUi
    {
      if current.Some? {
        var finished := current.value.(status := Complete, endTime := Some(now), resultUrl := Some(Get(data, "resultUrl")));
        history := history + [finished];
        current := None;
      }
      resetButton := hasUi;
    }

    /** `isAnalyzing()`. */
    function IsAnalyzing(): (b: bool)
      reads this
      ensures b <==> InProgress(State())
    {
      current.Some? && current.value.status == Analyzing
    }
  }
}
