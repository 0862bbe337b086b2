/** What both copies of youtube/analysis-manager.js keep about analyses:
    the current one (`currentAnalysis`) and the finished ones
    (`analysisHistory`), with the operations the two copies share. */
module AnalysisSession {
  import opened Common
  import opened JsValues
  import opened ShortsUrl

  /** The two values `status` ever takes: 'analyzing' and 'complete'. */
  datatype Status = Analyzing | Complete

  /** `{videoId, videoUrl, startTime, status}`, later extended with
      `endTime` and `resultUrl`. */
  datatype AnalysisRecord = AnalysisRecord(
    videoId: string,
    videoUrl: string,
    startTime: int,
    status: Status,
    endTime: Option<int>,
    resultUrl: Option<JsValue>)

  datatype SessionState = SessionState(current: Option<AnalysisRecord>, history: seq<AnalysisRecord>)

  /** The constructor's state. */
  const INITIAL_SESSION := SessionState(None, [])

  /** `isAnalyzing()`. */
  predicate InProgress(s: SessionState)
  {
    s.current.Some? && s.current.value.status == Analyzing
  }

  const NO_VIDEO_ID_ALERT := "비디오 ID를 찾을 수 없습니다."

  /** The synchronous start of `startAnalysis`: an address without a shorts
      id changes nothing; otherwise a fresh record, started now, replaces
      whatever was current. */
  function Started(s: SessionState, videoUrl: string, now: int): (t: SessionState)
    ensures t.history == s.history
    ensures ExtractVideoId(videoUrl).None? ==> t == s
    ensures ExtractVideoId(videoUrl).Some? ==>
      t.current == Some(AnalysisRecord(ExtractVideoId(videoUrl).value, videoUrl, now, Analyzing, None, None))
  {
    match ExtractVideoId(videoUrl)
    case None => s
    case Some(id) => s.(current := Some(AnalysisRecord(id, videoUrl, now, Analyzing, None, None)))
  }

  /** The `catch` paths: `currentAnalysis = null`. */
  function Abandoned(s: SessionState): (t: SessionState)
    ensures t.current.None? && t.history == s.history
  {
    s.(current := None)
  }

  /** `onAnalysisComplete(data)` with `data.resultUrl`, at time `now`. */
  function Completed(s: SessionState, resultUrl: JsValue, now: int): (t: SessionState)
    ensures s.current.None? ==> t == s
    ensures s.current.Some? ==>
      t.current.None?
      && t.history == s.history + [s.current.value.(status := Complete, endTime := Some(now), resultUrl := Some(resultUrl))]
  {
    match s.current
    case None => s
    case Some(c) =>
      SessionState(None, s.history + [c.(status := Complete, endTime := Some(now), resultUrl := Some(resultUrl))])
  }

  /** Every history entry is a finished analysis with an end time. */
  predicate HistoryFinished(s: SessionState)
  {
    forall i :: 0 <= i < |s.history| ==> s.history[i].status == Complete && s.history[i].endTime.Some?
  }

  /** Starting makes the session analyzing exactly when the address holds a
      shorts id (and leaves it as it was otherwise); abandoning and
      completing end it. */
  lemma AnalyzingTransitions(s: SessionState, videoUrl: string, resultUrl: JsValue, now: int)
    ensures ExtractVideoId(videoUrl).Some? ==> InProgress(Started(s, videoUrl, now))
    ensures ExtractVideoId(videoUrl).None? ==> (InProgress(Started(s, videoUrl, now)) <==> InProgress(s))
    ensures !InProgress(Abandoned(s))
    ensures !InProgress(Completed(s, resultUrl, now))
  {
  }

  /** The calls a content script makes on its manager. */
  datatype SessionEvent =
    | StartCall(videoUrl: string, now: int)
    | StartFailed
    | CompleteCall(resultUrl: JsValue, now: int)

  function Apply(s: SessionState, e: SessionEvent): SessionState
  {
    match e
    case StartCall(u, now) => Started(s, u, now)
    case StartFailed => Abandoned(s)
    case CompleteCall(r, now) => Completed(s, r, now)
  }

  function ApplyAll(s: SessionState, events: seq<SessionEvent>): SessionState
    decreases |events|
  {
    if events == [] then s else ApplyAll(Apply(s, events[0]), events[1..])
  }

  /** History is append-only and holds only finished analyses, however the
      calls are interleaved; each completion adds at most one entry. */
  lemma {:induction false} HistoryAppendOnly(s: SessionState, events: seq<SessionEvent>)
    requires HistoryFinished(s)
    ensures HistoryFinished(ApplyAll(s, events))
    ensures s.history <= ApplyAll(s, events).history
    ensures |ApplyAll(s, events).history| <= |s.history| + |events|
    decreases |events|
  {
    if events != [] {
      var t := Apply(s, events[0]);
      assert s.history <= t.history && |t.history| <= |s.history| + 1;
      assert HistoryFinished(t) by {
        if events[0].CompleteCall? && s.current.Some? {
          assert t.history == s.history + [t.history[|s.history|]];
        }
      }
      HistoryAppendOnly(t, events[1..]);
    }
  }

  /** The front-end page the analysis is opened on (`getAnalysisUrl`, and
      the page announced when extraction finishes). */
  const ANALYZE_PAGE := "http://localhost:5173/analyze?videoUrl="

  /** The page the extension copy redirects to when an analysis starts. */
  const FRONT_PAGE := "http://localhost:5173/?videoUrl="

  /** `getAnalysisUrl(videoUrl)`, given `encodeURIComponent(videoUrl)`. */
  function AnalyzeUrl(encodedUrl: string): (r: string)
    ensures StartsWith(r, ANALYZE_PAGE) && r[|ANALYZE_PAGE|..] == encodedUrl
  {
    ANALYZE_PAGE + encodedUrl
  }

  function FrontUrl(encodedUrl: string): (r: string)
    ensures StartsWith(r, FRONT_PAGE) && r[|FRONT_PAGE|..] == encodedUrl
  {
    FRONT_PAGE + encodedUrl
  }

  /** Both addresses determine the encoded video address, and a redirect
      address is never an analysis-page address: the extension copy opens
      the front page's root, not the /analyze page it later announces. */
  lemma PageUrlsDistinct(e1: string, e2: string)
    ensures AnalyzeUrl(e1) == AnalyzeUrl(e2) ==> e1 == e2
    ensures FrontUrl(e1) == FrontUrl(e2) ==> e1 == e2
    ensures FrontUrl(e1) != AnalyzeUrl(e2)
  {
    assert FrontUrl(e1)[22] == '?' && AnalyzeUrl(e2)[22] == 'a';
  }
}
