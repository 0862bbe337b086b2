/** The completion detector on the analysis site
    (extension/analysis-site/analysis-content.js). A mutation observer, a
    2-second poll, a one-off check after 1 second and a 10-minute ceiling
    each react to the page; every positive check sends an ANALYSIS_DONE
    notice. Timers are events; the page at the moment of an event is an
    input. Nothing stops the detectors from sending several notices. */
module Detector {
  import opened Common

  /** What the checks can see of the page. */
  datatype Page = Page(
    bodyText: string,
    hasAnalysisCompleteClass: bool,
    hasDataStatusComplete: bool,
    hasAnalysisDoneId: bool,
    progressBarWidth: Option<string>,
    hasViewResultButton: bool,
    href: string)

  /** The observer's test: one of its three markers is in the document. */
  predicate ObserverMarker(p: Page)
  {
    p.hasAnalysisCompleteClass || p.hasDataStatusComplete || p.hasAnalysisDoneId
  }

  const KOREAN_DONE := "분석 완료"
  const ENGLISH_DONE := "Analysis Complete"

  /** `checkIfAnalysisIsComplete`: the completion text (in either language),
      a full progress bar, or the view-result button. */
  predicate AnalysisIsComplete(p: Page)
  {
    Contains(p.bodyText, KOREAN_DONE) || Contains(p.bodyText, ENGLISH_DONE)
    || p.progressBarWidth == Some("100%") || p.hasViewResultButton
  }

  /** The two tests are independent: a page can carry an observer marker
      without passing the poll's check, and the reverse. */
  lemma ChecksAreIndependent()
    ensures var p := Page("", true, false, false, None, false, "");
      ObserverMarker(p) && !AnalysisIsComplete(p)
    ensures var p := Page("", false, false, false, Some("100%"), false, "");
      !ObserverMarker(p) && AnalysisIsComplete(p)
  {
    var p := Page("", true, false, false, None, false, "");
    assert !Contains("", KOREAN_DONE) && !Contains("", ENGLISH_DONE);
  }

  /** The ANALYSIS_DONE message: the query's `videoUrl` (null when absent),
      the page's own address and the send time. */
  datatype Notice = Notice(videoUrl: Option<string>, resultUrl: string, timestamp: int)

  function MakeNotice(videoUrl: Option<string>, p: Page, now: int): (n: Notice)
    ensures n.videoUrl == videoUrl && n.resultUrl == p.href && n.timestamp == now
  {
    Notice(videoUrl, p.href, now)
  }

  /** `if (videoUrl)`: present and non-empty. */
  predicate ShouldStart(videoUrl: Option<string>)
  {
    videoUrl.Some? && videoUrl.value != ""
  }

  datatype Event =
    | Mutation(page: Page, now: int)
    | PollTick(page: Page, now: int)
    | ExtraCheck(page: Page, now: int)
    | Ceiling
    | TestButton(page: Page, now: int)

  datatype DetectorState = DetectorState(
    observerActive: bool,
    pollActive: bool,
    extraCheckPending: bool,
    notices: seq<Notice>)

  /** At load: everything armed when the query names a video, nothing
      otherwise (the test button works either way). */
  function Initial(videoUrl: Option<string>): DetectorState
  {
    var go := ShouldStart(videoUrl);
    DetectorState(go, go, go, [])
  }

  /** One event. Each detector switches off only itself; the ceiling switches
      off the observer and the poll, not the pending one-off check. */
  function Next(s: DetectorState, videoUrl: Option<string>, e: Event): DetectorState
  {
    match e
    case Mutation(p, now) =>
      if s.observerActive && ObserverMarker(p)
      then s.(notices := s.notices + [MakeNotice(videoUrl, p, now)], observerActive := false)
      else s
    case PollTick(p, now) =>
      if s.pollActive && AnalysisIsComplete(p)
      then s.(notices := s.notices + [MakeNotice(videoUrl, p, now)], pollActive := false)
      else s
    case ExtraCheck(p, now) =>
      if !s.extraCheckPending then s
      else if AnalysisIsComplete(p)
      then s.(notices := s.notices + [MakeNotice(videoUrl, p, now)], extraCheckPending := false)
      else s.(extraCheckPending := false)
    case Ceiling => s.(observerActive := false, pollActive := false)
    case TestButton(p, now) => s.(notices := s.notices + [MakeNotice(videoUrl, p, now)])
  }

  function Run(s: DetectorState, videoUrl: Option<string>, events: seq<Event>): DetectorState
    decreases |events|
  {
    if events == [] then s else Run(Next(s, videoUrl, events[0]), videoUrl, events[1..])
  }

  /** Without a `videoUrl` only the test button ever sends a notice. */
  lemma {:induction false} NoVideoNoDetection(s: DetectorState, videoUrl: Option<string>, events: seq<Event>)
    requires !s.observerActive && !s.pollActive && !s.extraCheckPending
    requires forall i :: 0 <= i < |events| ==> !events[i].TestButton?
    ensures Run(s, videoUrl, events) == s
    decreases |events|
  {
    if events != [] {
      NoVideoNoDetection(Next(s, videoUrl, events[0]), videoUrl, events[1..]);
    }
  }

  /** The observer's notice leaves the poll running and vice versa. */
  lemma DetectorsDisableOnlyThemselves(s: DetectorState, u: Option<string>, p: Page, now: int)
    ensures Next(s, u, Mutation(p, now)).pollActive == s.pollActive
    ensures Next(s, u, Mutation(p, now)).extraCheckPending == s.extraCheckPending
    ensures Next(s, u, PollTick(p, now)).observerActive == s.observerActive
    ensures Next(s, u, PollTick(p, now)).extraCheckPending == s.extraCheckPending
  {
  }

  /** Not single-fire: on a page showing both an observer marker and a
      completion text, the observer, the one-off check and the poll each
      send a notice. */
  lemma ThreeNoticesWitness(u: string, p: Page, t1: int, t2: int, t3: int)
    requires u != ""
    requires ObserverMarker(p) && AnalysisIsComplete(p)
    ensures |Run(Initial(Some(u)), Some(u), [Mutation(p, t1), ExtraCheck(p, t2), PollTick(p, t3)]).notices| == 3
  {
    var evs := [Mutation(p, t1), ExtraCheck(p, t2), PollTick(p, t3)];
    var s0 := Initial(Some(u));
    var s1 := Next(s0, Some(u), evs[0]);
    var s2 := Next(s1, Some(u), evs[1]);
    var s3 := Next(s2, Some(u), evs[2]);
    assert evs[1..] == [ExtraCheck(p, t2), PollTick(p, t3)];
    assert evs[1..][1..] == [PollTick(p, t3)];
    assert evs[1..][1..][1..] == [];
    assert Run(s0, Some(u), evs) == Run(s1, Some(u), evs[1..]);
    assert Run(s1, Some(u), evs[1..]) == Run(s2, Some(u), evs[1..][1..]);
    assert Run(s2, Some(u), evs[1..][1..]) == Run(s3, Some(u), []);
    assert |s3.notices| == 3;
  }

  /** How many more notices the three detectors can still send. */
  function Armed(s: DetectorState): nat
  {
    (if s.observerActive then 1 else 0) + (if s.pollActive then 1 else 0) + (if s.extraCheckPending then 1 else 0)
  }

  /** Each detector fires at most once, so without the test button a run
      adds at most as many notices as detectors were armed (three from a
      fresh start). */
  lemma {:induction false} NoticeBound(s: DetectorState, u: Option<string>, events: seq<Event>)
    requires forall i :: 0 <= i < |events| ==> !events[i].TestButton?
    ensures |Run(s, u, events).notices| + Armed(Run(s, u, events)) <= |s.notices| + Armed(s)
    decreases |events|
  {
    if events != [] {
      NoticeBound(Next(s, u, events[0]), u, events[1..]);
    }
  }

  /** After the ceiling the observer and the poll are off for good; only the
      pending one-off check and the test button can still send. */
  lemma {:induction false} CeilingSilencesObserverAndPoll(s: DetectorState, u: Option<string>, events: seq<Event>)
    requires !s.observerActive && !s.pollActive
    ensures !Run(s, u, events).observerActive && !Run(s, u, events).pollActive
    decreases |events|
  {
    if events != [] {
      CeilingSilencesObserverAndPoll(Next(s, u, events[0]), u, events[1..]);
    }
  }

  /** Every notice carries the query's video URL. */
  lemma {:induction false} NoticesCarryVideoUrl(s: DetectorState, u: Option<string>, events: seq<Event>)
    requires forall i :: 0 <= i < |s.notices| ==> s.notices[i].videoUrl == u
    ensures forall i :: 0 <= i < |Run(s, u, events).notices| ==> Run(s, u, events).notices[i].videoUrl == u
    decreases |events|
  {
    if events != [] {
      NoticesCarryVideoUrl(Next(s, u, events[0]), u, events[1..]);
    }
  }

  /** The page script: its timers and observer, with the notices sent so
      far. */
  class AnalysisContent {
    const videoUrl: Option<string>
    var observerActive: bool
    var pollActive: bool
    var extraCheckPending: bool
    var notices: seq<Notice>

    function State(): DetectorState
      reads this
    {
      DetectorState(observerActive, pollActive, extraCheckPending, notices)
    }

    /** Script load: `checkAnalysisComplete` and the 1-second check are set
        up only when `videoUrl` is truthy. */
    constructor(query: Option<string>)
      ensures videoUrl == query && State() == Initial(query)
    {
      videoUrl := query;
      var go := query.Some? && query.value != "";
      observerActive, pollActive, extraCheckPending := go, go, go;
      notices := [];
    }

    method Notify(p: Page, now: int)
      modifies this
      ensures notices == old(notices) + [MakeNotice(videoUrl, p, now)]
      ensures observerActive == old(observerActive) && pollActive == old(pollActive)
      ensures extraCheckPending == old(extraCheckPending)
    {
      notices := notices + [Notice(videoUrl, p.href, now)];
    }

    /** The observer callback for one batch of mutations. */
    method OnMutations(p: Page, now: int)
      modifies this
      ensures State() == Next(old(State()), videoUrl, Mutation(p, now))
    {
      if observerActive && ObserverMarker(p) {
        Notify(p, now);
        observerActive := false;
      }
    }

    /** One firing of the 2-second interval. */
    method OnPollTick(p: Page, now: int)
      modifies this
      ensures State() == Next(old(State()), videoUrl, PollTick(p, now))
    {
      if pollActive {
        var isComplete := AnalysisIsComplete(p);
        if isComplete {
          Notify(p, now);
          pollActive := false;
        }
      }
    }

    /** The one-off check one second after load. */
    method OnExtraCheck(p: Page, now: int)
      modifies this
      ensures State() == Next(old(State()), videoUrl, ExtraCheck(p, now))
    {
      if extraCheckPending {
        extraCheckPending := false;
        if AnalysisIsComplete(p) {
          Notify(p, now);
        }
      }
    }

    /** The 600000 ms timeout. */
    method OnCeiling()
      modifies this
      ensures State() == Next(old(State()), videoUrl, Ceiling)
    {
      pollActive := false;
      observerActive := false;
    }

    /** The test button: notifies unconditionally. */
    method OnTestButton(p: Page, now: int)
      modifies this
      ensures State() == Next(old(State()), videoUrl, TestButton(p, now))
    {
      Notify(p, now);
    }
  }
}
