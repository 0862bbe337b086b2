/** The `AnalysisManager` of the shipped extension
    (extension/youtube/analysis-manager.js). Starting an analysis redirects
    to the front end at once and runs the rest in the background: download
    the video through the server, open a WebSocket, send the request, and
    wait for the extracted data. Nothing cancels a background run, so every
    start adds a run, numbered by its position, with its own closure, socket
    and promise; each callback is an event of one run. The manager's
    `websocket` field points at the socket created last, whichever run
    created it, and the runs share `currentAnalysis`. */
module ExtensionAnalysisManager {
  import opened Common
  import opened JsValues
  import opened ShortsUrl
  import opened AnalysisSession
  import SocketHook

  type ReadyState = SocketHook.ReadyState

  /** The promise of `startWebSocketAnalysis`. */
  datatype PromiseState = Pending | Resolved | Rejected(reason: JsValue)

  /** What `handleExtractData` writes to `chrome.storage.local` under
      `key`, and the analysis page it then announces through
      `messageHandler.notifyAnalysisComplete`. */
  datatype StoredAnalysis = StoredAnalysis(
    key: string,
    videoUrl: string,
    timestamp: int,
    extractData: JsValue,
    announcedUrl: string)

  /** One background run: the closure variables of `runAnalysisInBackground`
      (`videoUrl`, `filePath`), whether its download is still awaited, the
      ready state of the socket it created and its promise. */
  datatype BackgroundRun = BackgroundRun(
    videoUrl: string,
    encodedUrl: string,
    fetching: bool,
    filePath: JsValue,
    socket: Option<ReadyState>,
    promise: Option<PromiseState>)

  /** A payload transmitted on the socket created by run `socket`. */
  datatype Sent = Sent(socket: nat, payload: JsValue)

  /** The manager's fields (`currentAnalysis`, `analysisHistory`, and
      `websocket` as the number of the run whose socket it holds), every
      run started so far, and what has been sent and stored. */
  datatype RunState = RunState(
    session: SessionState,
    runs: seq<BackgroundRun>,
    websocket: Option<nat>,
    sent: seq<Sent>,
    stored: seq<StoredAnalysis>)

  const INITIAL_RUN := RunState(INITIAL_SESSION, [], None, [], [])

  /** `websocket` and every transmission name a run that created a socket. */
  predicate Valid(s: RunState)
  {
    && (s.websocket.Some? ==> s.websocket.value < |s.runs| && s.runs[s.websocket.value].socket.Some?)
    && (forall k :: 0 <= k < |s.sent| ==> s.sent[k].socket < |s.runs| && s.runs[s.sent[k].socket].socket.Some?)
    && (forall i :: 0 <= i < |s.runs| && s.runs[i].promise.Some? ==> !s.runs[i].fetching && s.runs[i].socket.Some?)
  }

  /** A run that `startAnalysis` has just begun: downloading, with no socket
      or promise yet. */
  function NewRun(videoUrl: string, encodedUrl: string): BackgroundRun
  {
    BackgroundRun(videoUrl, encodedUrl, true, JsUndefined, None, None)
  }

  /** Run `i` replaced by `r`. */
  function WithRun(s: RunState, i: nat, r: BackgroundRun): (t: RunState)
    requires i < |s.runs|
    ensures |t.runs| == |s.runs| && t.runs[i] == r
    ensures forall j :: 0 <= j < |s.runs| && j != i ==> t.runs[j] == s.runs[j]
  {
    s.(runs := s.runs[i := r])
  }

  /** Whether `this.websocket` is set and OPEN. */
  predicate LatestSocketOpen(s: RunState)
  {
    s.websocket.Some? && s.websocket.value < |s.runs| && s.runs[s.websocket.value].socket == Some(SocketHook.Open)
  }

  const DOWNLOAD_FAILED := "다운로드 실패: "
  const SOCKET_FAILED := "WebSocket 연결 실패"
  const REQUEST_TIMED_OUT := "분석 요청 타임아웃"

  /** `fetchVideoAndGetFilePath`: a non-ok response throws; so does reading
      a property of a null body; otherwise `data.file_path`, falling back to
      `data.download_info?.file_path`. */
  function FetchFilePath(ok: bool, status: int, data: JsValue): (r: Result<JsValue, string>)
    ensures !ok ==> r == Err(DOWNLOAD_FAILED + IntToString(status))
    ensures ok && (data.JsNull? || data.JsUndefined?) ==> r.Err?
    ensures ok && !(data.JsNull? || data.JsUndefined?) && Truthy(Get(data, "file_path")) ==>
      r == Ok(Get(data, "file_path"))
    ensures ok && !(data.JsNull? || data.JsUndefined?) && !Truthy(Get(data, "file_path")) ==>
      r == Ok(Get(Get(data, "download_info"), "file_path"))
  {
    if !ok then Err(DOWNLOAD_FAILED + IntToString(status))
    else if data.JsNull? || data.JsUndefined? then Err("TypeError")
    else Ok(Or(Get(data, "file_path"), Get(Get(data, "download_info"), "file_path")))
  }

  /** The request sent when the socket opens. */
  function AnalysisRequest(filePath: JsValue): (m: JsValue)
    ensures Get(m, "file_path") == filePath && Get(m, "language") == JsStr("en")
  {
    JsObj(map["file_path" := filePath, "language" := JsStr("en")])
  }

  /** `resolve` or `reject` of run `i`: only a pending promise settles; a
      rejection reaches that run's `catch`, which clears the current
      analysis, whichever run it belongs to. */
  function Settle(s: RunState, i: nat, outcome: PromiseState): (t: RunState)
    requires !outcome.Pending?
    ensures |t.runs| == |s.runs| && t.websocket == s.websocket
    ensures forall j :: 0 <= j < |s.runs| && j != i ==> t.runs[j] == s.runs[j]
    ensures !(i < |s.runs| && s.runs[i].promise == Some(Pending)) ==> t == s
    ensures i < |s.runs| && s.runs[i].promise == Some(Pending) ==>
      t.runs[i] == s.runs[i].(promise := Some(outcome))
    ensures i < |s.runs| && s.runs[i].promise == Some(Pending) && outcome.Rejected? ==>
      t.session == Abandoned(s.session)
    ensures outcome.Resolved? ==> t.session == s.session
    ensures t.sent == s.sent && t.stored == s.stored
  {
    if i >= |s.runs| || s.runs[i].promise != Some(Pending) then s
    else
      var t := WithRun(s, i, s.runs[i].(promise := Some(outcome)));
      if outcome.Rejected? then t.(session := Abandoned(s.session)) else t
  }

  datatype RunEvent =
    /** `startAnalysis(videoUrl)`; `openError` is the error
        `window.open` throws, if it does. */
    | StartPressed(videoUrl: string, now: int, encodedUrl: string, openError: Option<string>)
    | FetchDone(run: nat, result: Result<JsValue, string>)
    | SocketOpened(run: nat)
    /** `onmessage`, with `JSON.parse(event.data)` (`None` when it throws). */
    | SocketMessage(run: nat, parsed: Option<JsValue>, timestamp: int, keyTime: int)
    | SocketError(run: nat)
    | SocketClosed(run: nat)
    | TimeoutFired(run: nat)
    | CompletionReported(data: JsValue, now: int)

  /** `this.websocket.send(payload)`: transmitted on the latest socket when it
      is OPEN; a CONNECTING socket throws and a closed one drops it. */
  function Transmit(s: RunState, payload: JsValue): (t: RunState)
    ensures LatestSocketOpen(s) ==> t == s.(sent := s.sent + [Sent(s.websocket.value, payload)])
    ensures !LatestSocketOpen(s) ==> t == s
  {
    if LatestSocketOpen(s) then s.(sent := s.sent + [Sent(s.websocket.value, payload)]) else s
  }

  /** The socket dispatch of one parsed message of run `i`. */
  function OnParsedMessage(s: RunState, i: nat, m: JsValue, timestamp: int, keyTime: int): RunState
    requires i < |s.runs|
  {
    var stage := Get(m, "stage");
    if stage == JsStr("extract") then
      var record := StoredAnalysis("analysis_" + IntToString(keyTime), s.runs[i].videoUrl, timestamp,
                                   Get(m, "data"), AnalyzeUrl(s.runs[i].encodedUrl));
      Settle(s.(stored := s.stored + [record]), i, Resolved)
    else if stage == JsStr("error") then Settle(s, i, Rejected(Get(m, "error")))
    else s
  }

  /** Whether run `i` exists and has created its socket (so that its socket
      callbacks and its timer exist). */
  predicate HasSocket(s: RunState, i: nat)
  {
    i < |s.runs| && s.runs[i].socket.Some?
  }

  function Next(s: RunState, e: RunEvent): RunState
  {
    match e
    case StartPressed(u, now, enc, openError) =>
      if ExtractVideoId(u).None? then s
      else if openError.Some? then s.(session := Abandoned(Started(s.session, u, now)))
      else s.(session := Started(s.session, u, now), runs := s.runs + [NewRun(u, enc)])
    case FetchDone(i, r) =>
      if i >= |s.runs| || !s.runs[i].fetching then s
      else if r.Err? || !Truthy(r.value) then
        WithRun(s, i, s.runs[i].(fetching := false)).(session := Abandoned(s.session))
      else
        WithRun(s, i, s.runs[i].(fetching := false, filePath := r.value, socket := Some(SocketHook.Connecting),
                                 promise := Some(Pending))).(websocket := Some(i))
    case SocketOpened(i) =>
      if !HasSocket(s, i) then s
      else Transmit(WithRun(s, i, s.runs[i].(socket := Some(SocketHook.Open))), AnalysisRequest(s.runs[i].filePath))
    case SocketMessage(i, parsed, timestamp, keyTime) =>
      if !HasSocket(s, i) || parsed.None? then s
      else OnParsedMessage(s, i, parsed.value, timestamp, keyTime)
    case SocketError(i) =>
      if !HasSocket(s, i) then s else Settle(s, i, Rejected(JsStr(SOCKET_FAILED)))
    case SocketClosed(i) =>
      if !HasSocket(s, i) then s else WithRun(s, i, s.runs[i].(socket := Some(SocketHook.Closed)))
    case TimeoutFired(i) =>
      if HasSocket(s, i) && LatestSocketOpen(s) then Settle(s, i, Rejected(JsStr(REQUEST_TIMED_OUT))) else s
    case CompletionReported(data, now) =>
      s.(session := Completed(s.session, Get(data, "resultUrl"), now))
  }

  function Run(s: RunState, events: seq<RunEvent>): RunState
    decreases |events|
  {
    if events == [] then s else Run(Next(s, events[0]), events[1..])
  }

  /** The run an event belongs to, if any. */
  function EventRun(e: RunEvent): Option<nat>
  {
    match e
    case FetchDone(i, _) => Some(i)
    case SocketOpened(i) => Some(i)
    case SocketMessage(i, _, _, _) => Some(i)
    case SocketError(i) => Some(i)
    case SocketClosed(i) => Some(i)
    case TimeoutFired(i) => Some(i)
    case _ => None
  }

  /** Every event keeps the state valid. */
  lemma NextValid(s: RunState, e: RunEvent)
    requires Valid(s)
    ensures Valid(Next(s, e))
  {
    var t := Next(s, e);
    if e.SocketOpened? && HasSocket(s, e.run) {
      var w := WithRun(s, e.run, s.runs[e.run].(socket := Some(SocketHook.Open)));
      assert Valid(w);
      assert forall k :: 0 <= k < |t.sent| ==> t.sent[k] in w.sent || t.sent[k] == Sent(w.websocket.value, AnalysisRequest(s.runs[e.run].filePath));
    }
  }

  /** The three outcomes of pressing start, one per branch. A start never
      cancels an earlier run: it adds a fresh one and leaves the others, the
      latest socket and everything sent or stored as they were. */
  lemma StartPressedCases(s: RunState, u: string, now: int, enc: string, openError: Option<string>)
    ensures ExtractVideoId(u).None? ==> Next(s, StartPressed(u, now, enc, openError)) == s
    ensures ExtractVideoId(u).Some? && openError.Some? ==>
      Next(s, StartPressed(u, now, enc, openError)) == s.(session := Abandoned(Started(s.session, u, now)))
    ensures ExtractVideoId(u).Some? && openError.None? ==>
      var t := Next(s, StartPressed(u, now, enc, openError));
      && t.session == Started(s.session, u, now)
      && t.runs == s.runs + [BackgroundRun(u, enc, true, JsUndefined, None, None)]
      && t.websocket == s.websocket && t.sent == s.sent && t.stored == s.stored
  {
  }

  /** An address without a shorts id changes nothing at all. */
  lemma InvalidAddressNoChange(s: RunState, u: string, now: int, enc: string, openError: Option<string>)
    requires ExtractVideoId(u).None?
    ensures Next(s, StartPressed(u, now, enc, openError)) == s
  {
  }

  /** A valid address makes the session analyzing and starts a download,
      unless opening the page throws, which abandons the analysis. */
  lemma ValidAddressStarts(s: RunState, u: string, now: int, enc: string)
    requires ExtractVideoId(u).Some?
    ensures InProgress(Next(s, StartPressed(u, now, enc, None)).session)
    ensures Next(s, StartPressed(u, now, enc, None)).runs[|s.runs|].fetching
    ensures forall err :: Next(s, StartPressed(u, now, enc, Some(err))).session.current.None?
  {
    AnalyzingTransitions(s.session, u, JsUndefined, now);
  }

  /** A failed download, including one that finds no file path, clears the
      current analysis and creates no socket. */
  lemma FetchFailureAbandons(s: RunState, i: nat, r: Result<JsValue, string>)
    requires i < |s.runs| && s.runs[i].fetching && (r.Err? || !Truthy(r.value))
    ensures Next(s, FetchDone(i, r)).session.current.None?
    ensures Next(s, FetchDone(i, r)).runs[i].socket == s.runs[i].socket
    ensures Next(s, FetchDone(i, r)).runs[i].promise == s.runs[i].promise
    ensures Next(s, FetchDone(i, r)).websocket == s.websocket
  {
  }

  /** A successful download creates the run's socket and pending promise,
      and the manager's `websocket` now holds that socket. */
  lemma FetchSuccessConnects(s: RunState, i: nat, path: JsValue)
    requires i < |s.runs| && s.runs[i].fetching && Truthy(path)
    ensures var t := Next(s, FetchDone(i, Ok(path)));
      t.websocket == Some(i) && t.runs[i].socket == Some(SocketHook.Connecting)
      && t.runs[i].promise == Some(Pending) && t.runs[i].filePath == path && t.session == s.session
  {
  }

  /** Opening the latest socket sends exactly `{file_path, language: 'en'}`
      on it. */
  lemma OpenSendsRequest(s: RunState, i: nat)
    requires HasSocket(s, i) && s.websocket == Some(i)
    ensures Next(s, SocketOpened(i)).sent == s.sent + [Sent(i, AnalysisRequest(s.runs[i].filePath))]
    ensures Next(s, SocketOpened(i)).runs[i].socket == Some(SocketHook.Open)
  {
  }

  /** An earlier run's `onopen` sends through `this.websocket`, which by
      then holds a later run's socket: its request goes on that socket when
      it is OPEN, and is lost otherwise. */
  lemma StaleOpenUsesLatestSocket(s: RunState, i: nat, j: nat)
    requires HasSocket(s, i) && s.websocket == Some(j) && j != i && j < |s.runs|
    ensures s.runs[j].socket == Some(SocketHook.Open) ==>
      Next(s, SocketOpened(i)).sent == s.sent + [Sent(j, AnalysisRequest(s.runs[i].filePath))]
    ensures s.runs[j].socket != Some(SocketHook.Open) ==> Next(s, SocketOpened(i)).sent == s.sent
  {
  }

  /** The dispatch of run `i`'s socket: 'extract' stores the data under that
      run's address (announcing its /analyze page) and resolves; 'error'
      rejects with `message.error`; every other stage, 'complete' included,
      and an unparsable message change nothing. */
  lemma DispatchRules(s: RunState, i: nat, parsed: Option<JsValue>, timestamp: int, keyTime: int)
    requires HasSocket(s, i)
    ensures var t := Next(s, SocketMessage(i, parsed, timestamp, keyTime));
      && (parsed.None? ==> t == s)
      && (parsed.Some? && Get(parsed.value, "stage") == JsStr("extract") ==>
           t.stored == s.stored + [StoredAnalysis("analysis_" + IntToString(keyTime), s.runs[i].videoUrl, timestamp,
                                                  Get(parsed.value, "data"), AnalyzeUrl(s.runs[i].encodedUrl))]
           && t.session == s.session
           && (s.runs[i].promise == Some(Pending) ==> t.runs[i].promise == Some(Resolved)))
      && (parsed.Some? && Get(parsed.value, "stage") == JsStr("error") ==>
           t.stored == s.stored
           && (s.runs[i].promise == Some(Pending) ==>
                 t.runs[i].promise == Some(Rejected(Get(parsed.value, "error"))) && t.session.current.None?))
      && ((parsed.Some? && Get(parsed.value, "stage") != JsStr("extract")
           && Get(parsed.value, "stage") != JsStr("error")) ==> t == s)
  {
  }

  /** Run `i`'s timer rejects only when the run is pending and the socket in
      `this.websocket` (possibly a later run's) is OPEN, and then clears the
      current analysis. */
  lemma TimeoutOnlyWhenOpen(s: RunState, i: nat)
    ensures Next(s, TimeoutFired(i)) != s ==>
      LatestSocketOpen(s) && i < |s.runs| && s.runs[i].promise == Some(Pending)
    ensures HasSocket(s, i) && LatestSocketOpen(s) && s.runs[i].promise == Some(Pending) ==>
      Next(s, TimeoutFired(i)).runs[i].promise == Some(Rejected(JsStr(REQUEST_TIMED_OUT)))
      && Next(s, TimeoutFired(i)).session.current.None?
  {
  }

  /** An event of run `i` changes no other run. */
  lemma OtherRunsUntouched(s: RunState, e: RunEvent, j: nat)
    requires j < |s.runs| && (EventRun(e).Some? ==> EventRun(e).value != j)
    ensures j < |Next(s, e).runs| && Next(s, e).runs[j] == s.runs[j]
  {
  }

  /** Once settled, a run's promise never changes again, whatever later
      events, starts of new runs included, arrive. */
  lemma {:induction false} SettlesOnce(s: RunState, i: nat, events: seq<RunEvent>)
    requires i < |s.runs| && s.runs[i].promise.Some? && s.runs[i].promise != Some(Pending)
    requires !s.runs[i].fetching
    ensures i < |Run(s, events).runs| && Run(s, events).runs[i].promise == s.runs[i].promise
    decreases |events|
  {
    if events != [] {
      var t := Next(s, events[0]);
      assert i < |t.runs| && t.runs[i].promise == s.runs[i].promise && !t.runs[i].fetching;
      SettlesOnce(t, i, events[1..]);
    }
  }

  /** Nothing cancels a run: when a second analysis has started while the
      first run's socket is open (whatever earlier runs exist), an 'error' frame on that old socket still
      rejects the old promise, and its `catch` clears the new analysis. */
  lemma StaleRunClearsNewAnalysis(s: RunState, u1: string, u2: string, e1: string, e2: string, t1: int, t2: int,
                                  path: JsValue, frame: JsValue, ts: int, kt: int)
    requires ExtractVideoId(u1).Some? && ExtractVideoId(u2).Some? && Truthy(path)
    requires Get(frame, "stage") == JsStr("error")
    ensures var i := |s.runs|;
      var s4 := Next(Next(Next(Next(s, StartPressed(u1, t1, e1, None)), FetchDone(i, Ok(path))), SocketOpened(i)),
                     StartPressed(u2, t2, e2, None));
      InProgress(s4.session) && s4.session.current.value.videoUrl == u2
      && Next(s4, SocketMessage(i, Some(frame), ts, kt)).session.current.None?
  {
    var i := |s.runs|;
    var s1 := Next(s, StartPressed(u1, t1, e1, None));
    assert |s1.runs| == i + 1 && s1.runs[i].fetching;
    var s2 := Next(s1, FetchDone(i, Ok(path)));
    assert s2.runs[i].promise == Some(Pending) && s2.runs[i].socket.Some?;
    var s3 := Next(s2, SocketOpened(i));
    assert i < |s3.runs| && s3.runs[i].promise == Some(Pending) && s3.runs[i].socket.Some?;
    var s4 := Next(s3, StartPressed(u2, t2, e2, None));
    StartPressedCases(s3, u2, t2, e2, None);
    assert s4.runs[i] == s3.runs[i];
    AnalyzingTransitions(s3.session, u2, JsUndefined, t2);
    var s5 := Next(s4, SocketMessage(i, Some(frame), ts, kt));
    assert s5 == Settle(s4, i, Rejected(Get(frame, "error")));
  }

  /** Whatever happens, history keeps only finished analyses and is never
      rewritten. */
  lemma {:induction false} RunHistoryAppendOnly(s: RunState, events: seq<RunEvent>)
    requires HistoryFinished(s.session)
    ensures HistoryFinished(Run(s, events).session)
    ensures s.session.history <= Run(s, events).session.history
    decreases |events|
  {
    if events != [] {
      var t := Next(s, events[0]);
      assert HistoryFinished(t.session) && s.session.history <= t.session.history by {
        var e := events[0];
        if e.CompletionReported? {
          HistoryAppendOnly(s.session, [SessionEvent.CompleteCall(Get(e.data, "resultUrl"), e.now)]);
          assert ApplyAll(s.session, [SessionEvent.CompleteCall(Get(e.data, "resultUrl"), e.now)])
              == ApplyAll(Completed(s.session, Get(e.data, "resultUrl"), e.now), []);
        }
      }
      RunHistoryAppendOnly(t, events[1..]);
    }
  }

  class AnalysisManager {
    var current: Option<AnalysisRecord>
    var history: seq<AnalysisRecord>
    var runs: seq<BackgroundRun>
    var websocket: Option<nat>
    var sent: seq<Sent>
    var stored: seq<StoredAnalysis>

    function State(): RunState
      reads this
    {
      RunState(SessionState(current, history), runs, websocket, sent, stored)
    }

    constructor()
      ensures State() == INITIAL_RUN
    {
      current, history := None, [];
      runs, websocket := [], None;
      sent, stored := [], [];
    }

    /** `startAnalysis(videoUrl)`: returns the call's result, the page it
        opens, the statuses passed to the UI (when `hasUi`) and the alert. */
    method StartAnalysis(videoUrl: string, now: int, encodedUrl: string, openError: Option<string>, hasUi: bool)
      returns (result: bool, redirect: Option<string>, uiStatuses: seq<string>, alert: Option<string>)
      modifies this
      ensures State() == Next(old(State()), StartPressed(videoUrl, now, encodedUrl, openError))
      ensures result <==> ExtractVideoId(videoUrl).Some? && openError.None?
      ensures redirect.Some? <==> result
      ensures redirect.Some? ==> redirect.value == FrontUrl(encodedUrl)
      ensures ExtractVideoId(videoUrl).None? ==> uiStatuses == [] && alert == Some(NO_VIDEO_ID_ALERT)
      ensures result ==> uiStatuses == (if hasUi then ["analyzing"] else []) && alert.None?
      ensures ExtractVideoId(videoUrl).Some? && openError.Some? ==>
        uiStatuses == (if hasUi then ["analyzing", "error"] else [])
        && alert == Some("분석 중 오류가 발생했습니다: " + openError.value)
    {
      var videoId := ExtractVideoId(videoUrl);
      if videoId.None? {
        return false, None, [], Some(NO_VIDEO_ID_ALERT);
      }
      current := Some(AnalysisRecord(videoId.value, videoUrl, now, Analyzing, None, None));
      uiStatuses := if hasUi then ["analyzing"] else [];
      if openError.Some? {
        current := None;
        uiStatuses := if hasUi then uiStatuses + ["error"] else uiStatuses;
        return false, None, uiStatuses, Some("분석 중 오류가 발생했습니다: " + openError.value);
      }
      redirect := Some(FrontUrl(encodedUrl));
      StartBackgroundRun(videoUrl, encodedUrl);
      result, alert := true, None;
    }

    /** `runAnalysisInBackground(videoUrl)`, up to the download: a new run
        with its own closure; earlier runs go on. */
    method StartBackgroundRun(videoUrl: string, encodedUrl: string)
      modifies this
      ensures State() == old(State()).(runs := old(runs) + [NewRun(videoUrl, encodedUrl)])
    {
      runs := runs + [NewRun(videoUrl, encodedUrl)];
    }

    /** The download's outcome reaches run `i`'s `runAnalysisInBackground`. */
    method OnFetchDone(i: nat, r: Result<JsValue, string>)
      modifies this
      ensures State() == Next(old(State()), FetchDone(i, r))
    {
      if i >= |runs| || !runs[i].fetching {
        return;
      }
      if r.Err? || !Truthy(r.value) {
        runs := runs[i := runs[i].(fetching := false)];
        current := None;
      } else {
        runs := runs[i := runs[i].(fetching := false, filePath := r.value, socket := Some(SocketHook.Connecting),
                                   promise := Some(Pending))];
        websocket := Some(i);
      }
    }

    /** Run `i`'s `onopen`, which sends through `this.websocket`. */
    method OnOpen(i: nat)
      modifies this
      ensures State() == Next(old(State()), SocketOpened(i))
    {
      if i >= |runs| || runs[i].socket.None? {
        return;
      }
      var request := AnalysisRequest(runs[i].filePath);
      runs := runs[i := runs[i].(socket := Some(SocketHook.Open))];
      if websocket.Some? && websocket.value < |runs| && runs[websocket.value].socket == Some(SocketHook.Open) {
        sent := sent + [Sent(websocket.value, request)];
      }
    }

    /** Run `i`'s `reject` (and the run's `catch`) or `resolve`. */
    method SettleWith(i: nat, outcome: PromiseState)
      requires !outcome.Pending?
      modifies this
      ensures State() == Settle(old(State()), i, outcome)
    {
      if i < |runs| && runs[i].promise == Some(Pending) {
        runs := runs[i := runs[i].(promise := Some(outcome))];
        if outcome.Rejected? {
          current := None;
        }
      }
    }

    method OnMessage(i: nat, parsed: Option<JsValue>, timestamp: int, keyTime: int)
      modifies this
      ensures State() == Next(old(State()), SocketMessage(i, parsed, timestamp, keyTime))
    {
      if i >= |runs| || runs[i].socket.None? || parsed.None? {
        return;
      }
      var m := parsed.value;
      var stage := Get(m, "stage");
      if stage == JsStr("extract") {
        stored := stored + [StoredAnalysis("analysis_" + IntToString(keyTime), runs[i].videoUrl, timestamp,
                                           Get(m, "data"), AnalyzeUrl(runs[i].encodedUrl))];
        SettleWith(i, Resolved);
      } else if stage == JsStr("error") {
        SettleWith(i, Rejected(Get(m, "error")));
      }
    }

    method OnError(i: nat)
      modifies this
      ensures State() == Next(old(State()), SocketError(i))
    {
      if i < |runs| && runs[i].socket.Some? {
        SettleWith(i, Rejected(JsStr(SOCKET_FAILED)));
      }
    }

    method OnClose(i: nat)
      modifies this
      ensures State() == Next(old(State()), SocketClosed(i))
    {
      if i < |runs| && runs[i].socket.Some? {
        runs := runs[i := runs[i].(socket := Some(SocketHook.Closed))];
      }
    }

    /** Run `i`'s 30-second timer, which looks at `this.websocket`. */
    method OnTimeout(i: nat)
      modifies this
      ensures State() == Next(old(State()), TimeoutFired(i))
    {
      if i < |runs| && runs[i].socket.Some?
         && websocket.Some? && websocket.value < |runs| && runs[websocket.value].socket == Some(SocketHook.Open) {
        SettleWith(i, Rejected(JsStr(REQUEST_TIMED_OUT)));
      }
    }

    method OnAnalysisComplete(data: JsValue, now: int, hasUi: bool) returns (resetButton: bool)
      modifies this
      ensures State() == Next(old(State()), CompletionReported(data, now))
      ensures resetButton == hasUi
    {
      if current.Some? {
        history := history + [current.value.(status := Complete, endTime := Some(now),
                                             resultUrl := Some(Get(data, "resultUrl")))];
        current := None;
      }
      resetButton := hasUi;
    }

    /** `isAnalyzing()`. */
    function IsAnalyzing(): (b: bool)
      reads this
      ensures b <==> InProgress(State().session)
    {
      current.Some? && current.value.status == Analyzing
    }
  }
}
