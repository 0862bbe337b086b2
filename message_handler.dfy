/** The `MessageHandler` of the test extension
    (testExtension/youtube/message-handler.js): the messages it sends to the
    background page, its runtime listener, and the completion box it shows
    on the page. The box's timers (10-second auto-hide, 300 ms removal after
    the slide-out) are events. */
module MessageHandler {
  import opened Common
  import opened JsValues

  /** `sendToBackground`: rejects with `chrome.runtime.lastError` when it is
      set, and resolves with the response otherwise. */
  function SendToBackground(lastError: Option<JsValue>, response: JsValue): (r: Result<JsValue, JsValue>)
    ensures lastError.Some? <==> r.Err?
    ensures r.Err? ==> r.error == lastError.value
    ensures r.Ok? ==> r.value == response
  {
    if lastError.Some? then Err(lastError.value) else Ok(response)
  }

  /** `notifyAnalysisStart(videoId, videoUrl, analysisUrl)` at time `now`. */
  function StartAnalysisMessage(videoId: string, videoUrl: string, analysisUrl: string, now: int): (m: JsValue)
    ensures Get(m, "type") == JsStr("START_ANALYSIS")
    ensures Get(m, "videoId") == JsStr(videoId) && Get(m, "videoUrl") == JsStr(videoUrl)
    ensures Get(m, "analysisUrl") == JsStr(analysisUrl) && Get(m, "timestamp") == JsNum(now)
    ensures m.JsObj? && m.fields.Keys == {"type", "videoId", "videoUrl", "analysisUrl", "timestamp"}
  {
    JsObj(map["type" := JsStr("START_ANALYSIS"), "videoId" := JsStr(videoId), "videoUrl" := JsStr(videoUrl),
              "analysisUrl" := JsStr(analysisUrl), "timestamp" := JsNum(now)])
  }

  /** `focusAnalysisTab(tabId)`. */
  function FocusTabMessage(tabId: JsValue): (m: JsValue)
    ensures Get(m, "type") == JsStr("FOCUS_ANALYSIS_TAB") && Get(m, "tabId") == tabId
    ensures m.JsObj? && m.fields.Keys == {"type", "tabId"}
  {
    JsObj(map["type" := JsStr("FOCUS_ANALYSIS_TAB"), "tabId" := tabId])
  }

  /** A completion box: its identity, the `resultUrl` its view button
      captured, and whether its slide-out has started. */
  datatype NoticeBox = NoticeBox(serial: nat, resultUrl: JsValue, slidingOut: bool)

  datatype HandlerState = HandlerState(
    box: Option<NoticeBox>,
    tabId: JsValue,
    onPage: set<nat>,
    nextSerial: nat)

  const INITIAL_HANDLER := HandlerState(None, JsNull, {}, 0)

  /** The box tracked by `notificationBox` is the only one on the page. */
  predicate Tracked(s: HandlerState)
  {
    (s.box.None? ==> s.onPage == {})
    && (s.box.Some? ==> s.onPage == {s.box.value.serial} && s.box.value.serial < s.nextSerial)
  }

  /** `showNotificationBox(data)`: the old box is removed first. */
  function Show(s: HandlerState, data: JsValue): HandlerState
  {
    var remaining := if s.box.Some? then s.onPage - {s.box.value.serial} else s.onPage;
    HandlerState(Some(NoticeBox(s.nextSerial, Get(data, "resultUrl"), false)), s.tabId,
                 remaining + {s.nextSerial}, s.nextSerial + 1)
  }

  /** `hideNotificationBox()`: starts the slide-out of the current box, if
      any; the 300 ms removal comes later. */
  function Hide(s: HandlerState): HandlerState
  {
    if s.box.None? then s else s.(box := Some(s.box.value.(slidingOut := true)))
  }

  /** The 300 ms removal: it removes whichever box is current by then. */
  function RemoveCurrent(s: HandlerState): HandlerState
  {
    if s.box.None? then s else s.(box := None, onPage := s.onPage - {s.box.value.serial})
  }

  /** `handleAnalysisComplete(data)`: the tab id is stored (an absent one
      as `undefined`) and the box shown. */
  function CompleteReceived(s: HandlerState, data: JsValue): HandlerState
  {
    Show(s.(tabId := Get(data, "analysisTabId")), data)
  }

  datatype ViewAction = FocusTab(message: JsValue) | OpenResult(url: JsValue)

  /** The view button of the current box: focus the analysis tab and hide
      the box when a tab id is known, otherwise open the result page in a new
      tab and keep the box. */
  function ViewClicked(s: HandlerState): (HandlerState, Option<ViewAction>)
  {
    if s.box.None? then (s, None)
    else if Truthy(s.tabId) then (Hide(s), Some(FocusTab(FocusTabMessage(s.tabId))))
    else (s, Some(OpenResult(s.box.value.resultUrl)))
  }

  datatype HandlerEvent =
    | CompleteMessage(data: JsValue)
    | ViewClick
    | CloseClick
    | AutoHideFired
    | RemovalFired

  function Next(s: HandlerState, e: HandlerEvent): HandlerState
  {
    match e
    case CompleteMessage(data) =>
      if data.JsNull? || data.JsUndefined? then s else CompleteReceived(s, data)
    case ViewClick => ViewClicked(s).0
    case CloseClick => Hide(s)
    case AutoHideFired => Hide(s)
    case RemovalFired => RemoveCurrent(s)
  }

  /** Every handler keeps the page down to the one tracked box. */
  lemma NextKeepsTracked(s: HandlerState, e: HandlerEvent)
    requires Tracked(s)
    ensures Tracked(Next(s, e))
  {
  }

  function Run(s: HandlerState, events: seq<HandlerEvent>): HandlerState
    decreases |events|
  {
    if events == [] then s else Run(Next(s, events[0]), events[1..])
  }

  /** At most one completion box is ever on the page. */
  lemma {:induction false} AtMostOneBox(s: HandlerState, events: seq<HandlerEvent>)
    requires Tracked(s)
    ensures Tracked(Run(s, events))
    ensures |Run(s, events).onPage| <= 1
    decreases |events|
  {
    if events != [] {
      NextKeepsTracked(s, events[0]);
      AtMostOneBox(Next(s, events[0]), events[1..]);
    }
  }

  /** The view button focuses the stored tab exactly when its id is truthy;
      hiding and the removal are no-ops without a box. */
  lemma ViewAndHideRules(s: HandlerState)
    ensures s.box.Some? && Truthy(s.tabId) ==>
      ViewClicked(s) == (Hide(s), Some(FocusTab(FocusTabMessage(s.tabId))))
    ensures s.box.Some? && !Truthy(s.tabId) ==>
      ViewClicked(s) == (s, Some(OpenResult(s.box.value.resultUrl)))
    ensures s.box.None? ==> Hide(s) == s && RemoveCurrent(s) == s && ViewClicked(s).1.None?
  {
  }

  /** A completion replaces the box and records its tab id, so the next view
      click focuses that tab. */
  lemma CompletionThenView(s: HandlerState, data: JsValue)
    requires !(data.JsNull? || data.JsUndefined?) && Truthy(Get(data, "analysisTabId"))
    ensures var t := Next(s, CompleteMessage(data));
      t.box.Some? && !t.box.value.slidingOut
      && ViewClicked(t).1 == Some(FocusTab(FocusTabMessage(Get(data, "analysisTabId"))))
  {
  }

  /** The removal timer is not tied to the box that was hidden: a box shown
      during another box's slide-out is removed by that box's timer. */
  lemma LateRemovalTakesNewerBox(d1: JsValue, d2: JsValue)
    requires !(d1.JsNull? || d1.JsUndefined?) && !(d2.JsNull? || d2.JsUndefined?)
    ensures var s1 := Next(Next(INITIAL_HANDLER, CompleteMessage(d1)), CloseClick);
      var s2 := Next(s1, CompleteMessage(d2));
      s2.box.Some? && !s2.box.value.slidingOut && Next(s2, RemovalFired).box.None?
      && Next(s2, RemovalFired).onPage == {}
  {
  }

  class MessageHandler {
    var box: Option<NoticeBox>
    var tabId: JsValue
    var onPage: set<nat>
    var nextSerial: nat

    function State(): HandlerState
      reads this
    {
      HandlerState(box, tabId, onPage, nextSerial)
    }

    constructor()
      ensures State() == INITIAL_HANDLER
    {
      box, tabId, onPage, nextSerial := None, JsNull, {}, 0;
    }

    /** The runtime listener. Only ANALYSIS_COMPLETE is handled and answered
        `{success: true}`. Reading `analysisTabId` of a missing `data`
        throws (`threw`) before anything changes and before the answer, and
        the listener then returns nothing; otherwise it returns true to keep
        the channel open. `forward` is the data passed on to the analysis
        manager (when `hasManager`). */
    method OnRuntimeMessage(message: JsValue, hasManager: bool)
      returns (response: Option<JsValue>, forward: Option<JsValue>, threw: bool, keepChannel: bool)
      modifies this
      ensures var data := Get(message, "data");
        var complete := Get(message, "type") == JsStr("ANALYSIS_COMPLETE");
        && (threw <==> complete && (data.JsNull? || data.JsUndefined?))
        && (complete && !threw ==> State() == Next(old(State()), CompleteMessage(data))
                                   && response == Some(JsObj(map["success" := JsBool(true)]))
                                   && forward == (if hasManager then Some(data) else None))
        && (!complete || threw ==> State() == old(State()) && response.None? && forward.None?)
      ensures keepChannel <==> !threw
    {
      response, forward, threw := None, None, false;
      if Get(message, "type") == JsStr("ANALYSIS_COMPLETE") {
        var data := Get(message, "data");
        if data.JsNull? || data.JsUndefined? {
          threw := true;
        } else {
          tabId := Get(data, "analysisTabId");
          ShowBox(data);
          forward := if hasManager then Some(data) else None;
          response := Some(JsObj(map["success" := JsBool(true)]));
        }
      }
      keepChannel := !threw;
    }

    method ShowBox(data: JsValue)
      modifies this
      ensures State() == Show(old(State()), data)
    {
      if box.Some? {
        onPage := onPage - {box.value.serial};
      }
      box := Some(NoticeBox(nextSerial, Get(data, "resultUrl"), false));
      onPage := onPage + {nextSerial};
      nextSerial := nextSerial + 1;
    }

    method HideBox()
      modifies this
      ensures State() == Hide(old(State()))
    {
      if box.Some? {
        box := Some(box.value.(slidingOut := true));
      }
    }

    method OnViewClick() returns (action: Option<ViewAction>)
      modifies this
      ensures (State(), action) == ViewClicked(old(State()))
    {
      action := None;
      if box.None? {
        return;
      }
      if Truthy(tabId) {
        action := Some(FocusTab(FocusTabMessage(tabId)));
        HideBox();
      } else {
        action := Some(OpenResult(box.value.resultUrl));
      }
    }

    method OnCloseClick()
      modifies this
      ensures State() == Next(old(State()), CloseClick)
    {
      HideBox();
    }

    method OnAutoHide()
      modifies this
      ensures State() == Next(old(State()), AutoHideFired)
    {
      HideBox();
    }

    method OnRemovalTimer()
      modifies this
      ensures State() == Next(old(State()), RemovalFired)
    {
      if box.Some? {
        onPage := onPage - {box.value.serial};
        box := None;
      }
    }
  }
}
