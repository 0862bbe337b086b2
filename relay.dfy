/** The extension's background worker (extension/background.js): a map of
    in-flight analyses keyed by video URL, three message handlers and a
    periodic sweep that expires old entries. The browser's tab APIs are
    abstract: the id of a created tab, the list of tabs matching the YouTube
    pattern, whether a send to one tab failed and whether a tab to focus
    exists are all inputs. */
module Relay {
  import opened Common

  /** An entry older than this (strictly) is dropped by the sweep. */
  const EXPIRY_MS: int := 600000
  /** The sweep runs on this period; timers themselves are not modelled. */
  const SWEEP_PERIOD_MS: int := 60000

  /** One tracked analysis. `tabId` is the tab that asked for it
      (`sender.tab?.id`), `analysisTabId` the background tab opened for it. */
  datatype Session = Session(
    videoId: string,
    videoUrl: string,
    startTime: int,
    tabId: Option<int>,
    analysisTabId: Option<int>)

  datatype Message =
    | StartAnalysis(videoId: string, videoUrl: string, analysisUrl: string)
    | AnalysisDone(videoUrl: string, resultUrl: string, timestamp: int)
    | FocusAnalysisTab(tabId: int)
    | Other(kind: string)

  /** The object handed to `sendResponse`. */
  datatype Reply = Reply(success: bool, message: Option<string>, tabId: Option<int>)

  /** The `data` of the ANALYSIS_COMPLETE message sent to every YouTube tab. */
  datatype CompleteNotice = CompleteNotice(
    videoUrl: string,
    resultUrl: string,
    timestamp: int,
    analysisTabId: Option<int>)

  /** What a handler asks of the browser, besides replying. */
  datatype Effect =
    | OpenTab(url: string, active: bool)
    | Respond(reply: Reply, broadcast: Option<CompleteNotice>)
    | FocusTab(reply: Reply, focusWindowOf: Option<int>)
    | NoEffect

  predicate Expired(s: Session, now: int)
  {
    now - s.startTime > EXPIRY_MS
  }

  /** The queue after one sweep at time `now`. */
  function Swept(m: map<string, Session>, now: int): (r: map<string, Session>)
    ensures forall url :: url in r <==> url in m && !Expired(m[url], now)
    ensures forall url :: url in r ==> r[url] == m[url]
  {
    map url | url in m && !Expired(m[url], now) :: m[url]
  }

  /** After a sweep at `now` no entry is older than the expiry. */
  lemma SweptEntriesAreFresh(m: map<string, Session>, now: int, url: string)
    requires url in Swept(m, now)
    ensures now - Swept(m, now)[url].startTime <= EXPIRY_MS
  {
  }

  /** Sweeping twice at the same time removes nothing more; a later sweep
      removes at least what an earlier one did. */
  lemma SweepIdempotentAndMonotone(m: map<string, Session>, now: int, later: int)
    requires now <= later
    ensures Swept(Swept(m, now), now) == Swept(m, now)
    ensures Swept(m, later).Keys <= Swept(m, now).Keys
  {
  }

  /** The two sessions of the time-to-live example: one started 700 s ago is
      dropped, one started 100 s ago survives. */
  lemma SweepExample(a: Session, b: Session, now: int)
    requires a.startTime == now - 700000 && b.startTime == now - 100000
    requires a.videoUrl != b.videoUrl
    ensures Swept(map[a.videoUrl := a, b.videoUrl := b], now) == map[b.videoUrl := b]
  {
    var m := map[a.videoUrl := a, b.videoUrl := b];
    assert Expired(m[a.videoUrl], now) && !Expired(m[b.videoUrl], now);
  }

  /** The tabs that actually received the notice: a failed send is caught and
      the remaining tabs are still tried. */
  function Delivered(tabs: seq<int>, failed: seq<bool>): (r: seq<int>)
    requires |failed| == |tabs|
    ensures |r| <= |tabs|
  {
    if tabs == [] then []
    else (if failed[0] then [] else [tabs[0]]) + Delivered(tabs[1..], failed[1..])
  }

  /** Every tab whose send did not fail receives the notice, and no other. */
  lemma {:induction false} DeliveredExactly(tabs: seq<int>, failed: seq<bool>, t: int)
    requires |failed| == |tabs|
    ensures t in Delivered(tabs, failed) <==> exists i :: 0 <= i < |tabs| && tabs[i] == t && !failed[i]
  {
    if tabs != [] {
      DeliveredExactly(tabs[1..], failed[1..], t);
      if t in Delivered(tabs[1..], failed[1..]) {
        var i :| 0 <= i < |tabs[1..]| && tabs[1..][i] == t && !failed[1..][i];
        assert tabs[i + 1] == t && !failed[i + 1];
      }
      if exists i :: 0 <= i < |tabs| && tabs[i] == t && !failed[i] {
        var i :| 0 <= i < |tabs| && tabs[i] == t && !failed[i];
        if i > 0 {
          assert tabs[1..][i - 1] == t && !failed[1..][i - 1];
        }
      }
    }
  }

  /** Fan-out to three tabs where the second send fails: the other two still
      get the notice. */
  lemma FanOutExample(t1: int, t2: int, t3: int)
    ensures Delivered([t1, t2, t3], [false, true, false]) == [t1, t3]
  {
    assert [t1, t2, t3][1..] == [t2, t3] && [false, true, false][1..] == [true, false];
    assert [t2, t3][1..] == [t3] && [true, false][1..] == [false];
    assert Delivered([t3], [false]) == [t3];
    assert Delivered([t2, t3], [true, false]) == [t3];
  }

  /** The `tabs.forEach` in the `tabs.query` callback: one send per tab. */
  method Broadcast(tabs: seq<int>, failed: seq<bool>) returns (attempted: seq<int>, delivered: seq<int>)
    requires |failed| == |tabs|
    ensures attempted == tabs
    ensures delivered == Delivered(tabs, failed)
  {
    attempted, delivered := [], [];
    var i := 0;
    while i < |tabs|
      invariant 0 <= i <= |tabs|
      invariant attempted == tabs[..i]
      invariant delivered + Delivered(tabs[i..], failed[i..]) == Delivered(tabs, failed)
    {
      assert tabs[i..][1..] == tabs[i + 1..] && failed[i..][1..] == failed[i + 1..];
      attempted := attempted + [tabs[i]];
      if !failed[i] {
        delivered := delivered + [tabs[i]];
      }
      i := i + 1;
    }
    assert tabs[..i] == tabs;
  }

  /** The FOCUS_ANALYSIS_TAB handler: `tabs.update` yields the tab or
      nothing; on success its window is focused. The queue is not read. */
  method FocusReply(tabId: int, found: Option<int>) returns (reply: Reply, focusWindowOf: Option<int>)
    ensures reply.success <==> found.Some?
    ensures reply.message.None? && reply.tabId.None?
    ensures focusWindowOf == found
  {
    reply := Reply(found.Some?, None, None);
    focusWindowOf := found;
  }

  class AnalysisRelay {
    /** `analysisQueue`: at most one entry per video URL, by construction. */
    var queue: map<string, Session>

    constructor()
      ensures queue == map[]
    {
      queue := map[];
    }

    /** START_ANALYSIS: record (or overwrite) the entry for the URL, then ask
        for an inactive tab; the reply waits for `OnTabCreated`. */
    method OnStartAnalysis(videoId: string, videoUrl: string, analysisUrl: string, senderTab: Option<int>, now: int)
      returns (effect: Effect)
      modifies this
      ensures queue == old(queue)[videoUrl := Session(videoId, videoUrl, now, senderTab, None)]
      ensures effect == OpenTab(analysisUrl, false)
    {
      queue := queue[videoUrl := Session(videoId, videoUrl, now, senderTab, None)];
      effect := OpenTab(analysisUrl, false);
    }

    /** The `tabs.create` callback: the tab id is stored only if the entry
        still exists (it may have been completed or swept meanwhile); the
        reply is sent either way. */
    method OnTabCreated(videoUrl: string, createdTab: int) returns (reply: Reply)
      modifies this
      ensures videoUrl in old(queue) ==>
        queue == old(queue)[videoUrl := old(queue)[videoUrl].(analysisTabId := Some(createdTab))]
      ensures videoUrl !in old(queue) ==> queue == old(queue)
      ensures reply == Reply(true, Some("Analysis started"), Some(createdTab))
    {
      if videoUrl in queue {
        var analysis := queue[videoUrl];
        queue := queue[videoUrl := analysis.(analysisTabId := Some(createdTab))];
      }
      reply := Reply(true, Some("Analysis started"), Some(createdTab));
    }

    /** ANALYSIS_DONE: for a known URL, the notice to broadcast carries the
        entry's analysis tab; the entry is deleted at once. */
    method OnAnalysisDone(videoUrl: string, resultUrl: string, timestamp: int) returns (effect: Effect)
      modifies this
      ensures videoUrl in old(queue) ==>
        queue == old(queue) - {videoUrl}
        && effect == Respond(Reply(true, Some("Notification sent"), None),
                             Some(CompleteNotice(videoUrl, resultUrl, timestamp, old(queue)[videoUrl].analysisTabId)))
      ensures videoUrl !in old(queue) ==>
        queue == old(queue) && effect == Respond(Reply(false, Some("Analysis not found"), None), None)
    {
      if videoUrl in queue {
        var analysis := queue[videoUrl];
        queue := queue - {videoUrl};
        effect := Respond(Reply(true, Some("Notification sent"), None),
                          Some(CompleteNotice(videoUrl, resultUrl, timestamp, analysis.analysisTabId)));
      } else {
        effect := Respond(Reply(false, Some("Analysis not found"), None), None);
      }
    }

    /** The `onMessage` listener: one branch per message type. `focusFound`
        is what `tabs.update` reports for FOCUS_ANALYSIS_TAB. */
    method OnMessage(msg: Message, senderTab: Option<int>, now: int, focusFound: Option<int>) returns (effect: Effect)
      modifies this
      ensures msg.StartAnalysis? ==>
        queue == old(queue)[msg.videoUrl := Session(msg.videoId, msg.videoUrl, now, senderTab, None)]
        && effect == OpenTab(msg.analysisUrl, false)
      ensures msg.AnalysisDone? && msg.videoUrl in old(queue) ==>
        queue == old(queue) - {msg.videoUrl} && effect.Respond? && effect.reply.success
        && effect.broadcast == Some(CompleteNotice(msg.videoUrl, msg.resultUrl, msg.timestamp,
                                                   old(queue)[msg.videoUrl].analysisTabId))
      ensures msg.AnalysisDone? && msg.videoUrl !in old(queue) ==>
        queue == old(queue) && effect.Respond? && !effect.reply.success && effect.broadcast.None?
      ensures msg.FocusAnalysisTab? ==>
        queue == old(queue) && effect.FocusTab? && (effect.reply.success <==> focusFound.Some?)
      ensures msg.Other? ==> queue == old(queue) && effect == NoEffect
    {
      match msg
      case StartAnalysis(videoId, videoUrl, analysisUrl) =>
        effect := OnStartAnalysis(videoId, videoUrl, analysisUrl, senderTab, now);
      case AnalysisDone(videoUrl, resultUrl, timestamp) =>
        effect := OnAnalysisDone(videoUrl, resultUrl, timestamp);
      case FocusAnalysisTab(tabId) =>
        var reply, window := FocusReply(tabId, focusFound);
        effect := FocusTab(reply, window);
      case Other(_) =>
        effect := NoEffect;
    }

    /** The 60-second sweep: walk the entries and delete every expired one. */
    method Sweep(now: int)
      modifies this
      ensures queue == Swept(old(queue), now)
    {
      var remaining := queue.Keys;
      while remaining != {}
        invariant remaining <= old(queue).Keys
        invariant forall url :: url in queue <==>
          url in old(queue) && (url in remaining || !Expired(old(queue)[url], now))
        invariant forall url :: url in queue ==> queue[url] == old(queue)[url]
        decreases remaining
      {
        var url :| url in remaining;
        if Expired(queue[url], now) {
          queue := queue - {url};
        }
        remaining := remaining - {url};
      }
    }
  }
}
