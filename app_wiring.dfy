/** The event wiring of the front end (front/src/App.jsx): each socket event
    is handled by a fixed sequence of store setters, most of them ending in
    a stage change. */
module AppWiring {
  import opened Common
  import opened JsValues
  import opened Workflow
  import SocketHook

  /** The six events `AppContent` listens for. */
  const EVENT_NAMES: seq<string> := ["video_info", "transcript", "candidates", "verification", "conclusion", "error"]

  /** The setters one handler calls, in order. An event nobody listens for
      calls none. */
  function HandlerOps(name: string, data: JsValue): seq<StoreOp>
  {
    if name == "video_info" then [UpdateVideoData(data), MoveToStep(Info)]
    else if name == "transcript" then [UpdateTranscript(data), MoveToStep(Extract)]
    else if name == "candidates" then [SetCandidates(Or(Get(data, "candidates"), JsArr([]))), MoveToStep(Classify)]
    else if name == "verification" then [AddVerificationOp(Get(data, "candidateId"), Get(data, "verification"))]
    else if name == "conclusion" then [SetConclusion(data), MoveToStep(Conclude)]
    else []
  }

  function ApplyAll(s: StoreState, ops: seq<StoreOp>): StoreState
    decreases |ops|
  {
    if ops == [] then s else ApplyAll(ApplyOp(s, ops[0]), ops[1..])
  }

  /** The store after one event's handler has run. */
  function Handle(s: StoreState, name: string, data: JsValue): StoreState
  {
    ApplyAll(s, HandlerOps(name, data))
  }

  /** The store after a whole sequence of events. */
  function Replay(s: StoreState, events: seq<(string, JsValue)>): StoreState
    decreases |events|
  {
    if events == [] then s else Replay(Handle(s, events[0].0, events[0].1), events[1..])
  }

  /** The stage an event moves to, if any. */
  function StageOf(name: string): Option<Step>
  {
    if name == "video_info" then Some(Info)
    else if name == "transcript" then Some(Extract)
    else if name == "candidates" then Some(Classify)
    else if name == "conclusion" then Some(Conclude)
    else None
  }

  /** The stage of the last stage-changing event, or `current` if none. */
  function LastStage(events: seq<(string, JsValue)>, current: Step): Step
    decreases |events|
  {
    if events == [] then current
    else LastStage(events[1..], match StageOf(events[0].0) case Some(t) => t case None => current)
  }

  lemma ApplyOne(s: StoreState, a: StoreOp)
    ensures ApplyAll(s, []) == s
    ensures ApplyAll(s, [a]) == ApplyOp(s, a)
  {
    assert [a][1..] == [];
  }

  lemma ApplyOneOrTwo(s: StoreState, a: StoreOp, b: StoreOp)
    ensures ApplyAll(s, []) == s
    ensures ApplyAll(s, [a]) == ApplyOp(s, a)
    ensures ApplyAll(s, [a, b]) == ApplyOp(ApplyOp(s, a), b)
  {
    ApplyOne(s, a);
    assert [a, b][1..] == [b];
    assert ApplyAll(ApplyOp(s, a), [b]) == ApplyAll(ApplyOp(ApplyOp(s, a), b), []);
  }

  /** What each handler does to the store, spelled out: the merge handlers
      merge and move on, `candidates` falls back to `[]`, `verification`
      keeps the stage, `conclusion` replaces, `error` changes nothing. */
  lemma HandleVideoInfo(s: StoreState, data: JsValue)
    ensures Handle(s, "video_info", data) == s.(videoData := Merge(s.videoData, data), step := Info)
  {
    ApplyOneOrTwo(s, UpdateVideoData(data), MoveToStep(Info));
  }

  lemma HandleTranscript(s: StoreState, data: JsValue)
    ensures Handle(s, "transcript", data) == s.(transcript := Merge(s.transcript, data), step := Extract)
  {
    ApplyOneOrTwo(s, UpdateTranscript(data), MoveToStep(Extract));
  }

  lemma HandleCandidates(s: StoreState, data: JsValue)
    ensures Handle(s, "candidates", data)
      == s.(candidates := if Truthy(Get(data, "candidates")) then Get(data, "candidates") else JsArr([]),
            step := Classify)
  {
    ApplyOneOrTwo(s, SetCandidates(Or(Get(data, "candidates"), JsArr([]))), MoveToStep(Classify));
  }

  lemma HandleVerification(s: StoreState, data: JsValue)
    ensures Handle(s, "verification", data)
      == s.(verifications := InsertVerification(s.verifications, Get(data, "candidateId"), Get(data, "verification")))
  {
    ApplyOne(s, AddVerificationOp(Get(data, "candidateId"), Get(data, "verification")));
  }

  lemma HandleConclusion(s: StoreState, data: JsValue)
    ensures Handle(s, "conclusion", data) == s.(conclusion := data, step := Conclude)
  {
    ApplyOneOrTwo(s, SetConclusion(data), MoveToStep(Conclude));
  }

  /** `error` and every event without a listener leave the store alone. */
  lemma HandleIgnored(s: StoreState, name: string, data: JsValue)
    requires StageOf(name).None? && name != "verification"
    ensures Handle(s, name, data) == s
  {
  }

  /** A handler's stage: the event's own stage when it has one, otherwise
      the stage is left alone. */
  lemma HandleStep(s: StoreState, name: string, data: JsValue)
    ensures Handle(s, name, data).step == match StageOf(name) case Some(t) => t case None => s.step
  {
    if name == "video_info" { HandleVideoInfo(s, data); }
    else if name == "transcript" { HandleTranscript(s, data); }
    else if name == "candidates" { HandleCandidates(s, data); }
    else if name == "verification" { HandleVerification(s, data); }
    else if name == "conclusion" { HandleConclusion(s, data); }
  }

  /** After any sequence of events the stage is that of the last
      stage-changing event, or unchanged if there was none. */
  lemma {:induction false} ReplayStep(s: StoreState, events: seq<(string, JsValue)>)
    ensures Replay(s, events).step == LastStage(events, s.step)
    decreases |events|
  {
    if events != [] {
      HandleStep(s, events[0].0, events[0].1);
      ReplayStep(Handle(s, events[0].0, events[0].1), events[1..]);
    }
  }

  /** No event moves to VERIFY: starting from the initial store, VERIFY is
      never reached, whatever arrives. */
  lemma {:induction false} NeverVerify(events: seq<(string, JsValue)>)
    ensures Replay(INITIAL_STATE, events).step != Verify
  {
    ReplayStep(INITIAL_STATE, events);
    LastStageNotVerify(events, INITIAL_STATE.step);
  }

  lemma {:induction false} LastStageNotVerify(events: seq<(string, JsValue)>, current: Step)
    requires current != Verify
    ensures LastStage(events, current) != Verify
    decreases |events|
  {
    if events != [] {
      LastStageNotVerify(events[1..], match StageOf(events[0].0) case Some(t) => t case None => current);
    }
  }

  /** The handler table `AppContent` registers: each event name maps to the
      callback of the same name. */
  function AppHandlers(): (r: map<string, SocketHook.HandlerRef>)
    ensures r.Keys == set n | n in EVENT_NAMES
    ensures forall n :: n in r ==> r[n] == SocketHook.HandlerRef(n)
  {
    map["video_info" := SocketHook.HandlerRef("video_info"), "transcript" := SocketHook.HandlerRef("transcript"),
        "candidates" := SocketHook.HandlerRef("candidates"), "verification" := SocketHook.HandlerRef("verification"),
        "conclusion" := SocketHook.HandlerRef("conclusion"), "error" := SocketHook.HandlerRef("error")]
  }

  /** The effect body: six `on` registrations. (The trailing
      `emit('request_analysis', {})` is left out: `useSocket` returns no
      `emit`.) */
  method RegisterHandlers(socket: SocketHook.Socket)
    modifies socket
    ensures socket.handlers == old(socket.handlers) + AppHandlers()
    ensures socket.readyState == old(socket.readyState) && socket.sent == old(socket.sent)
    ensures socket.closeCalled == old(socket.closeCalled)
  {
    ghost var h0 := socket.handlers;
    ghost var e: map<string, SocketHook.HandlerRef> := map[];
    MergeEmpty(h0);
    socket.On("video_info", SocketHook.HandlerRef("video_info"));
    MergeUpdate(h0, e, "video_info", SocketHook.HandlerRef("video_info"));
    e := e["video_info" := SocketHook.HandlerRef("video_info")];
    socket.On("transcript", SocketHook.HandlerRef("transcript"));
    MergeUpdate(h0, e, "transcript", SocketHook.HandlerRef("transcript"));
    e := e["transcript" := SocketHook.HandlerRef("transcript")];
    socket.On("candidates", SocketHook.HandlerRef("candidates"));
    MergeUpdate(h0, e, "candidates", SocketHook.HandlerRef("candidates"));
    e := e["candidates" := SocketHook.HandlerRef("candidates")];
    socket.On("verification", SocketHook.HandlerRef("verification"));
    MergeUpdate(h0, e, "verification", SocketHook.HandlerRef("verification"));
    e := e["verification" := SocketHook.HandlerRef("verification")];
    socket.On("conclusion", SocketHook.HandlerRef("conclusion"));
    MergeUpdate(h0, e, "conclusion", SocketHook.HandlerRef("conclusion"));
    e := e["conclusion" := SocketHook.HandlerRef("conclusion")];
    socket.On("error", SocketHook.HandlerRef("error"));
    MergeUpdate(h0, e, "error", SocketHook.HandlerRef("error"));
    e := e["error" := SocketHook.HandlerRef("error")];
    assert e == AppHandlers();
  }

  lemma MergeEmpty<K, V>(m: map<K, V>)
    ensures m + map[] == m
  {
  }

  /** Registering `k` after merging `a` is merging `a` updated at `k`. */
  lemma MergeUpdate<K, V>(m: map<K, V>, a: map<K, V>, k: K, v: V)
    ensures m + a[k := v] == (m + a)[k := v]
  {
  }

  /** The `video_info` callback. */
  method OnVideoInfo(store: WorkflowStore, data: JsValue)
    modifies store
    ensures store.Snapshot() == Handle(old(store.Snapshot()), "video_info", data)
  {
    ghost var s0 := store.Snapshot();
    store.UpdateVideoData(data);
    store.MoveToStep(Info);
    HandleVideoInfo(s0, data);
  }

  /** The `transcript` callback. */
  method OnTranscript(store: WorkflowStore, data: JsValue)
    modifies store
    ensures store.Snapshot() == Handle(old(store.Snapshot()), "transcript", data)
  {
    ghost var s0 := store.Snapshot();
    store.UpdateTranscript(data);
    store.MoveToStep(Extract);
    HandleTranscript(s0, data);
  }

  /** The `candidates` callback. */
  method OnCandidates(store: WorkflowStore, data: JsValue)
    modifies store
    ensures store.Snapshot() == Handle(old(store.Snapshot()), "candidates", data)
  {
    ghost var s0 := store.Snapshot();
    store.SetCandidates(Or(Get(data, "candidates"), JsArr([])));
    store.MoveToStep(Classify);
    HandleCandidates(s0, data);
  }

  /** The `verification` callback. */
  method OnVerification(store: WorkflowStore, data: JsValue)
    modifies store
    ensures store.Snapshot() == Handle(old(store.Snapshot()), "verification", data)
  {
    ghost var s0 := store.Snapshot();
    store.AddVerification(Get(data, "candidateId"), Get(data, "verification"));
    HandleVerification(s0, data);
  }

  /** The `conclusion` callback. */
  method OnConclusion(store: WorkflowStore, data: JsValue)
    modifies store
    ensures store.Snapshot() == Handle(old(store.Snapshot()), "conclusion", data)
  {
    ghost var s0 := store.Snapshot();
    store.SetConclusion(data);
    store.MoveToStep(Conclude);
    HandleConclusion(s0, data);
  }

  /** Run the callback registered as `name` on the shared store. */
  method RunHandler(store: WorkflowStore, name: string, data: JsValue)
    modifies store
    ensures store.Snapshot() == Handle(old(store.Snapshot()), name, data)
  {
    if name == "video_info" {
      OnVideoInfo(store, data);
    } else if name == "transcript" {
      OnTranscript(store, data);
    } else if name == "candidates" {
      OnCandidates(store, data);
    } else if name == "verification" {
      OnVerification(store, data);
    } else if name == "conclusion" {
      OnConclusion(store, data);
    } else {
      HandleIgnored(store.Snapshot(), name, data);
    }
  }

  /** One incoming frame, end to end: dispatched through the socket's table
      and, if it reaches one of the app's callbacks, applied to the store. */
  method ReceiveFrame(socket: SocketHook.Socket, store: WorkflowStore, parsed: Option<JsValue>)
    modifies store
    ensures var call := SocketHook.Dispatch(socket.handlers, parsed);
      if call.Some? && call.value.0.tag in EVENT_NAMES
      then store.Snapshot() == Handle(old(store.Snapshot()), call.value.0.tag, call.value.1)
      else store.Snapshot() == old(store.Snapshot())
  {
    var call := socket.OnMessage(parsed);
    if call.Some? && call.value.0.tag in EVENT_NAMES {
      RunHandler(store, call.value.0.tag, call.value.1);
    }
  }
}
