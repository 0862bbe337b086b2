/** The WebSocket hook (front/src/hooks/useSocket.js): a table of handlers
    keyed by event name, a socket whose ready state gates sending and
    closing, and the dispatch of incoming frames. The socket itself and
    `JSON.parse` are abstract: a frame arrives already parsed, or as `None`
    when it does not parse. */
module SocketHook {
  import opened Common
  import opened JsValues

  /** A registered callback; only its identity matters here. */
  datatype HandlerRef = HandlerRef(tag: string)

  /** `WebSocket.readyState`. */
  datatype ReadyState = Connecting | Open | Closing | Closed

  /** The handler an incoming frame is routed to, with its argument, or
      `None`. A frame that does not parse (`None`) reaches nobody, and so
      does one without a truthy `step` or whose step has no handler. The
      argument is `message.data` when truthy, otherwise the whole message. */
  function Dispatch(handlers: map<string, HandlerRef>, parsed: Option<JsValue>): (r: Option<(HandlerRef, JsValue)>)
    ensures r.Some? <==>
      parsed.Some? && Truthy(Get(parsed.value, "step")) && ToKey(Get(parsed.value, "step")) in handlers
    ensures r.Some? ==>
      r.value.0 == handlers[ToKey(Get(parsed.value, "step"))]
      && (Truthy(Get(parsed.value, "data")) ==> r.value.1 == Get(parsed.value, "data"))
      && (!Truthy(Get(parsed.value, "data")) ==> r.value.1 == parsed.value)
  {
    match parsed
    case None => None
    case Some(message) =>
      var step := Get(message, "step");
      if Truthy(step) && ToKey(step) in handlers then
        Some((handlers[ToKey(step)], Or(Get(message, "data"), message)))
      else None
  }

  /** The lifecycle callbacks (`connect`, `disconnect`, `error`) fire only
      when registered. */
  function LifecycleHandler(handlers: map<string, HandlerRef>, name: string): (r: Option<HandlerRef>)
    ensures r.Some? <==> name in handlers
    ensures r.Some? ==> r.value == handlers[name]
  {
    if name in handlers then Some(handlers[name]) else None
  }

  /** A frame `{step: name, data: d}` with a truthy `d` reaches the handler
      most recently registered for `name`, and reaches nothing once `name`
      has been removed. */
  lemma RoutingAfterOnAndOff(handlers: map<string, HandlerRef>, name: string, h: HandlerRef, d: JsValue)
    requires name != "" && Truthy(d)
    ensures var frame := Some(JsObj(map["step" := JsStr(name), "data" := d]));
      Dispatch(handlers[name := h], frame) == Some((h, d))
      && Dispatch(handlers - {name}, frame) == None
  {
    var frame := JsObj(map["step" := JsStr(name), "data" := d]);
    assert Get(frame, "step") == JsStr(name) && Get(frame, "data") == d;
  }

  class Socket {
    var handlers: map<string, HandlerRef>
    var readyState: ReadyState
    /** Frames handed to `ws.send`, in order (before stringification). */
    var sent: seq<JsValue>
    var closeCalled: bool

    /** The effect body: a fresh socket, no frames yet. Handlers registered
        before the effect ran survive, since the table is a ref. */
    constructor(registered: map<string, HandlerRef>)
      ensures handlers == registered && readyState == Connecting && sent == [] && !closeCalled
    {
      handlers := registered;
      readyState := Connecting;
      sent := [];
      closeCalled := false;
    }

    /** `on(event, handler)`: register, replacing any earlier handler. */
    method On(name: string, h: HandlerRef)
      modifies this
      ensures handlers == old(handlers)[name := h]
      ensures readyState == old(readyState) && sent == old(sent) && closeCalled == old(closeCalled)
    {
      handlers := handlers[name := h];
    }

    /** `off(event)`: remove that name only; nothing happens if absent. */
    method Off(name: string)
      modifies this
      ensures handlers == old(handlers) - {name}
      ensures name !in old(handlers) ==> handlers == old(handlers)
      ensures readyState == old(readyState) && sent == old(sent) && closeCalled == old(closeCalled)
    {
      if name in handlers {
        handlers := handlers - {name};
      }
    }

    /** `send(data)`: transmitted only while the socket is open. */
    method Send(data: JsValue)
      modifies this
      ensures old(readyState) == Open ==> sent == old(sent) + [data]
      ensures old(readyState) != Open ==> sent == old(sent)
      ensures handlers == old(handlers) && readyState == old(readyState) && closeCalled == old(closeCalled)
    {
      if readyState == Open {
        sent := sent + [data];
      }
    }

    /** The effect's cleanup: close only an open socket. */
    method Cleanup()
      modifies this
      ensures old(readyState) == Open ==> closeCalled && readyState == Closing
      ensures old(readyState) != Open ==> closeCalled == old(closeCalled) && readyState == old(readyState)
      ensures handlers == old(handlers) && sent == old(sent)
    {
      if readyState == Open {
        closeCalled := true;
        readyState := Closing;
      }
    }

    /** The socket events that move the ready state; each reports the
        lifecycle handler it calls, if any. */
    method OnOpen() returns (called: Option<HandlerRef>)
      modifies this
      ensures readyState == Open
      ensures called == LifecycleHandler(handlers, "connect")
      ensures handlers == old(handlers) && sent == old(sent) && closeCalled == old(closeCalled)
    {
      readyState := Open;
      called := LifecycleHandler(handlers, "connect");
    }

    method OnClose() returns (called: Option<HandlerRef>)
      modifies this
      ensures readyState == Closed
      ensures called == LifecycleHandler(handlers, "disconnect")
      ensures handlers == old(handlers) && sent == old(sent) && closeCalled == old(closeCalled)
    {
      readyState := Closed;
      called := LifecycleHandler(handlers, "disconnect");
    }

    /** `onerror`: the state is left to the close event that follows. */
    method OnError() returns (called: Option<HandlerRef>)
      ensures called == LifecycleHandler(handlers, "error")
    {
      called := LifecycleHandler(handlers, "error");
    }

    /** `onmessage`: route one parsed frame; a parse failure is caught. */
    method OnMessage(parsed: Option<JsValue>) returns (call: Option<(HandlerRef, JsValue)>)
      ensures call == Dispatch(handlers, parsed)
      ensures parsed.None? ==> call.None?
    {
      call := Dispatch(handlers, parsed);
    }
  }
}
