/** The content script on the front-end page (extension/content-script.js):
    it relays download notices from the extension to the page, and status
    requests from the page to the extension. Each decision is a function of
    one message. */
module ContentBridge {
  import opened Common
  import opened JsValues

  /** What the runtime listener does with one message: what it posts to the
      page (if anything) and what it answers. */
  datatype RuntimeOutcome = RuntimeOutcome(postToPage: Option<JsValue>, response: JsValue)

  const RECEIVED: JsValue := JsObj(map["received" := JsBool(true)])

  function OnRuntimeMessage(message: JsValue): (r: RuntimeOutcome)
    ensures r.response == RECEIVED
    ensures r.postToPage.Some? <==>
      Get(message, "type") == JsStr("DOWNLOAD_READY") || Get(message, "type") == JsStr("DOWNLOAD_ERROR")
    ensures r.postToPage.Some? ==> r.postToPage.value == message
  {
    var kind := Get(message, "type");
    if kind == JsStr("DOWNLOAD_READY") || kind == JsStr("DOWNLOAD_ERROR")
    then RuntimeOutcome(Some(message), RECEIVED)
    else RuntimeOutcome(None, RECEIVED)
  }

  /** The page listener: only messages the window posted to itself are
      considered, and only REQUEST_ANALYSIS_STATUS is passed on, wrapped as
      GET_ANALYSIS_STATUS around the original message. */
  function OnPageMessage(fromSelf: bool, data: JsValue): (r: Option<JsValue>)
    ensures r.Some? <==> fromSelf && Get(data, "type") == JsStr("REQUEST_ANALYSIS_STATUS")
    ensures r.Some? ==> Get(r.value, "type") == JsStr("GET_ANALYSIS_STATUS") && Get(r.value, "data") == data
  {
    if !fromSelf then None
    else if Get(data, "type") == JsStr("REQUEST_ANALYSIS_STATUS")
    then Some(JsObj(map["type" := JsStr("GET_ANALYSIS_STATUS"), "data" := data]))
    else None
  }

  /** The reply from the extension, posted back to the page. */
  function StatusResponse(response: JsValue): (r: JsValue)
    ensures Get(r, "type") == JsStr("ANALYSIS_STATUS_RESPONSE") && Get(r, "data") == response
  {
    JsObj(map["type" := JsStr("ANALYSIS_STATUS_RESPONSE"), "data" := response])
  }

  /** The bridge never echoes: what it forwards to the extension is never
      itself a request it would forward again, and a status response posted
      to the page is not forwarded either. */
  lemma NoRelayLoops(data: JsValue, response: JsValue)
    ensures OnPageMessage(true, data).Some? ==> OnPageMessage(true, OnPageMessage(true, data).value).None?
    ensures OnPageMessage(true, StatusResponse(response)).None?
    ensures OnRuntimeMessage(StatusResponse(response)).postToPage.None?
  {
  }
}
