/** The `UIManager` of the test extension (testExtension/youtube/ui-manager.js):
    the "open original" link, the analyze button and the status line it
    adds to a Shorts page, and how the analysis status changes them. The
    DOM queries are inputs: whether the container was found, and whether a
    `#redirect-btn` is already in the document. */
module UiManager {
  import opened Common
  import opened ShortsUrl

  /** The analyze button's visible state: `innerText`, `disabled` and
      `style.background`. */
  datatype Button = Button(text: string, disabled: bool, background: string)

  /** The status line: whether it is displayed, and its text. */
  datatype StatusLine = StatusLine(shown: bool, text: string)

  datatype UiState = UiState(
    hasContainer: bool,
    redirectHref: Option<string>,
    analyze: Option<Button>,
    status: Option<StatusLine>)

  const INITIAL_UI := UiState(false, None, None, None)

  const START_TEXT := "분석 시작"
  const ANALYZING_TEXT := "분석 중..."
  const FAILED_TEXT := "분석 실패"
  const ANALYZING_STATUS := "분석 중... (백그라운드에서 진행)"
  const FAILED_STATUS := "분석 중 오류가 발생했습니다."
  const ALREADY_RUNNING_ALERT := "이미 분석이 진행 중입니다."
  const GREEN := "rgba(0, 200, 100, 0.8)"
  const GREY := "rgba(150, 150, 150, 0.8)"
  const RED := "rgba(255, 0, 0, 0.8)"

  /** The button as `createAnalyzeButton` makes it. */
  const FRESH_BUTTON := Button(START_TEXT, false, GREEN)

  /** The status line as `createStatusDisplay` makes it: hidden and empty. */
  const FRESH_STATUS := StatusLine(false, "")

  /** `showStatus(message)`: only when the status line exists. */
  function ShowStatus(s: UiState, message: string): (t: UiState)
    ensures s.status.None? ==> t == s
    ensures s.status.Some? ==> t == s.(status := Some(StatusLine(true, message)))
  {
    if s.status.None? then s else s.(status := Some(StatusLine(true, message)))
  }

  /** `hideStatus()`: hides the line and keeps its text. */
  function HideStatus(s: UiState): (t: UiState)
    ensures s.status.None? ==> t == s
    ensures s.status.Some? ==> t == s.(status := Some(s.status.value.(shown := false)))
  {
    if s.status.None? then s else s.(status := Some(s.status.value.(shown := false)))
  }

  /** `updateButtonLinks()`: the link follows the page address. */
  function UpdateLinks(s: UiState, href: string): UiState
  {
    if s.redirectHref.None? then s else s.(redirectHref := Some(WatchUrl(href)))
  }

  /** `initializeUI()` and its result. */
  function Initialize(s: UiState, containerFound: bool, redirectInDocument: bool, href: string): (UiState, bool)
  {
    if !containerFound then (s, false)
    else if redirectInDocument then (UpdateLinks(s.(hasContainer := true), href), true)
    else (UiState(true, Some(WatchUrl(href)), Some(FRESH_BUTTON), Some(FRESH_STATUS)), true)
  }

  /** `updateAnalysisStatus(status)`; the flag says whether the 2-second
      reset was scheduled. */
  function UpdateStatus(s: UiState, status: string): (UiState, bool)
  {
    if s.analyze.None? then (s, false)
    else if status == "analyzing" then
      (ShowStatus(s.(analyze := Some(Button(ANALYZING_TEXT, true, GREY))), ANALYZING_STATUS), false)
    else if status == "error" then
      (ShowStatus(s.(analyze := Some(s.analyze.value.(text := FAILED_TEXT, background := RED))), FAILED_STATUS), true)
    else (s, false)
  }

  /** `resetAnalyzeButton()`. */
  function Reset(s: UiState): UiState
  {
    HideStatus(if s.analyze.None? then s else s.(analyze := Some(FRESH_BUTTON)))
  }

  /** `initializeUI` creates nothing without a container, only refreshes the
      link when the controls are already in the page, and otherwise creates
      the link, a fresh button and a hidden status line. */
  lemma InitializeRules(s: UiState, containerFound: bool, redirectInDocument: bool, href: string)
    ensures !containerFound ==> Initialize(s, containerFound, redirectInDocument, href) == (s, false)
    ensures containerFound ==> Initialize(s, containerFound, redirectInDocument, href).1
    ensures containerFound && redirectInDocument ==>
      var t := Initialize(s, containerFound, redirectInDocument, href).0;
      t.analyze == s.analyze && t.status == s.status && t.hasContainer
      && (s.redirectHref.Some? ==> t.redirectHref == Some(WatchUrl(href)))
      && (s.redirectHref.None? ==> t.redirectHref.None?)
    ensures containerFound && !redirectInDocument ==>
      Initialize(s, containerFound, redirectInDocument, href).0
        == UiState(true, Some(WatchUrl(href)), Some(FRESH_BUTTON), Some(FRESH_STATUS))
  {
  }

  /** Once the controls exist (and so `#redirect-btn` is in the page), a
      second initialisation creates nothing new: the button and status line
      survive as they are. */
  lemma InitializeOnce(s: UiState, href1: string, href2: string)
    ensures var t := Initialize(s, true, false, href1).0;
      var u := Initialize(t, true, true, href2).0;
      u.analyze == t.analyze && u.status == t.status && u.redirectHref == Some(WatchUrl(href2))
  {
  }

  /** The status rules: 'analyzing' greys and disables the button and shows
      the progress line; 'error' shows the failure text in red, leaves
      `disabled` alone and schedules a reset; any other status, or no
      button, changes nothing. */
  lemma UpdateStatusRules(s: UiState, status: string)
    ensures s.analyze.None? || (status != "analyzing" && status != "error") ==> UpdateStatus(s, status) == (s, false)
    ensures s.analyze.Some? && status == "analyzing" ==>
      var t := UpdateStatus(s, status).0;
      t.analyze == Some(Button(ANALYZING_TEXT, true, GREY))
      && (s.status.Some? ==> t.status == Some(StatusLine(true, ANALYZING_STATUS)))
      && t.redirectHref == s.redirectHref && !UpdateStatus(s, status).1
    ensures s.analyze.Some? && status == "error" ==>
      var t := UpdateStatus(s, status).0;
      t.analyze.Some? && t.analyze.value.text == FAILED_TEXT && t.analyze.value.background == RED
      && t.analyze.value.disabled == s.analyze.value.disabled
      && (s.status.Some? ==> t.status == Some(StatusLine(true, FAILED_STATUS)))
      && t.redirectHref == s.redirectHref && UpdateStatus(s, status).1
  {
  }

  /** Reset puts the button back as it was created and hides the status
      line, whatever status was shown before: a failure followed by its
      scheduled reset leaves the button as good as new. */
  lemma ResetRestoresButton(s: UiState, status: string)
    ensures s.analyze.Some? ==> Reset(s).analyze == Some(FRESH_BUTTON)
    ensures s.status.Some? ==> Reset(s).status.Some? && !Reset(s).status.value.shown
    ensures Reset(UpdateStatus(s, status).0).analyze == Reset(s).analyze
    ensures Reset(s).redirectHref == s.redirectHref
  {
  }

  class UIManager {
    var hasContainer: bool
    var redirectHref: Option<string>
    var analyze: Option<Button>
    var status: Option<StatusLine>

    function State(): UiState
      reads this
    {
      UiState(hasContainer, redirectHref, analyze, status)
    }

    constructor()
      ensures State() == INITIAL_UI
    {
      hasContainer, redirectHref, analyze, status := false, None, None, None;
    }

    method InitializeUI(containerFound: bool, redirectInDocument: bool, href: string) returns (ok: bool)
      modifies this
      ensures (State(), ok) == Initialize(old(State()), containerFound, redirectInDocument, href)
    {
      if !containerFound {
        return false;
      }
      hasContainer := true;
      if redirectInDocument {
        UpdateButtonLinks(href);
        return true;
      }
      redirectHref := Some(WatchUrl(href));
      analyze := Some(FRESH_BUTTON);
      status := Some(FRESH_STATUS);
      ok := true;
    }

    method UpdateButtonLinks(href: string)
      modifies this
      ensures State() == UpdateLinks(old(State()), href)
    {
      if redirectHref.Some? {
        redirectHref := Some(WatchUrl(href));
      }
    }

    method ShowStatusLine(message: string)
      modifies this
      ensures State() == ShowStatus(old(State()), message)
    {
      if status.Some? {
        status := Some(StatusLine(true, message));
      }
    }

    method HideStatusLine()
      modifies this
      ensures State() == HideStatus(old(State()))
    {
      if status.Some? {
        status := Some(status.value.(shown := false));
      }
    }

    /** `updateAnalysisStatus(status)`; returns whether the 2-second reset
        was scheduled. */
    method UpdateAnalysisStatus(newStatus: string) returns (resetScheduled: bool)
      modifies this
      ensures (State(), resetScheduled) == UpdateStatus(old(State()), newStatus)
    {
      resetScheduled := false;
      if analyze.None? {
        return;
      }
      if newStatus == "analyzing" {
        analyze := Some(Button(ANALYZING_TEXT, true, GREY));
        ShowStatusLine(ANALYZING_STATUS);
      } else if newStatus == "error" {
        analyze := Some(analyze.value.(text := FAILED_TEXT, background := RED));
        ShowStatusLine(FAILED_STATUS);
        resetScheduled := true;
      }
    }

    method ResetAnalyzeButton()
      modifies this
      ensures State() == Reset(old(State()))
    {
      if analyze.Some? {
        analyze := Some(FRESH_BUTTON);
      }
      HideStatusLine();
    }

    /** `handleAnalyzeClick()` up to its `await`: while an analysis runs it
        only alerts; otherwise it asks the manager to start one. Nothing on
        the page changes yet. */
    method HandleAnalyzeClick(isAnalyzing: bool) returns (startRequested: bool, alert: Option<string>)
      ensures startRequested <==> !isAnalyzing
      ensures alert.Some? <==> isAnalyzing
      ensures alert.Some? ==> alert.value == ALREADY_RUNNING_ALERT
    {
      if isAnalyzing {
        return false, Some(ALREADY_RUNNING_ALERT);
      }
      return true, None;
    }

    /** The end of `handleAnalyzeClick`: a failed start shows 'error'. */
    method AfterStartResult(success: bool) returns (resetScheduled: bool)
      modifies this
      ensures success ==> State() == old(State()) && !resetScheduled
      ensures !success ==> (State(), resetScheduled) == UpdateStatus(old(State()), "error")
    {
      resetScheduled := false;
      if !success {
        resetScheduled := UpdateAnalysisStatus("error");
      }
    }
  }
}
