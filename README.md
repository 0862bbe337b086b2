# Hack-Truman, modelled in Dafny

Hack-Truman checks the claims made in a YouTube video. A browser extension puts an
"analyse" button on YouTube pages and opens an analysis page. A React front end
follows the server's analysis through six stages (loading, video info, extraction,
classification, verification, conclusion) shown in a layout with a progress header.
A Python server asks a panel of language models whether a claim is true and builds
an argument graph that maps claims to evidence.

This project models the core of that system and proves what its code promises.

- **Extension relay** (`relay.dfy`, `content_bridge.dfy`, `detector.dfy`). The
  background page passes a completed analysis from the analysis site to the YouTube
  tabs, tracks the pending analyses and sweeps out those older than ten minutes. The
  content script bridges page messages and runtime messages. The analysis-site
  detector decides when a page counts as complete.
- **Front-end store and wiring** (`workflow.dfy`, `app_wiring.dfy`, `socket_hook.dfy`,
  `js_values.dfy`). These model the workflow context's state and setters, the socket
  events that `App.jsx` registers, and the `useSocket` hook's handler table. JavaScript
  values are modelled with their truthiness, `||`, property access and object spread.
- **Views** (`layout.dfy`, `trust_score.dfy`, `candidate_view.dfy`, `conclude_view.dfy`,
  `extract_view.dfy`). These cover the main content's stage flags and sticky
  buttons, the header's progress bar, the trust-score bands and the coercion of a score to a number, the candidate cards'
  colours, verification lookup and expanded-card modal, the conclusion gauge's angle
  and colours, and the extraction view's sentence split.
- **Content-script managers** (`shorts_url.dfy`, `analysis_session.dfy`,
  `extension_analysis_manager.dfy`, `test_analysis_manager.dfy`, `ui_manager.dfy`,
  `message_handler.dfy`). The analysis managers of both extension copies, with their
  video-id extraction, analysis URL, timeout and history. Also the test extension's UI
  manager, its button states, and the message handler's completion box.
- **Server** (`ask.dfy`, `graph_service.dfy`, `claim_evidence.dfy`).
  - The `/ask` endpoint's JSON extraction, verdict normalisation, provider calls with
    their fallbacks, and voting.
  - The argument-graph builder.
  - The conversion of that graph into a claim/evidence report.

Browser APIs, the network, clocks and timers are not modelled as machinery. The model
takes their replies, the current time and timer firings as inputs or events. Each
stateful JavaScript class is a Dafny `class` whose methods are proved against a
function of its state; the pure logic is functions and lemmas. `common.dfy` holds
the `Option`/`Result` types and the string helpers shared by the modules.

## Model

| member | source | states |
|---|---|---|
| Relay.Swept | extension/background.js:90-98 | the sweep at `now` keeps exactly the entries with `now - startTime <= 600000`, each unchanged |
| Relay.SweptEntriesAreFresh | extension/background.js:93 | after a sweep no remaining entry is older than 600000 ms |
| Relay.SweepIdempotentAndMonotone | extension/background.js:90-98 | a second sweep at the same time removes nothing more; a later sweep keeps a subset of the URLs |
| Relay.SweepExample | extension/background.js:93-95 | an entry started 700 s ago is dropped and one started 100 s ago kept |
| Relay.Delivered | extension/background.js:50-62 | no more tabs receive the notice than were queried |
| Relay.DeliveredExactly | extension/background.js:50-62 | a tab receives the notice exactly when it was in the query result and its send did not fail: a failed send does not stop the others |
| Relay.FanOutExample | extension/background.js:50-62 | of three tabs whose second send fails, the first and third still receive the notice |
| Relay.Broadcast | extension/background.js:49-62 | one send is attempted per queried tab, in order, and the delivered tabs are those whose send succeeded |
| Relay.FocusReply | extension/background.js:73-82 | the reply is `success: true` exactly when the tab exists, and only then is its window focused |
| Relay.AnalysisRelay.constructor | extension/background.js:3 | the queue starts empty |
| Relay.AnalysisRelay.OnStartAnalysis | extension/background.js:8-24 | the entry for the URL is inserted or overwritten with the video id, URL, `startTime = now` and the sender's tab, other entries kept; an inactive tab is opened on the analysis URL |
| Relay.AnalysisRelay.OnTabCreated | extension/background.js:25-38 | the created tab id is stored only when the URL's entry still exists, no other entry changes, and the reply is always `success: true` with the tab id |
| Relay.AnalysisRelay.OnAnalysisDone | extension/background.js:42-70 | a known URL: deletes exactly that entry, replies success and broadcasts `{videoUrl, resultUrl, timestamp, analysisTabId}`; an unknown URL: nothing changes and the reply is `success: false` with no broadcast |
| Relay.AnalysisRelay.OnMessage | extension/background.js:5-88 | one branch per message type; FOCUS_ANALYSIS_TAB and unrecognised types leave the queue unchanged |
| Relay.AnalysisRelay.Sweep | extension/background.js:90-98 | the loop over the entries leaves exactly `Swept(old queue, now)` |
| Workflow.Merge | front/src/context/WorkflowContext.jsx:39-45 | a shallow merge: the keys are the old keys plus the patch's own properties, the patch's values win and every other key keeps its value |
| Workflow.MergeIdempotent | front/src/context/WorkflowContext.jsx:39-45 | merging the same patch twice equals merging it once, and a `null` or `undefined` patch changes nothing |
| Workflow.MergeTwice | front/src/context/WorkflowContext.jsx:58-64 | two merges in a row equal one merge of the combined patch |
| Workflow.InsertVerification | front/src/context/WorkflowContext.jsx:47-52 | exactly the key the id turns into is set to the verification; every other key keeps its value |
| Workflow.InsertVerificationIdempotent | front/src/context/WorkflowContext.jsx:47-52 | adding the same verification twice equals adding it once |
| Workflow.InsertVerificationLastWins | front/src/context/WorkflowContext.jsx:47-52 | a later verification for the same id replaces the earlier one |
| Workflow.InsertVerificationCommutes | front/src/context/WorkflowContext.jsx:47-52 | verifications for ids with different property keys commute |
| Workflow.ApplyOpFrame | front/src/context/WorkflowContext.jsx:39-64 | every setter leaves every field other than its own unchanged |
| Workflow.SettersReplace | front/src/context/WorkflowContext.jsx:17 | `moveToStep` takes any stage with no ordering check, and `setCandidates` and `setConclusion` replace their field rather than merging (lines 31-35, 54-56, 74, 82) |
| Workflow.UseWorkflow | front/src/context/WorkflowContext.jsx:96-101 | outside the provider the hook fails with its error message; inside it returns the context |
| Workflow.WorkflowStore.constructor | front/src/context/WorkflowContext.jsx:7-37 | the initial state: stage LOADING, empty video data, transcript, candidates, graph and verifications, a zero summary and conclusion |
| Workflow.WorkflowStore.MoveToStep | front/src/context/WorkflowContext.jsx:54-56 | only the stage changes, to the given one |
| Workflow.WorkflowStore.UpdateVideoData | front/src/context/WorkflowContext.jsx:39-41 | only the video data changes, by a shallow merge |
| Workflow.WorkflowStore.UpdateTranscript | front/src/context/WorkflowContext.jsx:43-45 | only the transcript changes, by a shallow merge |
| Workflow.WorkflowStore.SetCandidates | front/src/context/WorkflowContext.jsx:17 | only the candidates change, replaced |
| Workflow.WorkflowStore.UpdateArgumentGraph | front/src/context/WorkflowContext.jsx:58-60 | only the argument graph changes, by a shallow merge |
| Workflow.WorkflowStore.UpdateExtractSummary | front/src/context/WorkflowContext.jsx:62-64 | only the extract summary changes, by a shallow merge |
| Workflow.WorkflowStore.AddVerification | front/src/context/WorkflowContext.jsx:47-52 | only the verification map changes, by inserting one key |
| Workflow.WorkflowStore.SetConclusion | front/src/context/WorkflowContext.jsx:31-35 | only the conclusion changes, replaced |
| Workflow.WorkflowStore.SetSelectedCandidate | front/src/context/WorkflowContext.jsx:36 | only the selected candidate changes |
| Workflow.WorkflowStore.SetIsShowingConclusion | front/src/context/WorkflowContext.jsx:37 | only the conclusion flag changes |
| AppWiring.HandleVideoInfo | front/src/App.jsx:18-22 | `video_info` merges the data into the video data and moves to INFO, nothing else |
| AppWiring.HandleTranscript | front/src/App.jsx:24-28 | `transcript` merges the data into the transcript and moves to EXTRACT, nothing else |
| AppWiring.HandleCandidates | front/src/App.jsx:30-34 | `candidates` sets the candidates to `data.candidates` when truthy and to `[]` otherwise, and moves to CLASSIFY |
| AppWiring.HandleVerification | front/src/App.jsx:36-39 | `verification` inserts `data.verification` under `data.candidateId` and leaves the stage and every other field unchanged |
| AppWiring.HandleConclusion | front/src/App.jsx:41-45 | `conclusion` replaces the conclusion with the data and moves to CONCLUDE |
| AppWiring.HandleIgnored | front/src/App.jsx:47-49 | `error`, and any event without a listener, leaves the store unchanged |
| AppWiring.HandleStep | front/src/App.jsx:18-45 | a handler moves to the event's own stage when it has one and otherwise keeps the stage |
| AppWiring.ReplayStep | front/src/App.jsx:18-45 | after any sequence of events the stage is that of the last stage-changing event, or the starting one if there was none |
| AppWiring.NeverVerify | front/src/App.jsx:18-45 | from the initial store no sequence of events ever reaches VERIFY |
| AppWiring.LastStageNotVerify | front/src/App.jsx:18-45 | no event names VERIFY as its stage, so the last stage of a sequence is VERIFY only if the start was |
| AppWiring.AppHandlers | front/src/App.jsx:18-49 | the handler table has exactly the six event names, each bound to its own callback |
| AppWiring.RegisterHandlers | front/src/App.jsx:16-50 | the six `on` calls add exactly that table to the socket's handlers, overriding earlier ones of the same names, and send nothing |
| AppWiring.OnVideoInfo | front/src/App.jsx:18-22 | the callback's two setter calls leave the store as `Handle` says for `video_info` |
| AppWiring.OnTranscript | front/src/App.jsx:24-28 | the callback's two setter calls leave the store as `Handle` says for `transcript` |
| AppWiring.OnCandidates | front/src/App.jsx:30-34 | the callback's two setter calls leave the store as `Handle` says for `candidates` |
| AppWiring.OnVerification | front/src/App.jsx:36-39 | the callback's setter call leaves the store as `Handle` says for `verification` |
| AppWiring.OnConclusion | front/src/App.jsx:41-45 | the callback's two setter calls leave the store as `Handle` says for `conclusion` |
| AppWiring.RunHandler | front/src/App.jsx:18-49 | running the callback registered under a name changes the store as `Handle` says |
| AppWiring.ReceiveFrame | front/src/App.jsx:18-49 | a frame the socket routes to one of the app's callbacks changes the store as that event's handler says; any other frame changes nothing |
| SocketHook.Dispatch | front/src/hooks/useSocket.js:36-45 | a frame reaches a handler exactly when it parses, has a truthy `step` and a handler is registered under it; the argument is `message.data` when truthy and the whole message otherwise; an unparsable frame reaches nobody |
| SocketHook.LifecycleHandler | front/src/hooks/useSocket.js:15-34 | `connect`, `disconnect` and `error` callbacks fire only when registered, and then it is the registered one |
| SocketHook.RoutingAfterOnAndOff | front/src/hooks/useSocket.js:36-62 | a frame for `name` reaches the handler registered last under that name, and nothing once the name has been removed |
| SocketHook.Socket.constructor | front/src/hooks/useSocket.js:8-13 | a new socket is connecting, has sent nothing, and keeps the handlers already in the table |
| SocketHook.Socket.On | front/src/hooks/useSocket.js:54-56 | registers the handler, replacing any earlier one for the name, and changes nothing else |
| SocketHook.Socket.Off | front/src/hooks/useSocket.js:58-62 | removes only that name's handler, and does nothing when none is registered |
| SocketHook.Socket.Send | front/src/hooks/useSocket.js:64-70 | the frame is transmitted exactly when the socket is open; otherwise nothing is sent |
| SocketHook.Socket.Cleanup | front/src/hooks/useSocket.js:47-51 | the socket is closed only if it is open |
| SocketHook.Socket.OnOpen | front/src/hooks/useSocket.js:15-20 | the socket becomes open and the `connect` handler is called if registered |
| SocketHook.Socket.OnClose | front/src/hooks/useSocket.js:22-27 | the socket becomes closed and the `disconnect` handler is called if registered |
| SocketHook.Socket.OnError | front/src/hooks/useSocket.js:29-34 | the `error` handler is called if registered |
| SocketHook.Socket.OnMessage | front/src/hooks/useSocket.js:36-45 | the frame is routed as `Dispatch` says, and an unparsable frame invokes no handler |
| JsValues.Or | front/src/App.jsx:32 | `a || b` is the left operand when it is truthy and the right one otherwise |
| JsValues.Spread | front/src/context/WorkflowContext.jsx:40 | `{...v}` copies an object's fields; for an array or a string exactly the keys "0" … "n-1", each holding its element or one-character string; nothing from the other primitives |
| Layout.Flags | front/src/components/layout/MainContent.jsx:151-155 | each view flag holds exactly at its stage(s): loading, info and extract at their own stage, the classification list at CLASSIFY, VERIFY or CONCLUDE, the conclusion at CONCLUDE |
| Layout.ExactlyOneMainView | front/src/components/layout/MainContent.jsx:151-155 | for every stage exactly one of the four main views is on, and the conclusion is only shown with the classification list |
| Layout.IsInConcludePhase | front/src/components/layout/MainContent.jsx:245 | `CandidateAnalysisView` is told it is in the conclude phase exactly at CONCLUDE |
| Layout.MainContentState.constructor | front/src/components/layout/MainContent.jsx:146-148 | the icon and both buttons start hidden |
| Layout.MainContentState.AfterRender | front/src/components/layout/MainContent.jsx:158-179 | the extract icon and the transcript button are shown exactly at CLASSIFY, VERIFY or CONCLUDE; the share button is on after a render at CONCLUDE and stays on if it was |
| Layout.ShareLatches | front/src/components/layout/MainContent.jsx:175-179 | after a run of renders the share button is on exactly when it was already or some render was at CONCLUDE: it is never reset |
| Layout.IndexOf | front/src/components/layout/Header.jsx:181 | `indexOf` gives the first index holding the stage, and -1 exactly when it is absent |
| Layout.ProgressBar | front/src/components/layout/Header.jsx:226-239 | one dot per stage of the order: active when it is the current stage, completed when its index is below the current index, with a line unless it is the last |
| Layout.ProgressBarShape | front/src/components/layout/Header.jsx:181-235 | the active dot is never completed, completed dots form a prefix, nothing is completed when the stage is not in the order, every dot but the last has a line, and a duplicate-free order has at most one active dot |
| Layout.BarForDeclaredOrder | front/src/components/layout/Header.jsx:226-228 | with the six-stage order, exactly the stages before the current one are completed and only the current one is active |
| TrustScore.ToNumber | front/src/utils/trustScoreColor.js:9 | the coercion `>=` applies: a number is itself, `null` is 0, a boolean is 1 or 0, a string is read as a decimal literal after trimming white space (blank is 0), an array through the string it prints as, and `undefined` and objects compare as NaN |
| TrustScore.StringToNumber | front/src/utils/trustScoreColor.js:9 | a string that is blank after trimming white space compares as 0 |
| TrustScore.NumericStringRoundTrip | front/src/utils/trustScoreColor.js:9 | the string a whole number prints as compares as that number |
| TrustScore.ArrayCoercion | front/src/utils/trustScoreColor.js:9 | a one-element array of a number compares as that number, and the empty array as 0 |
| TrustScore.WordScoreIsNaN | front/src/utils/trustScoreColor.js:8-12 | a string whose first non-blank character cannot start a number compares as NaN and gets the low colour |
| TrustScore.CoercedScoresBand | front/src/utils/trustScoreColor.js:8-12 | "80" and `[80]` get the high colour, as 80 does |
| TrustScore.ScoreOrZero | front/src/components/views/ConcludeView.jsx:280 | `score || 0` counts a missing or falsy score as zero and coerces any other |
| TrustScore.TrustScoreColor | front/src/utils/trustScoreColor.js:8-12 | high exactly from 70, medium exactly from 40 below 70, low exactly below 40 (and for NaN) |
| TrustScore.TrustScoreLabel | front/src/utils/trustScoreColor.js:19-25 | one of the five labels, chosen exactly by the bands at 80, 60, 40 and 20, with "Unreliable" below 20 |
| TrustScore.TrustScoreDescription | front/src/utils/trustScoreColor.js:32-40 | the three descriptions follow exactly the colour bands at 70 and 40 |
| TrustScore.BandsMonotone | front/src/utils/trustScoreColor.js:8-40 | raising the score never moves the colour, the label or the description to a worse band |
| TrustScore.MissingScoreIsLowest | front/src/utils/trustScoreColor.js:8-40 | an `undefined` score lands in the lowest band of all three functions, the same as 0 |
| CandidateView.IsVerifyPhase | front/src/components/views/CandidateAnalysisView.jsx:276 | scores are shown exactly at VERIFY or when the parent says the conclusion is showing |
| CandidateView.CardColorRules | front/src/components/views/CandidateAnalysisView.jsx:223-269 | outside the verify phase every card is glass; inside it a claim is always grey, and any other card is banded exactly at 75, 50 and 25, a missing score counting as 0 (red) |
| CandidateView.VerificationFor | front/src/components/views/CandidateAnalysisView.jsx:293 | a card shows the verification stored under its key when truthy, and `{}` otherwise |
| CandidateView.VerificationRoundTrip | front/src/components/views/CandidateAnalysisView.jsx:293 | a verification stored by `addVerification` under a candidate's key is the one its card shows, and a candidate with a falsy id is keyed by its text |
| CandidateView.TrustBarShown | front/src/components/views/CandidateAnalysisView.jsx:328 | the trust bar is drawn exactly when the verification has a defined `trustScore`, zero included |
| CandidateView.FillBand | front/src/components/views/CandidateAnalysisView.jsx:117-125 | the fill colour is the 70/40 trust colour band of `score || 0` |
| CandidateView.FindExpandedFrom | front/src/components/views/CandidateAnalysisView.jsx:395-397 | the search stops at the first candidate from `from` whose key is the expanded id, or -1 when there is none |
| CandidateView.FindExpanded | front/src/components/views/CandidateAnalysisView.jsx:395-400 | the modal's candidate is absent exactly when no key matches; otherwise it is a listed candidate with that key |
| CandidateView.CandidateAnalysis.constructor | front/src/components/views/CandidateAnalysisView.jsx:273 | no card is expanded at first |
| CandidateView.CandidateAnalysis.OnCardClick | front/src/components/views/CandidateAnalysisView.jsx:279-283 | a click expands the card, by its id or else its text, only in the verify phase |
| CandidateView.CandidateAnalysis.OnClose | front/src/components/views/CandidateAnalysisView.jsx:285-287 | closing clears the expanded id |
| CandidateView.CandidateAnalysis.ModalShown | front/src/components/views/CandidateAnalysisView.jsx:379 | the modal is open exactly in the verify phase while a truthy id is expanded |
| CandidateView.ModalMatchesCard | front/src/components/views/CandidateAnalysisView.jsx:395-398 | the modal's verification, looked up by the expanded id, is the one the found candidate's card showed |
| ConcludeView.GaugeRotationLaws | front/src/components/views/ConcludeView.jsx:116 | the needle angle is -90 at 0, 0 at 50 and 90 at 100, strictly increasing in the score, and within ±90 for scores in [0, 100] |
| ConcludeView.GaugeScore | front/src/components/views/ConcludeView.jsx:280 | the gauge gets the conclusion's `trustScore`, or 0 when it is falsy |
| ConcludeView.NeedleAndNumberAgree | front/src/components/views/ConcludeView.jsx:64-69 | the needle colour (lines 194-200) and the number colour agree for every conclusion, band exactly at 75 and 50, and differ from the shared 70/40 helper (72 is medium here, high there) |
| ConcludeView.Description | front/src/components/views/ConcludeView.jsx:321 | the description is the shared helper's for the raw `trustScore`, so a missing score reads as the inaccurate description |
| ExtractView.SplitSentences | front/src/components/views/ExtractView.jsx:73 | `split` returns one more piece than it removed separators |
| ExtractView.SplitRejoins | front/src/components/views/ExtractView.jsx:73 | putting the removed whitespace runs back between the chunks, in order, restores the text |
| ExtractView.SplitCutsAtSentenceEnds | front/src/components/views/ExtractView.jsx:73 | the text is cut only at non-empty whitespace runs right after '.', '!' or '?': every chunk but the last ends with one of them, and no chunk after a cut starts with whitespace |
| ExtractView.SplitIsComplete | front/src/components/views/ExtractView.jsx:73 | no chunk still contains a place where the regex would cut |
| ExtractView.TrailingSeparatorExample | front/src/components/views/ExtractView.jsx:73 | a trailing separator leaves an empty last chunk: "Hi. " gives "Hi." and "" |
| ExtractView.TranscriptChunks | front/src/components/views/ExtractView.jsx:72-74 | an empty or absent text gives no chunks, a non-empty string is split, and a truthy non-string text has no `split` and fails |
| ExtractView.PlaceholderIffNoText | front/src/components/views/ExtractView.jsx:99-132 | the placeholder is shown exactly when the text is empty or absent |
| Detector.ChecksAreIndependent | extension/analysis-site/analysis-content.js:45-57 | the poll's check does not look at the observer's markers (lines 10-13): a page can carry a marker and fail the check, or pass the check with no marker |
| Detector.MakeNotice | extension/analysis-site/analysis-content.js:59-71 | the notice carries the query's `videoUrl`, the page's own address and the send time |
| Detector.NoVideoNoDetection | extension/analysis-site/analysis-content.js:77-86 | with nothing armed (no `videoUrl`), no event other than the test button sends a notice or changes anything |
| Detector.DetectorsDisableOnlyThemselves | extension/analysis-site/analysis-content.js:17-18 | the observer's notice leaves the poll and the one-off check running, and the poll's notice (lines 33-35) leaves the observer and the one-off check running |
| Detector.ThreeNoticesWitness | extension/analysis-site/analysis-content.js:15-37 | not single-fire: on a page with a marker and a completion text, the observer, the one-off check (lines 81-85) and the poll each send a notice, three in all |
| Detector.NoticeBound | extension/analysis-site/analysis-content.js:8-86 | each detector fires at most once, so without the test button a run adds at most as many notices as detectors were armed |
| Detector.CeilingSilencesObserverAndPoll | extension/analysis-site/analysis-content.js:39-42 | once the ceiling has switched the observer and the poll off, they stay off whatever follows |
| Detector.NoticesCarryVideoUrl | extension/analysis-site/analysis-content.js:59-71 | every notice sent carries the query's video URL |
| Detector.AnalysisContent.constructor | extension/analysis-site/analysis-content.js:3-4 | the observer, the poll and the one-off check are armed exactly when `videoUrl` is present and non-empty (lines 77-86) |
| Detector.AnalysisContent.Notify | extension/analysis-site/analysis-content.js:59-75 | one notice is appended and no detector changes |
| Detector.AnalysisContent.OnMutations | extension/analysis-site/analysis-content.js:9-20 | an active observer that sees one of its markers sends a notice and switches only itself off |
| Detector.AnalysisContent.OnPollTick | extension/analysis-site/analysis-content.js:29-37 | an active poll whose check holds sends a notice and clears only its own interval |
| Detector.AnalysisContent.OnExtraCheck | extension/analysis-site/analysis-content.js:81-85 | the one-off check runs once and sends a notice when the check holds |
| Detector.AnalysisContent.OnCeiling | extension/analysis-site/analysis-content.js:39-42 | the 600000 ms ceiling switches off the poll and the observer |
| Detector.AnalysisContent.OnTestButton | extension/analysis-site/analysis-content.js:93 | the test button sends a notice unconditionally |
| ShortsUrl.FirstMatchFrom | testExtension/youtube/analysis-manager.js:101 | the regex's match position: the leftmost place at or after `from` where "/shorts/" is followed by a character other than '?', or -1 when there is none |
| ShortsUrl.QueryFreeRunEnd | testExtension/youtube/analysis-manager.js:101 | the greedy `[^?]+` stops at the first '?' or at the end |
| ShortsUrl.ExtractVideoId | testExtension/youtube/analysis-manager.js:100-103 | there is an id exactly when the regex matches somewhere, and the id is non-empty and free of '?' (the same code is at extension/youtube/analysis-manager.js:252-255) |
| ShortsUrl.ExtractVideoIdAt | testExtension/youtube/analysis-manager.js:100-103 | the id is the text right after the leftmost match, up to the next '?' or the end of the address |
| ShortsUrl.ExtractFromShortsUrl | testExtension/youtube/analysis-manager.js:100-103 | a shorts address `prefix + "/shorts/" + id + query` yields exactly `id` when the prefix starts no "/shorts/" of its own |
| ShortsUrl.NoIdExamples | testExtension/youtube/analysis-manager.js:101 | "/shorts/" with nothing after it, or with the query right after it, gives no id |
| ShortsUrl.WatchUrl | testExtension/youtube/ui-manager.js:218-220 | an address without "shorts/" comes back unchanged |
| ShortsUrl.WatchUrlOfShortsUrl | testExtension/youtube/ui-manager.js:218-220 | the first "shorts/" is replaced by "watch?v=" and everything around it is kept |
| ShortsUrl.WatchUrlAfterSlash | testExtension/youtube/ui-manager.js:218-220 | `prefix + "/shorts/" + tail` becomes `prefix + "/watch?v=" + tail` when the prefix holds no "shorts/" |
| ShortsUrl.IdOfShortsUrl | testExtension/youtube/analysis-manager.js:100-103 | the id of a shorts address whose prefix holds no "shorts/" is the id that follows it |
| ShortsUrl.WatchOfShortsUrl | testExtension/youtube/ui-manager.js:218-220 | the watch address of such a shorts address keeps the id and the query after "watch?v=" |
| ShortsUrl.ShortsAndWatchAgree | testExtension/youtube/ui-manager.js:218-220 | the id `extractVideoId` finds (analysis-manager.js:100-103) is exactly what follows "watch?v=" in the watch address |
| AnalysisSession.Started | testExtension/youtube/analysis-manager.js:17-34 | an address without a shorts id leaves the session as it was; otherwise the current analysis becomes `{videoId, videoUrl, startTime: now, status: 'analyzing'}` and the history is kept (same code at extension/youtube/analysis-manager.js:21-38) |
| AnalysisSession.Abandoned | testExtension/youtube/analysis-manager.js:54 | the failure path clears the current analysis and keeps the history |
| AnalysisSession.Completed | testExtension/youtube/analysis-manager.js:76-89 | with a current analysis, a copy marked complete with the end time and result URL is appended to the history and the current one cleared; without one nothing changes |
| AnalysisSession.AnalyzingTransitions | testExtension/youtube/analysis-manager.js:108-113 | `isAnalyzing` holds after a start exactly when the address has a shorts id (otherwise it is unchanged), and never after a failure or a completion |
| AnalysisSession.HistoryAppendOnly | testExtension/youtube/analysis-manager.js:85 | however starts, failures and completions interleave, the history only grows at its end, holds only finished analyses with an end time, and gains at most one entry per call |
| AnalysisSession.AnalyzeUrl | testExtension/youtube/analysis-manager.js:67-71 | the analysis page address is the /analyze page followed by the encoded video address |
| AnalysisSession.FrontUrl | extension/youtube/analysis-manager.js:47-48 | the redirect address is the front page's root followed by the encoded video address |
| AnalysisSession.PageUrlsDistinct | extension/youtube/analysis-manager.js:47-48 | each address determines the encoded video address, and the redirect page is never the analysis page announced later (testExtension/youtube/analysis-manager.js:67-71) |
| TestAnalysisManager.AnalysisManager.constructor | testExtension/youtube/analysis-manager.js:9-12 | no current analysis and an empty history |
| TestAnalysisManager.AnalysisManager.StartAnalysis | testExtension/youtube/analysis-manager.js:17-44 | without an id: alert, nothing sent, state unchanged; with one: the record is stored first and the background is asked to start with the id, the address and the analysis URL |
| TestAnalysisManager.AnalysisManager.FinishStartAnalysis | testExtension/youtube/analysis-manager.js:46-61 | a rejected notification clears the current analysis, shows 'error' and returns false; otherwise 'analyzing' is shown and the result is true; the UI is told only when present |
| TestAnalysisManager.AnalysisManager.OnAnalysisComplete | testExtension/youtube/analysis-manager.js:76-95 | the current analysis, if any, is filed as `Completed` says, and the button is reset whenever the UI exists |
| TestAnalysisManager.AnalysisManager.IsAnalyzing | testExtension/youtube/analysis-manager.js:108-113 | true exactly when there is a current analysis whose status is 'analyzing' |
| ExtensionAnalysisManager.FetchFilePath | extension/youtube/analysis-manager.js:94-121 | a non-ok response fails with "다운로드 실패: " and the status; a null body fails; otherwise the body's `file_path`, falling back to `download_info?.file_path` when that is falsy |
| ExtensionAnalysisManager.AnalysisRequest | extension/youtube/analysis-manager.js:136-139 | the request carries the file path and language 'en' |
| ExtensionAnalysisManager.Settle | extension/youtube/analysis-manager.js:153-168 | only a pending promise of the run settles, and no other run changes; a rejection also clears the current analysis, whichever run is current, as that run's catch does (:85-88); nothing sent or stored changes |
| ExtensionAnalysisManager.NextValid | extension/youtube/analysis-manager.js:126-184 | every event keeps `websocket` and every transmission pointing at a run that created a socket, and a run with a promise is past its download |
| ExtensionAnalysisManager.StartPressedCases | extension/youtube/analysis-manager.js:21-65 | the three outcomes of `startAnalysis`: no id leaves the whole state unchanged; a throwing `window.open` abandons the analysis just started; otherwise the analysis starts and a new background run is added, downloading, while earlier runs, the latest socket and everything sent or stored are kept |
| ExtensionAnalysisManager.InvalidAddressNoChange | extension/youtube/analysis-manager.js:22-28 | an address without a shorts id changes nothing |
| ExtensionAnalysisManager.ValidAddressStarts | extension/youtube/analysis-manager.js:33-56 | a valid address leaves an analysis in progress and its download started, and any error from opening the page leaves no current analysis |
| ExtensionAnalysisManager.FetchFailureAbandons | extension/youtube/analysis-manager.js:75-88 | a failed download or a missing file path clears the current analysis and creates no socket |
| ExtensionAnalysisManager.FetchSuccessConnects | extension/youtube/analysis-manager.js:75-130 | a file path creates the run's socket and pending promise, and `websocket` now holds that socket |
| ExtensionAnalysisManager.OpenSendsRequest | extension/youtube/analysis-manager.js:132-143 | opening the latest socket sends exactly one request `{file_path, language: 'en'}` on it and marks it open |
| ExtensionAnalysisManager.StaleOpenUsesLatestSocket | extension/youtube/analysis-manager.js:132-143 | an earlier run's `onopen` sends its request on the later run's socket when that is OPEN, and nothing otherwise |
| ExtensionAnalysisManager.DispatchRules | extension/youtube/analysis-manager.js:145-164 | for a run's socket, 'extract' stores the data under `analysis_<time>` with that run's address and /analyze page (:190-214) and resolves; 'error' rejects with the message's error and clears the current analysis; any other stage and an unparsable message change nothing |
| ExtensionAnalysisManager.TimeoutOnlyWhenOpen | extension/youtube/analysis-manager.js:176-180 | a run's 30-second timer changes something only when that run is pending and the socket in `this.websocket` is OPEN, and then rejects with the timeout message and clears the current analysis |
| ExtensionAnalysisManager.OtherRunsUntouched | extension/youtube/analysis-manager.js:126-184 | an event of one run never changes another run |
| ExtensionAnalysisManager.SettlesOnce | extension/youtube/analysis-manager.js:127-184 | once a run's promise has settled, no later event, a new start included, changes it |
| ExtensionAnalysisManager.StaleRunClearsNewAnalysis | extension/youtube/analysis-manager.js:21-157 | a second start does not cancel the first run: an 'error' frame on the first run's open socket still rejects its promise, and its catch clears the second, in-progress analysis |
| ExtensionAnalysisManager.RunHistoryAppendOnly | extension/youtube/analysis-manager.js:228-241 | over any sequence of events the history is only extended and holds only finished analyses |
| ExtensionAnalysisManager.AnalysisManager.constructor | extension/youtube/analysis-manager.js:10-16 | no current analysis, empty history, no run and no socket |
| ExtensionAnalysisManager.AnalysisManager.StartAnalysis | extension/youtube/analysis-manager.js:21-65 | the new state is the start event's; the result is true exactly when the address has an id and opening the page does not throw, and then the front page is opened and 'analyzing' shown; without an id the 'no video id' alert; when opening throws, 'analyzing' then 'error' and the error alert |
| ExtensionAnalysisManager.AnalysisManager.StartBackgroundRun | extension/youtube/analysis-manager.js:70-75 | a new run with its own address is appended, downloading; nothing else changes |
| ExtensionAnalysisManager.AnalysisManager.OnFetchDone | extension/youtube/analysis-manager.js:75-88 | the new state is the download outcome's event for that run |
| ExtensionAnalysisManager.AnalysisManager.OnOpen | extension/youtube/analysis-manager.js:132-143 | the new state is the run's socket-open event's |
| ExtensionAnalysisManager.AnalysisManager.SettleWith | extension/youtube/analysis-manager.js:153-168 | the new state is `Settle`'s for that run |
| ExtensionAnalysisManager.AnalysisManager.OnMessage | extension/youtube/analysis-manager.js:145-164 | the new state is the run's socket-message event's |
| ExtensionAnalysisManager.AnalysisManager.OnError | extension/youtube/analysis-manager.js:166-169 | the new state is the run's socket-error event's: its pending promise is rejected with "WebSocket 연결 실패" |
| ExtensionAnalysisManager.AnalysisManager.OnClose | extension/youtube/analysis-manager.js:171-173 | the new state is the run's socket-closed event's |
| ExtensionAnalysisManager.AnalysisManager.OnTimeout | extension/youtube/analysis-manager.js:176-180 | the new state is the run's timeout event's |
| ExtensionAnalysisManager.AnalysisManager.OnAnalysisComplete | extension/youtube/analysis-manager.js:228-247 | the current analysis, if any, is filed as complete; the button is reset whenever the UI exists |
| ExtensionAnalysisManager.AnalysisManager.IsAnalyzing | extension/youtube/analysis-manager.js:260-265 | true exactly when there is a current analysis whose status is 'analyzing' |
| UiManager.ShowStatus | testExtension/youtube/ui-manager.js:174-179 | the status line, when it exists, is displayed with the message; nothing else changes |
| UiManager.HideStatus | testExtension/youtube/ui-manager.js:184-188 | the status line, when it exists, is hidden and keeps its text |
| UiManager.InitializeRules | testExtension/youtube/ui-manager.js:18-40 | no container: nothing happens and the result is false; controls already in the page: only the link is refreshed (:206-213); otherwise the watch link, a fresh green 'start' button and a hidden empty status line are created (:52-109); the result is true whenever a container is found |
| UiManager.InitializeOnce | testExtension/youtube/ui-manager.js:28-32 | a second initialisation after the controls exist keeps the button and the status line and only points the link at the current page's watch address |
| UiManager.UpdateStatusRules | testExtension/youtube/ui-manager.js:150-169 | 'analyzing' greys and disables the button and shows the progress line; 'error' shows the failure text in red, leaves `disabled` as it was and schedules the 2-second reset; any other status, or no button, changes nothing |
| UiManager.ResetRestoresButton | testExtension/youtube/ui-manager.js:193-201 | the reset restores the button exactly as created and hides the status line, so a status change followed by a reset leaves the button as a reset alone does; the link is untouched |
| UiManager.UIManager.constructor | testExtension/youtube/ui-manager.js:9-13 | no container, no controls, no status line |
| UiManager.UIManager.InitializeUI | testExtension/youtube/ui-manager.js:18-40 | the new state and the result are `Initialize`'s |
| UiManager.UIManager.UpdateButtonLinks | testExtension/youtube/ui-manager.js:206-213 | a link, when present, gets the page's watch address (:218-220) |
| UiManager.UIManager.ShowStatusLine | testExtension/youtube/ui-manager.js:174-179 | the new state is `ShowStatus`'s |
| UiManager.UIManager.HideStatusLine | testExtension/youtube/ui-manager.js:184-188 | the new state is `HideStatus`'s |
| UiManager.UIManager.UpdateAnalysisStatus | testExtension/youtube/ui-manager.js:150-169 | the new state and whether the reset was scheduled are `UpdateStatus`'s |
| UiManager.UIManager.ResetAnalyzeButton | testExtension/youtube/ui-manager.js:193-201 | the new state is `Reset`'s |
| UiManager.UIManager.HandleAnalyzeClick | testExtension/youtube/ui-manager.js:132-140 | while an analysis runs only the 'already running' alert is shown; otherwise a start is requested and no alert shown |
| UiManager.UIManager.AfterStartResult | testExtension/youtube/ui-manager.js:142-144 | a successful start leaves the page as it is; a failed one applies the 'error' status |
| MessageHandler.SendToBackground | testExtension/youtube/message-handler.js:17-29 | the promise rejects exactly when `chrome.runtime.lastError` is set, with that error, and otherwise resolves with the response |
| MessageHandler.StartAnalysisMessage | testExtension/youtube/message-handler.js:34-43 | the message has exactly the fields type 'START_ANALYSIS', videoId, videoUrl, analysisUrl and the timestamp |
| MessageHandler.FocusTabMessage | testExtension/youtube/message-handler.js:48-54 | the message has exactly the fields type 'FOCUS_ANALYSIS_TAB' and the tab id |
| MessageHandler.NextKeepsTracked | testExtension/youtube/message-handler.js:93-98 | every handler leaves on the page only the box that `notificationBox` tracks, because a new box removes the old one first |
| MessageHandler.AtMostOneBox | testExtension/youtube/message-handler.js:93-222 | after any sequence of completions, clicks and timers at most one completion box is on the page |
| MessageHandler.ViewAndHideRules | testExtension/youtube/message-handler.js:186-195 | the view button focuses the stored analysis tab and hides the box exactly when the tab id is truthy, and otherwise opens the box's result page and keeps the box; hiding and the removal timer do nothing without a box (:212-222) |
| MessageHandler.CompletionThenView | testExtension/youtube/message-handler.js:75-82 | a completion stores its tab id and shows a new box, so the next view click focuses that tab |
| MessageHandler.LateRemovalTakesNewerBox | testExtension/youtube/message-handler.js:215-220 | the 300 ms removal removes whichever box is current when it fires: a box shown during another box's slide-out is removed by the older box's timer |
| MessageHandler.MessageHandler.constructor | testExtension/youtube/message-handler.js:8-12 | no box and no tab id |
| MessageHandler.MessageHandler.OnRuntimeMessage | testExtension/youtube/message-handler.js:60-88 | an ANALYSIS_COMPLETE message with data is handled as a completion, answered `{success: true}` and passed on to the manager when there is one; one whose data is missing throws when `analysisTabId` is read, exactly then, before any change or answer, and the listener returns nothing; any other message changes nothing and gets no answer; the listener returns true exactly when it did not throw |
| MessageHandler.MessageHandler.ShowBox | testExtension/youtube/message-handler.js:93-182 | the old box is removed and a new one, capturing the result URL, is put on the page and tracked |
| MessageHandler.MessageHandler.HideBox | testExtension/youtube/message-handler.js:212-214 | the current box, if any, starts sliding out |
| MessageHandler.MessageHandler.OnViewClick | testExtension/youtube/message-handler.js:186-195 | the new state and the action are `ViewClicked`'s |
| MessageHandler.MessageHandler.OnCloseClick | testExtension/youtube/message-handler.js:198-201 | the close button hides the box |
| MessageHandler.MessageHandler.OnAutoHide | testExtension/youtube/message-handler.js:204-206 | the 10-second timer hides the box |
| MessageHandler.MessageHandler.OnRemovalTimer | testExtension/youtube/message-handler.js:215-220 | the current box, if any, is taken off the page and no longer tracked |
| ContentBridge.OnRuntimeMessage | extension/content-script.js:9-21 | a message is posted to the page unchanged exactly when its type is DOWNLOAD_READY or DOWNLOAD_ERROR, and every message is answered `{received: true}` |
| ContentBridge.OnPageMessage | extension/content-script.js:24-33 | a page message is forwarded exactly when the window posted it to itself and its type is REQUEST_ANALYSIS_STATUS, and then as GET_ANALYSIS_STATUS wrapping the original |
| ContentBridge.StatusResponse | extension/content-script.js:33-38 | the extension's reply goes back to the page as ANALYSIS_STATUS_RESPONSE carrying the reply |
| ContentBridge.NoRelayLoops | extension/content-script.js:13-38 | the bridge never feeds itself: a forwarded request would not be forwarded again, and a status response is neither forwarded to the extension nor relayed to the page |
| Ask.SplitLines | server/app/llm/ask.py:100 | no line of `splitlines` contains a line boundary |
| Ask.Candidate | server/app/llm/ask.py:106-107 | when some '{' precedes some '}', the candidate is the text from the first '{' through the last '}' (it starts with '{', ends with '}', and no '{' comes before it nor '}' after it); otherwise it is the whole text |
| Ask.CandidateOfWrapped | server/app/llm/ask.py:106-107 | an object between a lead-in without '{' and a tail without '}' is cut out exactly |
| Ask.UnfencedFenced | server/app/llm/ask.py:99-104 | a reply opening with ``` and a tag line loses that first line; the rest is rejoined with "\n" |
| Ask.FencedReply | server/app/llm/ask.py:97-107 | a reply fenced with ```json (or any tag) around a one-line object is cut down to exactly that object |
| Ask.SafeJson | server/app/llm/ask.py:94-115 | a non-string payload fails; otherwise the candidate is parsed, and re-parsed after stripping BOM and whitespace only when the first parse fails; the result is the object parsed, a parse failure exactly when both parses fail, and 'not an object' exactly when the parse that succeeded gave something else |
| Ask.ParseVerdict | server/app/llm/ask.py:132-133 | a text other than TRUE, FALSE or UNCERTAIN becomes UNCERTAIN, and a decided verdict is one whose name is the text |
| Ask.VerdictNamesRoundTrip | server/app/llm/ask.py:320-321 | each verdict's name reads back as that verdict and is already upper case, so the tally's `.upper()` and `counts[v]` only meet the three keys |
| Ask.NormalizedEntries | server/app/llm/ask.py:119 | the entries in order, each key trimmed and lower-cased, each value kept |
| Ask.Collect | server/app/llm/ask.py:119 | the dict built from the entries has each key once |
| Ask.LowerKeys | server/app/llm/ask.py:119 | the comprehension's dict has each normalised key once |
| Ask.LastForExact | server/app/llm/ask.py:119-122 | a key is missing exactly when no entry carries it, and otherwise maps to the value of the last entry that does |
| Ask.CollectLastWins | server/app/llm/ask.py:119 | the dict holds, under each key, the value of the last entry with that key |
| Ask.LowerKeysLastWins | server/app/llm/ask.py:119-122 | `lower.get(k)` is the value of the last entry of the data whose key trims and lower-cases to `k` |
| Ask.ToFloat | server/app/llm/ask.py:127-130 | `float(confidence)` of an integer succeeds exactly below the magnitude 2^1024 - 2^970 and gives the integer's value; a larger one raises `OverflowError`, so the confidence falls back to 0.0 |
| Ask.Clamp01 | server/app/llm/ask.py:131 | the result lies in [0, 1], equals the input inside that range and the nearer end outside it |
| Ask.CalibrateLaws | server/app/llm/ask.py:78-91 | a TRUE or FALSE verdict with a confidence of at most 0 is raised to the floor (never below 0); every other case is clamped into [0, 1]; a floor of at most 0 changes nothing; the result is never negative and at most 1 unless the floor is above 1 |
| Ask.NormalizeVerdict | server/app/llm/ask.py:120-126 | the verdict is TRUE (or FALSE) exactly when the "verdict" value is a string that trims and upper-cases to that name (:132-133), and UNCERTAIN otherwise |
| Ask.NormalizeConfidence | server/app/llm/ask.py:121-134 | the confidence is the clamped `float` of the "confidence" value (0 when it is missing or `float` raises), raised to the floor when a decided verdict comes with 0; never negative |
| Ask.Interpret | server/app/llm/ask.py:253-256 | empty content and every `_safe_json` failure end as 502, caught by the handler's `except Exception` (:278-279); otherwise the normalised judgement of the parsed object (same path at :170-174 and :201-204) |
| Ask.CallOllama | server/app/llm/ask.py:148-180 | an unset OLLAMA_HOST_URL is a 500 before any request; an error status is passed on; a content failure, including a payload with a missing key, is 502; otherwise the normalised judgement |
| Ask.CallGemini | server/app/llm/ask.py:184-217 | a 404 for a model not ending in "-latest" retries once with "-latest" appended, and only then; a finished attempt decides the outcome; a 404 that is not retried, or a second 404, ends as 502, so 404 never escapes |
| Ask.DefaultGeminiNotRetried | server/app/llm/ask.py:211-213 | the default model "gemini-1.5-flash-latest" (:292) is tried once only |
| Ask.CallGroqAsWritten | server/app/llm/ask.py:243-275 | as written, only a payload with a missing key (the `KeyError` at :253) reaches the fallback loop, which passes over further missing-key payloads; any other first reply decides alone, and a retired model ends as (HTTP 400, [model]) |
| Ask.TryFallbacks | server/app/llm/ask.py:264-275 | the models tried are a prefix of the fallback list; every one but the last raised KeyError; the first one that did not decides; when all raised KeyError the outcome is 502 |
| Ask.CallGroq | server/app/llm/ask.py:258-275 | as intended, a model whose attempt raises no KeyError decides alone; a retired model or a payload with a missing key is followed by the fallbacks in order |
| Ask.GroqRetiredModelFails | server/app/llm/ask.py:243-250 | with the code as written, a retired model gives (Err(400), [model]), whatever the fallbacks would answer |
| Ask.FirstFallbackAnswers | server/app/llm/ask.py:264-272 | when the first fallback's attempt raises no KeyError, the loop stops at it with its outcome |
| Ask.GroqMissingKeyFallsBack | server/app/llm/ask.py:253-272 | as written, a payload missing `choices`, `message` or `content` is followed by the first fallback, whose answer is returned after two attempts |
| Ask.GroqRetiredModelFallsBack | server/app/llm/ask.py:258-272 | as intended, a retired model whose first fallback answers gets that answer after exactly two attempts |
| Ask.OrDefault | server/app/llm/ask.py:292-293 | `os.getenv(name) or default`: the variable when it is non-empty, the default otherwise |
| Ask.OptionalCall | server/app/llm/ask.py:296-306 | an enabled provider contributes one task named `<provider>:<model>`, a disabled one none |
| Ask.PlannedCallsLaws | server/app/llm/ask.py:291-306 | the panel is empty exactly when neither OLLAMA_MODEL nor either key is set; it lists the enabled providers in the order Ollama, Gemini, Groq; each runs its configured model or the default and is named by prefix and model |
| Ask.CheckRequest | server/app/llm/ask.py:286-309 | a blank text is a 400 'text is required'; otherwise an empty panel is a 500; otherwise the trimmed claim, which starts and ends with non-whitespace, and the panel |
| Ask.Wrap | server/app/llm/ask.py:137-144 | the entry carries the provider name, and the judgement exactly when the call succeeded, otherwise its error |
| Ask.TallyCounts | server/app/llm/ask.py:314-327 | each count is the number of answered entries with that verdict, counted independently from the front; errored entries count for nothing; one confidence per answer and at most one rationale |
| Ask.MaxByKey | server/app/llm/ask.py:329 | no item has a larger key `(count, name == "UNCERTAIN")` than the one chosen |
| Ask.MaxByKeyKeepsFirst | server/app/llm/ask.py:329 | of several maximal items the first is kept, as Python's `max` does |
| Ask.FinalVerdictRules | server/app/llm/ask.py:329 | UNCERTAIN wins exactly when its count is at least each other's; TRUE exactly when it is at least FALSE and more than UNCERTAIN; FALSE exactly when more than both; the winner's count is maximal |
| Ask.AllErroredIsUncertain | server/app/llm/ask.py:317-329 | a panel where every provider failed has no votes and the verdict UNCERTAIN |
| Ask.Explanation | server/app/llm/ask.py:333 | the fixed 'No rationale available.' with no rationales; otherwise the first (up to three) joined with " \| ", starting with the first |
| Ask.RationalesAreTagged | server/app/llm/ask.py:326-327 | each collected rationale starts with its "[provider]" tag, and none is collected exactly when no answer has a non-empty rationale |
| Ask.ExplanationFallback | server/app/llm/ask.py:326-333 | the explanation is the fixed text exactly when no answer carried a rationale |
| Ask.Aggregate | server/app/llm/ask.py:313-341 | the loop's response echoes the claim and panel; its verdict is `FinalVerdict` of the counts, its score the mean of the answered confidences (before rounding), its explanation that of the tagged rationales |
| GraphService.ParseClassification | server/app/whisperx/graph_service.py:24-39 | CLAIM exactly when the upper-cased reply mentions CLAIM, and FACT in every other case, the default included |
| GraphService.SegId | server/app/whisperx/graph_service.py:104 | the id of position `i` is "seg_" followed by the decimal digits of `i + 1` |
| GraphService.SegIdInjective | server/app/whisperx/graph_service.py:104 | different positions get different ids |
| GraphService.NodeAt | server/app/whisperx/graph_service.py:100-109 | the node keeps the segment's start, end and text, takes its position's id and the classification parsed from its reply |
| GraphService.BuildNodes | server/app/whisperx/graph_service.py:99-110 | one node per pair of `zip`, so as many as the shorter list has, each the `NodeAt` of its position |
| GraphService.NodeIdsDistinct | server/app/whisperx/graph_service.py:100-110 | the nodes built have pairwise distinct ids |
| GraphService.RelationNameInjective | server/app/whisperx/graph_service.py:70 | the four relationship names are distinct, so the name is "none" only for no relationship |
| GraphService.AnalyzeRelationshipOutcomes | server/app/whisperx/graph_service.py:52-81 | any failure, the missing client included, gives ("none", 0.0); otherwise the relationship found (or "none") with the confidence found, 0.5 when there is none, and ("none", 0.0) when `float` rejects the digits found |
| GraphService.PairEdgesExact | server/app/whisperx/graph_service.py:117-137 | a considered pair contributes exactly the edge of its analysis when it should be analysed and the result is meaningful, and nothing otherwise |
| GraphService.EdgesExactly | server/app/whisperx/graph_service.py:113-137 | an edge is in the graph exactly when it comes from a pair of nodes at most two apart that are adjacent or of different types, and whose relationship is not "none" and has confidence above 0.3 |
| GraphService.EdgeShape | server/app/whisperx/graph_service.py:116-137 | every edge runs forward from a node to one of the next two, joins node ids, and is meaningful |
| GraphService.NoClientNoEdges | server/app/whisperx/graph_service.py:22 | with the client as constructed, `None`, every analysis fails (:61, :79-81) and the graph has no edges |
| GraphService.AdjacentPairRelated | server/app/whisperx/graph_service.py:116-137 | with a working client, two adjacent nodes the model relates with confidence above 0.3 are joined by that edge |
| GraphService.AddRowEdges | server/app/whisperx/graph_service.py:117-137 | the inner loop appends exactly row `i`'s edges, in column order |
| GraphService.BuildArgumentGraph | server/app/whisperx/graph_service.py:83-139 | the graph's nodes are those of `BuildNodes` and its edges exactly the pair edges in loop order |
| GraphService.ClaimsAndFacts | server/app/whisperx/graph_service.py:151-152 | every node is a claim or a fact, so the two counts add up to the node count |
| GraphService.RelationshipCountsExact | server/app/whisperx/graph_service.py:155-157 | the dict holds, for each label, the number of edges with it; its keys are distinct, each counted at least once, exactly the labels that occur, and the counts add up to the edge count |
| GraphService.CountRelationships | server/app/whisperx/graph_service.py:155-157 | the loop builds the dict `RelationshipCounts` describes |
| GraphService.GenerateGraphSummary | server/app/whisperx/graph_service.py:141-166 | the summary reports the node, claim, fact and edge counts, the label counts, and the mean confidence, 0.0 without edges |
| GraphService.SummaryConsistent | server/app/whisperx/graph_service.py:151-165 | claims and facts add up to the segment count, the label counts to the number of relationships, and a graph without edges has no labels and averages 0.0 |
| ClaimEvidence.NodeMapsDomain | server/app/whisperx/convert_claim_fact_mapped.py:17 | an id is in `node_types` (and in `node_texts`, :98) exactly when some node has it |
| ClaimEvidence.NodeMapsLastWins | server/app/whisperx/convert_claim_fact_mapped.py:17 | both comprehensions send an id to the type and the text of the last node with it (also :98) |
| ClaimEvidence.LinkRules | server/app/whisperx/convert_claim_fact_mapped.py:28-47 | an edge contributes a pair exactly when it is "supports" or "relates" and joins a FACT and a CLAIM in either direction; the pair's claim end is the CLAIM id and its fact end the FACT id, and they are the edge's two ends |
| ClaimEvidence.EvidenceMapExact | server/app/whisperx/convert_claim_fact_mapped.py:14-50 | the mapping groups the contributing edges by claim: each claim's list is its facts in edge order; the keys are distinct and exactly the claims with a fact, so no list is empty; keys are CLAIM ids and listed ids FACT ids; there are as many listed ids as contributing edges |
| ClaimEvidence.ConvertToClaimEvidence | server/app/whisperx/convert_claim_fact_mapped.py:4-50 | the loop builds the mapping `EvidenceMap` describes |
| ClaimEvidence.GetClaimEvidenceSummary | server/app/whisperx/convert_claim_fact_mapped.py:52-83 | the summary carries the mapping, the claim and fact counts, the claims with a non-empty list and the rest, the distinct facts used and the rest, and the number of pairs |
| ClaimEvidence.SummaryBounds | server/app/whisperx/convert_claim_fact_mapped.py:69-81 | every key has evidence, the pairs are the contributing edges, and 'unsupported' and 'unused' are never negative, because the keys are distinct CLAIM ids and the used ids FACT ids |
| ClaimEvidence.AppendClaimBlock | server/app/whisperx/convert_claim_fact_mapped.py:104-115 | one claim's lines: its claim line, then the evidence heading and one line per fact, or 'no evidence', then a blank line; missing texts read "Unknown" |
| ClaimEvidence.AppendUnsupported | server/app/whisperx/convert_claim_fact_mapped.py:121-126 | the section lists each unsupported claim once, in the order visited, under its heading and followed by a blank line, and is absent when there is none |
| ClaimEvidence.AppendBlocks | server/app/whisperx/convert_claim_fact_mapped.py:103-115 | the blocks of every claim of the mapping, in key order |
| ClaimEvidence.FormatClaimEvidenceText | server/app/whisperx/convert_claim_fact_mapped.py:85-128 | the text is the header, the claim blocks and the unsupported section joined with "\n", the section visiting exactly the unsupported claims |
| ClaimEvidence.UnsupportedSectionExact | server/app/whisperx/convert_claim_fact_mapped.py:118-121 | the section lists exactly the CLAIM nodes' ids that are not keys of the mapping, and is there exactly when one exists |
| ClaimEvidence.ReportShape | server/app/whisperx/convert_claim_fact_mapped.py:100-128 | for a mapping the conversion made, the 'no evidence' line never appears, and the report has one header line, three lines per claim plus one per pair, plus the section's lines |

## Left out

- Browser and extension APIs (`chrome.tabs`, `chrome.runtime`, `chrome.storage`, `window.open`, `alert`, notifications), the DOM and all styling are not modelled. Their answers are inputs and their effects are recorded in the model's state or results.
- The transports (WebSocket, Socket.IO, `fetch`, `httpx` requests) are not modelled. A provider's or server's reply is an input value, and a failed connection is given as an error reply.
- `JSON.parse`, `json.loads`, `float(...)`, `str(...)`, `encodeURIComponent` and the regular-expression searches in the relationship analyser are parameters of the model, because their implementations are outside the code modelled here.
- `Date.now()` is a parameter, and `setTimeout`/`setInterval` callbacks are events that the caller fires in any order.
- Floating-point numbers are modelled as `real`. Rounding error and NaN are not represented.
- TrustScore.ToNumber: string coercion covers decimal literals only. Hexadecimal, binary and octal literals (`"0x50"`) and `"Infinity"` are taken as NaN, and a literal is read as an exact `real` without IEEE rounding.
- Ask.Aggregate: the returned score is the unrounded mean; the `round(..., 3)` at server/app/llm/ask.py:330 is not modelled.
- `asyncio.gather` and the rest of the async machinery are not modelled. The panel is the list of the provider results, in task order.
- Python's `str.upper`/`str.lower` are modelled for ASCII letters only. `str.strip` removes the characters that Python's `str.isspace` accepts.
- JavaScript numbers in the front-end store are modelled as integers. The classifiers and percentages use `real`.
- JavaScript `===` on objects compares references. The model compares values structurally.
- Ask.Wrap: the error entry records the HTTP status of the failure, not the text of its `detail`.
- Ask.CallGemini, Ask.CallGroq: the "API key is not set" 500 at ask.py:186-187 and :224-225 is not modelled, because `ask_llm` starts those calls only when the key is set.
- AppWiring: `App.jsx` also calls `emit('request_analysis', {})` after registering its handlers. `useSocket` returns no `emit`, so that call throws inside the effect; React's handling of an effect that throws is not modelled.
- The extension analysis manager's `getHistory` is not modelled as a separate operation (it returns the history field the model exposes).
- ShortsUrl: `extractVideoId` follows its regular expression `/\/shorts\/([^?]+)/`. The id comes from the leftmost "/shorts/" that is followed by a character other than '?'. An earlier "/shorts/" at the end of the URL or directly before '?' is skipped.
- GraphService: the prompt text, the model name taken from `GEMINI_MODEL`, and the logging are not modelled. The model's answer text and the regex matches on it are an input (`RelationReply`).
- ClaimEvidence: `print` output is not modelled. The order in which Python iterates a set of node ids is not fixed by the language, so it is a caller-supplied enumeration (`order`).
- Workflow: `WORKFLOW_STEPS` and `STEP_ORDER` come from `front/src/constants/workflowSteps`, which is not part of this model. The model declares the six stages LOADING, INFO, EXTRACT, CLASSIFY, VERIFY and CONCLUDE in that order.
- The following are context only and are not modelled: the transcription service, the cache service, the mock socket server (`front/server.js`), `youtube-main.js`, the views that `MainContent` imports but does not derive data for (`InfoView`, `ClassifyView`, `VerifyView`, `LoadingView`), the request/response schemas and the routers.

## Findings

| source | as written | input that shows it | evidently intended | confidence | as-written member | corrected member |
|---|---|---|---|---|---|---|
| server/app/llm/ask.py:243-250 | A retired Groq model's status raises only through `raise_for_status` (an `HTTPStatusError`). The `KeyError` meant to trigger the fallbacks is raised inside a `try` whose `except Exception: pass` swallows it, so the call ends as an HTTP 400 and no fallback model is tried. | `GROQ_MODEL=llama-3.1-70b-versatile`, answered with status 400 and `model_decommissioned` | a retired model falls back to llama-3.3-70b-versatile, then llama-3.1-8b-instant, then mixtral-8x7b-32768 | high; not executed | Ask.GroqRetiredModelFails (with Ask.CallGroqAsWritten) | Ask.GroqRetiredModelFallsBack (with Ask.CallGroq) |
| server/app/whisperx/graph_service.py:22 | `self.client = genai.configure(api_key=...)` stores `None`, so `self.client.models` at :61 raises inside the `try`. Every pair analysis returns ("none", 0.0) and the argument graph has no edges. | any transcript with two or more segments | a `genai.Client(api_key=...)` client (the commented import at :9), so that a pair the model relates with confidence above 0.3 gets an edge | medium; not executed | GraphService.NoClientNoEdges (with the as-written client) | GraphService.AdjacentPairRelated (with GraphService.BuildArgumentGraph) |
