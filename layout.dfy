/** Stage-driven layout: which view the main area shows
    (front/src/components/layout/MainContent.jsx) and the progress bar in
    the header (front/src/components/layout/Header.jsx). */
module Layout {
  import opened Workflow

  // ---------------------------------------------------------------------
  // MainContent: view flags
  // ---------------------------------------------------------------------

  /** The three stages from which the classification list stays on screen. */
  predicate ClassifyOrLater(step: Step)
  {
    step in [Classify, Verify, Conclude]
  }

  datatype ViewFlags = ViewFlags(
    showLoading: bool,
    showInfo: bool,
    showExtract: bool,
    showClassify: bool,
    showConclude: bool)

  function Flags(step: Step): (f: ViewFlags)
    ensures f.showLoading <==> step == Loading
    ensures f.showInfo <==> step == Info
    ensures f.showExtract <==> step == Extract
    ensures f.showClassify <==> step == Classify || step == Verify || step == Conclude
    ensures f.showConclude <==> step == Conclude
  {
    ViewFlags(step == Loading, step == Info, step == Extract, ClassifyOrLater(step), step == Conclude)
  }

  /** Exactly one of the four main views is on for every stage, and the
      conclusion overlay is only shown on top of the classification list. */
  lemma ExactlyOneMainView(step: Step)
    ensures var f := Flags(step);
      (if f.showLoading then 1 else 0) + (if f.showInfo then 1 else 0)
      + (if f.showExtract then 1 else 0) + (if f.showClassify then 1 else 0) == 1
    ensures Flags(step).showConclude ==> Flags(step).showClassify
  {
  }

  /** `CandidateAnalysisView` is told it is in the conclude phase exactly at
      CONCLUDE. */
  function IsInConcludePhase(step: Step): (b: bool)
    ensures b <==> step == Conclude
  {
    Flags(step).showConclude
  }

  /** The effect-driven visibility state of the main area. */
  class MainContentState {
    var showExtractIcon: bool
    var showTranscriptButton: bool
    var showShareButton: bool

    constructor()
      ensures !showExtractIcon && !showTranscriptButton && !showShareButton
    {
      showExtractIcon, showTranscriptButton, showShareButton := false, false, false;
    }

    /** The effects after a render at `step`: the icon and the transcript
        button follow the stage, the share button latches on at CONCLUDE. */
    method AfterRender(step: Step)
      modifies this
      ensures showExtractIcon <==> ClassifyOrLater(step)
      ensures showTranscriptButton <==> ClassifyOrLater(step)
      ensures showShareButton <==> old(showShareButton) || step == Conclude
    {
      if ClassifyOrLater(step) {
        showExtractIcon := true;
      } else {
        showExtractIcon := false;
      }
      if ClassifyOrLater(step) {
        showTranscriptButton := true;
      } else {
        showTranscriptButton := false;
      }
      if step == Conclude {
        showShareButton := true;
      }
    }
  }

  /** The share button after renders at the given stages: on iff some render
      was at CONCLUDE (it is never switched off again). */
  function ShareAfter(shown: bool, steps: seq<Step>): bool
    decreases |steps|
  {
    if steps == [] then shown else ShareAfter(shown || steps[0] == Conclude, steps[1..])
  }

  lemma {:induction false} ShareLatches(shown: bool, steps: seq<Step>)
    ensures ShareAfter(shown, steps) <==> shown || Conclude in steps
    decreases |steps|
  {
    if steps != [] {
      ShareLatches(shown || steps[0] == Conclude, steps[1..]);
      assert Conclude in steps <==> steps[0] == Conclude || Conclude in steps[1..];
    }
  }

  // ---------------------------------------------------------------------
  // Header: progress bar
  // ---------------------------------------------------------------------

  /** `order.indexOf(x)`: the first index holding `x`, or -1. */
  function IndexOf(order: seq<Step>, x: Step): (r: int)
    ensures -1 <= r < |order|
    ensures r == -1 <==> x !in order
    ensures r >= 0 ==> order[r] == x && forall i :: 0 <= i < r ==> order[i] != x
  {
    if order == [] then -1
    else if order[0] == x then 0
    else var k := IndexOf(order[1..], x); if k == -1 then -1 else k + 1
  }

  /** One dot of the progress bar. */
  datatype Dot = Dot(active: bool, completed: bool, hasLine: bool)

  /** The progress bar for `order` when the store is at `current`. */
  function ProgressBar(order: seq<Step>, current: Step): (bar: seq<Dot>)
    ensures |bar| == |order|
    ensures forall i :: 0 <= i < |order| ==>
      bar[i] == Dot(order[i] == current, i < IndexOf(order, current), i < |order| - 1)
  {
    var k := IndexOf(order, current);
    seq(|order|, i requires 0 <= i < |order| => Dot(order[i] == current, i < k, i < |order| - 1))
  }

  /** The header's promises, for any stage order: the active dot is never
      completed, completed dots form a prefix, nothing is completed when the
      stage is not in the order, every dot but the last draws a line, and a
      duplicate-free order has at most one active dot. */
  lemma ProgressBarShape(order: seq<Step>, current: Step)
    ensures var bar := ProgressBar(order, current);
      (forall i :: 0 <= i < |bar| && bar[i].active ==> !bar[i].completed)
      && (forall i, j :: 0 <= i <= j < |bar| && bar[j].completed ==> bar[i].completed)
      && (current !in order ==> forall i :: 0 <= i < |bar| ==> !bar[i].completed)
      && (forall i :: 0 <= i < |bar| ==> (bar[i].hasLine <==> i != |bar| - 1))
    ensures (forall i, j :: 0 <= i < j < |order| ==> order[i] != order[j]) ==>
      var bar := ProgressBar(order, current);
      forall i, j :: 0 <= i < |bar| && 0 <= j < |bar| && bar[i].active && bar[j].active ==> i == j
  {
  }

  /** With the declared `STEP_ORDER`, exactly the stages before the current
      one are completed, and the current one is the only active dot. */
  lemma BarForDeclaredOrder(current: Step, i: int)
    requires 0 <= i < |STEP_ORDER|
    ensures var bar := ProgressBar(STEP_ORDER, current);
      (bar[i].active <==> STEP_ORDER[i] == current)
      && (bar[i].completed <==> i < IndexOf(STEP_ORDER, current))
      && IndexOf(STEP_ORDER, current) >= 0
  {
  }
}
