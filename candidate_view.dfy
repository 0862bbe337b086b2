/** The candidate list (front/src/components/views/CandidateAnalysisView.jsx):
    when scores are shown, how cards are coloured, how a card finds its
    verification and which card the detail modal shows. */
module CandidateView {
  import opened Common
  import opened JsValues
  import opened Workflow
  import opened TrustScore

  /** Scores and the detail modal appear at VERIFY, or when the parent says
      the conclusion is showing. */
  function IsVerifyPhase(step: Step, isInConcludePhase: bool): (b: bool)
    ensures b <==> step == Verify || isInConcludePhase
  {
    step == Verify || isInConcludePhase
  }

  datatype CardColor = Glass | Grey | White | Amber | Orange | Red

  /** `getCardColors`. */
  function CardColors(candidate: JsValue, verification: JsValue, verifyPhase: bool): CardColor
  {
    if !verifyPhase then Glass
    else
      var trustScore := ScoreOrZero(Get(verification, "trustScore"));
      if Get(candidate, "type") == JsStr("claim") then Grey
      else if AtLeast(trustScore, 75.0) then White
      else if AtLeast(trustScore, 50.0) then Amber
      else if AtLeast(trustScore, 25.0) then Orange
      else Red
  }

  /** Outside the verify phase every card is glass; inside it a claim is
      always grey; every other card is banded at 75, 50 and 25, a missing
      score counting as 0. */
  lemma CardColorRules(candidate: JsValue, verification: JsValue, verifyPhase: bool)
    ensures !verifyPhase ==> CardColors(candidate, verification, verifyPhase) == Glass
    ensures verifyPhase && Get(candidate, "type") == JsStr("claim") ==>
      CardColors(candidate, verification, verifyPhase) == Grey
    ensures verifyPhase && Get(candidate, "type") != JsStr("claim") ==>
      var s := ScoreOrZero(Get(verification, "trustScore"));
      var c := CardColors(candidate, verification, verifyPhase);
      (c == White <==> AtLeast(s, 75.0))
      && (c == Amber <==> AtLeast(s, 50.0) && !AtLeast(s, 75.0))
      && (c == Orange <==> AtLeast(s, 25.0) && !AtLeast(s, 50.0))
      && (c == Red <==> !AtLeast(s, 25.0))
    ensures verifyPhase && Get(candidate, "type") != JsStr("claim") && !Truthy(Get(verification, "trustScore")) ==>
      CardColors(candidate, verification, verifyPhase) == Red
  {
  }

  /** The key a candidate's verification is filed under: its id, or its
      text when the id is falsy. */
  function CandidateKey(candidate: JsValue): JsValue
  {
    Or(Get(candidate, "id"), Get(candidate, "text"))
  }

  /** `verifications[key] || {}`. */
  function VerificationFor(verifications: Record, key: JsValue): (v: JsValue)
    ensures ToKey(key) in verifications && Truthy(verifications[ToKey(key)]) ==> v == verifications[ToKey(key)]
    ensures !(ToKey(key) in verifications && Truthy(verifications[ToKey(key)])) ==> v == JsObj(map[])
  {
    Or(if ToKey(key) in verifications then verifications[ToKey(key)] else JsUndefined, JsObj(map[]))
  }

  /** A verification stored by `addVerification` under a candidate's id is
      what that candidate's card shows; a candidate without an id is matched
      by its text. */
  lemma VerificationRoundTrip(verifications: Record, candidate: JsValue, v: JsValue)
    requires Truthy(v)
    ensures VerificationFor(InsertVerification(verifications, CandidateKey(candidate), v), CandidateKey(candidate)) == v
    ensures !Truthy(Get(candidate, "id")) ==> CandidateKey(candidate) == Get(candidate, "text")
  {
  }

  /** The trust bar is drawn iff the verification has a defined
      `trustScore`, whatever its value (0 included). */
  function TrustBarShown(verification: JsValue): (b: bool)
    ensures b <==> verification.JsObj? && "trustScore" in verification.fields
                   && verification.fields["trustScore"] != JsUndefined
  {
    Truthy(verification) && Get(verification, "trustScore") != JsUndefined
  }

  /** `TrustScoreFill`'s colour: 70 and 40 on `score || 0`. */
  function FillBand(score: JsValue): (b: ColorBand)
    ensures b == TrustScoreColor(ScoreOrZero(score))
  {
    var s := ScoreOrZero(score);
    if AtLeast(s, 70.0) then High else if AtLeast(s, 40.0) then Medium else Low
  }

  /** The index `candidates.find(c => (c.id || c.text) === expandedId)`
      stops at, searching from `from`, or -1. Structural equality stands in
      for `===`, which agrees with it on the strings and numbers used as ids. */
  function FindExpandedFrom(candidates: seq<JsValue>, expandedId: JsValue, from: nat): (r: int)
    requires from <= |candidates|
    ensures r == -1 || (from <= r < |candidates| && CandidateKey(candidates[r]) == expandedId)
    ensures r == -1 ==> forall i :: from <= i < |candidates| ==> CandidateKey(candidates[i]) != expandedId
    ensures r != -1 ==> forall i :: from <= i < r ==> CandidateKey(candidates[i]) != expandedId
    decreases |candidates| - from
  {
    if from == |candidates| then -1
    else if CandidateKey(candidates[from]) == expandedId then from
    else FindExpandedFrom(candidates, expandedId, from + 1)
  }

  /** The candidate the modal shows: the first whose key is the expanded id. */
  function FindExpanded(candidates: seq<JsValue>, expandedId: JsValue): (r: Option<JsValue>)
    ensures r.None? <==> forall i :: 0 <= i < |candidates| ==> CandidateKey(candidates[i]) != expandedId
    ensures r.Some? ==> CandidateKey(r.value) == expandedId && r.value in candidates
  {
    var i := FindExpandedFrom(candidates, expandedId, 0);
    if i == -1 then None else Some(candidates[i])
  }

  /** The card state of the view: which card is expanded. */
  class CandidateAnalysis {
    var expandedId: JsValue

    constructor()
      ensures expandedId == JsNull
    {
      expandedId := JsNull;
    }

    /** A click expands the card only in the verify phase. */
    method OnCardClick(candidate: JsValue, verifyPhase: bool)
      modifies this
      ensures verifyPhase ==> expandedId == CandidateKey(candidate)
      ensures !verifyPhase ==> expandedId == old(expandedId)
    {
      if verifyPhase {
        expandedId := CandidateKey(candidate);
      }
    }

    method OnClose()
      modifies this
      ensures expandedId == JsNull
    {
      expandedId := JsNull;
    }

    /** The modal is open in the verify phase while an id is expanded. */
    function ModalShown(verifyPhase: bool): (b: bool)
      reads this
      ensures b <==> verifyPhase && Truthy(expandedId)
    {
      verifyPhase && Truthy(expandedId)
    }
  }

  /** The modal looks the verification up by the expanded id; for the
      candidate it finds, that is the same verification the card showed. */
  lemma ModalMatchesCard(candidates: seq<JsValue>, verifications: Record, expandedId: JsValue)
    requires FindExpanded(candidates, expandedId).Some?
    ensures var c := FindExpanded(candidates, expandedId).value;
      VerificationFor(verifications, expandedId) == VerificationFor(verifications, CandidateKey(c))
  {
  }
}
