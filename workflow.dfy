/** The front end's workflow store (front/src/context/WorkflowContext.jsx):
    one field per piece of analysis state, each replaced by its own setter.
    Four setters shallow-merge a patch into a record, one inserts a key into
    the verification map and the rest replace their field outright. */
module Workflow {
  import opened Common
  import opened JsValues

  /** `WORKFLOW_STEPS`: the constants file is not part of this model, so the
      six stages are declared here. */
  datatype Step = Loading | Info | Extract | Classify | Verify | Conclude

  /** `STEP_ORDER`, likewise declared here: the stages in display order. */
  const STEP_ORDER: seq<Step> := [Loading, Info, Extract, Classify, Verify, Conclude]

  type Record = map<string, JsValue>

  /** `{ ...prev, ...data }`: the patch's own properties win, every other key
      of `prev` keeps its value. */
  function Merge(prev: Record, patch: JsValue): (r: Record)
    ensures r.Keys == prev.Keys + Spread(patch).Keys
    ensures forall k :: k in Spread(patch) ==> r[k] == Spread(patch)[k]
    ensures forall k :: k in prev && k !in Spread(patch) ==> r[k] == prev[k]
  {
    prev + Spread(patch)
  }

  /** Merging the same patch again changes nothing, and spreading `null` or
      `undefined` is a no-op. */
  lemma MergeIdempotent(prev: Record, patch: JsValue)
    ensures Merge(Merge(prev, patch), patch) == Merge(prev, patch)
    ensures patch.JsNull? || patch.JsUndefined? ==> Merge(prev, patch) == prev
  {
  }

  /** Two merges in a row equal one merge of the combined patch. */
  lemma MergeTwice(prev: Record, p1: Record, p2: Record)
    ensures Merge(Merge(prev, JsObj(p1)), JsObj(p2)) == Merge(prev, JsObj(p1 + p2))
  {
  }

  /** `{ ...prev, [candidateId]: verification }`: the id is turned into a
      property key the way JavaScript does. */
  function InsertVerification(prev: Record, candidateId: JsValue, verification: JsValue): (r: Record)
    ensures r.Keys == prev.Keys + {ToKey(candidateId)}
    ensures r[ToKey(candidateId)] == verification
    ensures forall k :: k in prev && k != ToKey(candidateId) ==> r[k] == prev[k]
  {
    prev[ToKey(candidateId) := verification]
  }

  /** Adding the same verification twice is adding it once. */
  lemma InsertVerificationIdempotent(prev: Record, id: JsValue, v: JsValue)
    ensures InsertVerification(InsertVerification(prev, id, v), id, v) == InsertVerification(prev, id, v)
  {
  }

  /** A later verification for the same id wins. */
  lemma InsertVerificationLastWins(prev: Record, id: JsValue, v: JsValue, w: JsValue)
    ensures InsertVerification(InsertVerification(prev, id, v), id, w) == InsertVerification(prev, id, w)
  {
  }

  /** Verifications for ids with different keys do not interfere. */
  lemma InsertVerificationCommutes(prev: Record, id: JsValue, other: JsValue, v: JsValue, w: JsValue)
    requires ToKey(id) != ToKey(other)
    ensures InsertVerification(InsertVerification(prev, id, v), other, w)
      == InsertVerification(InsertVerification(prev, other, w), id, v)
  {
  }

  /** Everything the provider holds. */
  datatype StoreState = StoreState(
    step: Step,
    videoData: Record,
    transcript: Record,
    candidates: JsValue,
    argumentGraph: Record,
    extractSummary: Record,
    verifications: Record,
    conclusion: JsValue,
    selectedCandidate: JsValue,
    isShowingConclusion: JsValue)

  /** The `useState` initial values. */
  const INITIAL_STATE: StoreState := StoreState(
    Loading,
    map["title" := JsStr(""), "thumbnail" := JsStr(""), "url" := JsStr("")],
    map["text" := JsStr(""), "timeline" := JsArr([])],
    JsArr([]),
    map["nodes" := JsArr([]), "edges" := JsArr([])],
    map["total_segments" := JsNum(0), "claims" := JsNum(0), "facts" := JsNum(0),
        "relationships" := JsNum(0), "relationship_types" := JsObj(map[]), "avg_confidence" := JsNum(0)],
    map[],
    JsObj(map["opinionCount" := JsNum(0), "factCount" := JsNum(0), "trustScore" := JsNum(0)]),
    JsNull,
    JsBool(false))

  /** The setters exposed in the context value, as data. */
  datatype StoreOp =
    | MoveToStep(to: Step)
    | UpdateVideoData(patch: JsValue)
    | UpdateTranscript(patch: JsValue)
    | SetCandidates(candidates: JsValue)
    | UpdateArgumentGraph(patch: JsValue)
    | UpdateExtractSummary(patch: JsValue)
    | AddVerificationOp(candidateId: JsValue, verification: JsValue)
    | SetConclusion(conclusion: JsValue)
    | SetSelectedCandidate(candidate: JsValue)
    | SetIsShowingConclusion(flag: JsValue)

  /** The state after one setter has run. */
  function ApplyOp(s: StoreState, op: StoreOp): StoreState
  {
    match op
    case MoveToStep(to) => s.(step := to)
    case UpdateVideoData(patch) => s.(videoData := Merge(s.videoData, patch))
    case UpdateTranscript(patch) => s.(transcript := Merge(s.transcript, patch))
    case SetCandidates(c) => s.(candidates := c)
    case UpdateArgumentGraph(patch) => s.(argumentGraph := Merge(s.argumentGraph, patch))
    case UpdateExtractSummary(patch) => s.(extractSummary := Merge(s.extractSummary, patch))
    case AddVerificationOp(id, v) => s.(verifications := InsertVerification(s.verifications, id, v))
    case SetConclusion(c) => s.(conclusion := c)
    case SetSelectedCandidate(c) => s.(selectedCandidate := c)
    case SetIsShowingConclusion(f) => s.(isShowingConclusion := f)
  }

  datatype Field =
    | StepField | VideoDataField | TranscriptField | CandidatesField | ArgumentGraphField
    | ExtractSummaryField | VerificationsField | ConclusionField | SelectedCandidateField
    | ShowingConclusionField

  /** The one field each setter writes. */
  function FieldOf(op: StoreOp): Field
  {
    match op
    case MoveToStep(_) => StepField
    case UpdateVideoData(_) => VideoDataField
    case UpdateTranscript(_) => TranscriptField
    case SetCandidates(_) => CandidatesField
    case UpdateArgumentGraph(_) => ArgumentGraphField
    case UpdateExtractSummary(_) => ExtractSummaryField
    case AddVerificationOp(_, _) => VerificationsField
    case SetConclusion(_) => ConclusionField
    case SetSelectedCandidate(_) => SelectedCandidateField
    case SetIsShowingConclusion(_) => ShowingConclusionField
  }

  /** A field's value, with the stage written as its index in the declaration. */
  function FieldValue(s: StoreState, f: Field): JsValue
  {
    match f
    case StepField => JsNum(match s.step
                            case Loading => 0 case Info => 1 case Extract => 2
                            case Classify => 3 case Verify => 4 case Conclude => 5)
    case VideoDataField => JsObj(s.videoData)
    case TranscriptField => JsObj(s.transcript)
    case CandidatesField => s.candidates
    case ArgumentGraphField => JsObj(s.argumentGraph)
    case ExtractSummaryField => JsObj(s.extractSummary)
    case VerificationsField => JsObj(s.verifications)
    case ConclusionField => s.conclusion
    case SelectedCandidateField => s.selectedCandidate
    case ShowingConclusionField => s.isShowingConclusion
  }

  /** Every setter leaves every field but its own unchanged. */
  lemma ApplyOpFrame(s: StoreState, op: StoreOp, f: Field)
    requires f != FieldOf(op)
    ensures FieldValue(ApplyOp(s, op), f) == FieldValue(s, f)
  {
  }

  /** `moveToStep` accepts any stage from any stage (there is no ordering
      check), and the replacing setters do not merge: the new value is kept
      whatever the old one was. */
  lemma SettersReplace(s: StoreState, to: Step, c: JsValue, k: JsValue)
    ensures ApplyOp(s, MoveToStep(to)).step == to
    ensures ApplyOp(s, SetCandidates(c)).candidates == c
    ensures ApplyOp(s, SetConclusion(k)).conclusion == k
  {
  }

  /** `useWorkflow`: the context, or the error raised outside the provider. */
  function UseWorkflow<T>(context: Option<T>): (r: Result<T, string>)
    ensures context.None? <==> r.Err?
    ensures context.Some? ==> r == Ok(context.value)
    ensures r.Err? ==> r.error == "useWorkflow must be used within WorkflowProvider"
  {
    match context
    case None => Err("useWorkflow must be used within WorkflowProvider")
    case Some(c) => Ok(c)
  }

  /** The provider's state cells. */
  class WorkflowStore {
    var step: Step
    var videoData: Record
    var transcript: Record
    var candidates: JsValue
    var argumentGraph: Record
    var extractSummary: Record
    var verifications: Record
    var conclusion: JsValue
    var selectedCandidate: JsValue
    var isShowingConclusion: JsValue

    function Snapshot(): StoreState
      reads this
    {
      StoreState(step, videoData, transcript, candidates, argumentGraph, extractSummary,
                 verifications, conclusion, selectedCandidate, isShowingConclusion)
    }

    constructor()
      ensures Snapshot() == INITIAL_STATE
    {
      step := INITIAL_STATE.step;
      videoData := INITIAL_STATE.videoData;
      transcript := INITIAL_STATE.transcript;
      candidates := INITIAL_STATE.candidates;
      argumentGraph := INITIAL_STATE.argumentGraph;
      extractSummary := INITIAL_STATE.extractSummary;
      verifications := INITIAL_STATE.verifications;
      conclusion := INITIAL_STATE.conclusion;
      selectedCandidate := INITIAL_STATE.selectedCandidate;
      isShowingConclusion := INITIAL_STATE.isShowingConclusion;
    }

    method MoveToStep(to: Step)
      modifies this
      ensures Snapshot() == ApplyOp(old(Snapshot()), StoreOp.MoveToStep(to))
    {
      step := to;
    }

    method UpdateVideoData(patch: JsValue)
      modifies this
      ensures Snapshot() == ApplyOp(old(Snapshot()), StoreOp.UpdateVideoData(patch))
    {
      videoData := Merge(videoData, patch);
    }

    method UpdateTranscript(patch: JsValue)
      modifies this
      ensures Snapshot() == ApplyOp(old(Snapshot()), StoreOp.UpdateTranscript(patch))
    {
      transcript := Merge(transcript, patch);
    }

    method SetCandidates(c: JsValue)
      modifies this
      ensures Snapshot() == ApplyOp(old(Snapshot()), StoreOp.SetCandidates(c))
    {
      candidates := c;
    }

    method UpdateArgumentGraph(patch: JsValue)
      modifies this
      ensures Snapshot() == ApplyOp(old(Snapshot()), StoreOp.UpdateArgumentGraph(patch))
    {
      argumentGraph := Merge(argumentGraph, patch);
    }

    method UpdateExtractSummary(patch: JsValue)
      modifies this
      ensures Snapshot() == ApplyOp(old(Snapshot()), StoreOp.UpdateExtractSummary(patch))
    {
      extractSummary := Merge(extractSummary, patch);
    }

    method AddVerification(candidateId: JsValue, verification: JsValue)
      modifies this
      ensures Snapshot() == ApplyOp(old(Snapshot()), AddVerificationOp(candidateId, verification))
    {
      verifications := InsertVerification(verifications, candidateId, verification);
    }

    method SetConclusion(c: JsValue)
      modifies this
      ensures Snapshot() == ApplyOp(old(Snapshot()), StoreOp.SetConclusion(c))
    {
      conclusion := c;
    }

    method SetSelectedCandidate(c: JsValue)
      modifies this
      ensures Snapshot() == ApplyOp(old(Snapshot()), StoreOp.SetSelectedCandidate(c))
    {
      selectedCandidate := c;
    }

    method SetIsShowingConclusion(f: JsValue)
      modifies this
      ensures Snapshot() == ApplyOp(old(Snapshot()), StoreOp.SetIsShowingConclusion(f))
    {
      isShowingConclusion := f;
    }
  }
}
