/** The `/ask` endpoint of the server (server/app/llm/ask.py): how a
    provider's reply text is cut down to a JSON object, how the object is
    normalised into a judgement, how the judgements of the configured
    providers are tallied into one verdict, and the per-provider retry
    rules. The HTTP calls themselves are replies given as inputs; the
    Python builtins the code leans on (`json.loads`, `float` on a string,
    `str` of a non-string) are the uninterpreted functions of `Builtins`. */
module Ask {
  import opened Common

  // ---------------------------------------------------------------------
  // Python values
  // ---------------------------------------------------------------------

  /** The values `json.loads` produces. Object keys are strings and keep
      their order. */
  datatype PyValue =
    | PyNone
    | PyBool(b: bool)
    | PyInt(i: int)
    | PyFloat(r: real)
    | PyStr(s: string)
    | PyList(items: seq<PyValue>)
    | PyDict(entries: seq<(string, PyValue)>)

  /** Python's truth test. */
  predicate PyTruthy(v: PyValue)
  {
    match v
    case PyNone => false
    case PyBool(b) => b
    case PyInt(i) => i != 0
    case PyFloat(r) => r != 0.0
    case PyStr(s) => s != ""
    case PyList(items) => items != []
    case PyDict(entries) => entries != []
  }

  /** `json.loads` (None when it raises), `float` of a string (None when it
      raises) and `str` of a value that is not a string. */
  datatype Builtins = Builtins(
    loads: string -> Option<PyValue>,
    parseFloat: string -> Option<real>,
    show: PyValue -> string)

  // ---------------------------------------------------------------------
  // _safe_json
  // ---------------------------------------------------------------------

  /** The line boundaries of Python's `str.splitlines`. */
  predicate IsLineBreak(c: char)
  {
    var n := c as int;
    n == 0x0A || n == 0x0D || n == 0x0B || n == 0x0C || n == 0x1C || n == 0x1D || n == 0x1E
    || n == 0x85 || n == 0x2028 || n == 0x2029
  }

  function FirstBreak(s: string): (i: nat)
    ensures i <= |s|
    ensures i < |s| ==> IsLineBreak(s[i])
    ensures forall k :: 0 <= k < i ==> !IsLineBreak(s[k])
  {
    if s == [] || IsLineBreak(s[0]) then 0 else 1 + FirstBreak(s[1..])
  }

  /** `s.splitlines()`: "\r\n" is one boundary, and a final boundary does not
      start an empty line. */
  function SplitLines(s: string): (lines: seq<string>)
    ensures forall k, m :: 0 <= k < |lines| && 0 <= m < |lines[k]| ==> !IsLineBreak(lines[k][m])
    decreases |s|
  {
    if s == [] then []
    else
      var i := FirstBreak(s);
      if i == |s| then [s]
      else
        var j := if s[i] == '\r' && i + 1 < |s| && s[i + 1] == '\n' then i + 2 else i + 1;
        [s[..i]] + SplitLines(s[j..])
  }

  const FENCE := "```"

  /** The code-fence step: text that starts with ``` loses its first line and
      the remaining lines are joined with "\n". Whether or not that first
      line names `json`, both branches in the source compute this same
      text. */
  function Unfenced(txt: string): string
  {
    if StartsWith(txt, FENCE) then
      var lines := SplitLines(txt);
      if lines == [] then "" else Join(lines[1..], "\n")
    else txt
  }

  /** Some '{' comes before some '}'. */
  predicate HasBracedPart(txt: string)
  {
    exists i, j :: 0 <= i < j < |txt| && txt[i] == '{' && txt[j] == '}'
  }

  /** `c` is the part of `txt` from its first '{' through its last '}'. */
  predicate IsOuterObject(txt: string, c: string)
  {
    exists a :: 0 <= a <= |txt| && OuterObjectAt(txt, c, a)
  }

  /** ... starting at index `a`. */
  predicate OuterObjectAt(txt: string, c: string, a: int)
  {
    0 <= a && a + |c| <= |txt| && c == txt[a..a + |c|]
    && 2 <= |c| && c[0] == '{' && c[|c| - 1] == '}'
    && (forall k :: 0 <= k < a ==> txt[k] != '{')
    && (forall k :: a + |c| <= k < |txt| ==> txt[k] != '}')
  }

  lemma FindsBrace(txt: string)
    ensures var a := Find(txt, "{");
      (a == -1 ==> forall k :: 0 <= k < |txt| ==> txt[k] != '{')
      && (a != -1 ==> 0 <= a < |txt| && txt[a] == '{' && forall k :: 0 <= k < a ==> txt[k] != '{')
  {
    var a := Find(txt, "{");
    forall k | 0 <= k < |txt| && (a == -1 || k < a)
      ensures txt[k] != '{'
    {
      if txt[k] == '{' {
        assert txt[k..k + 1] == "{";
        assert OccursAt(txt, "{", k);
      }
    }
    if a != -1 {
      assert txt[a..a + 1] == "{";
    }
  }

  /** The JSON-object slice: the first '{' through the last '}' when a '{'
      comes before a '}', and the whole text otherwise. */
  function Candidate(txt: string): (c: string)
    ensures HasBracedPart(txt) ==> IsOuterObject(txt, c)
    ensures !HasBracedPart(txt) ==> c == txt
  {
    var a, b := Find(txt, "{"), RFindChar(txt, '}');
    FindsBrace(txt);
    if a >= 0 && b > a then
      var c := txt[a..b + 1];
      assert OuterObjectAt(txt, c, a);
      c
    else
      txt
  }

  /** A reply with an object between a brace-free lead-in and a brace-free
      tail is cut down to exactly that object. */
  lemma CandidateOfWrapped(lead: string, obj: string, tail: string)
    requires forall k :: 0 <= k < |lead| ==> lead[k] != '{'
    requires forall k :: 0 <= k < |tail| ==> tail[k] != '}'
    requires 2 <= |obj| && obj[0] == '{' && obj[|obj| - 1] == '}'
    ensures Candidate(lead + obj + tail) == obj
  {
    var txt := lead + obj + tail;
    var e := |lead| + |obj|;
    assert forall k :: 0 <= k < |lead| ==> txt[k] == lead[k];
    assert forall k :: e <= k < |txt| ==> txt[k] == tail[k - e];
    assert txt[|lead|] == '{' && txt[e - 1] == '}';
    FindsBrace(txt);
    var a, b := Find(txt, "{"), RFindChar(txt, '}');
    assert a == |lead|;
    assert b == e - 1;
    assert txt[|lead|..e] == obj;
  }

  /** The characters `candidate.strip("﻿ \n\r\t")` removes. */
  predicate IsJsonPad(c: char)
  {
    c == ' ' || c == '\n' || c == '\r' || c == '\t' || c as int == 0xFEFF
  }

  datatype JsonFailure = NonText | Unparsable | NotObject

  /** `_safe_json(s)`: the entries of the object the reply holds. A failure
      to parse raises `json.loads`'s own error, the other two failures an
      HTTP 500. */
  function SafeJson(s: PyValue, loads: string -> Option<PyValue>): (r: Result<seq<(string, PyValue)>, JsonFailure>)
    ensures r == Err(NonText) <==> !s.PyStr?
    ensures s.PyStr? ==>
      var c := Candidate(Unfenced(PyStrip(s.s)));
      (r.Ok? ==> loads(c) == Some(PyDict(r.value))
                 || (loads(c).None? && loads(StripBy(c, IsJsonPad)) == Some(PyDict(r.value))))
      && (r == Err(Unparsable) <==> loads(c).None? && loads(StripBy(c, IsJsonPad)).None?)
      && (r == Err(NotObject) <==>
            (loads(c).Some? && !loads(c).value.PyDict?)
            || (loads(c).None? && loads(StripBy(c, IsJsonPad)).Some? && !loads(StripBy(c, IsJsonPad)).value.PyDict?))
  {
    if !s.PyStr? then Err(NonText)
    else
      var c := Candidate(Unfenced(PyStrip(s.s)));
      var data := if loads(c).Some? then loads(c) else loads(StripBy(c, IsJsonPad));
      match data
      case None => Err(Unparsable)
      case Some(PyDict(entries)) => Ok(entries)
      case Some(_) => Err(NotObject)
  }

  lemma SplitLinesAfterBreak(first: string, body: string)
    requires forall k :: 0 <= k < |first| ==> !IsLineBreak(first[k])
    ensures SplitLines(first + "\n" + body) == [first] + SplitLines(body)
  {
    var s := first + "\n" + body;
    assert s[|first|] == '\n';
    assert forall k :: 0 <= k < |first| ==> s[k] == first[k];
    assert FirstBreak(s) == |first|;
    assert s[..|first|] == first;
    assert s[|first| + 1..] == body;
  }

  lemma StripKeepsEnds(s: string)
    requires s != [] && !IsPyWhitespace(s[0]) && !IsPyWhitespace(s[|s| - 1])
    ensures PyStrip(s) == s
  {
    assert DropLeading(s, IsPyWhitespace) == s;
  }

  lemma SplitLinesOneLine(t: string)
    requires t != [] && forall k :: 0 <= k < |t| ==> !IsLineBreak(t[k])
    ensures SplitLines(t) == [t]
  {
    assert FirstBreak(t) == |t|;
  }

  lemma UnfencedFenced(tag: string, obj: string)
    requires forall k :: 0 <= k < |tag| ==> !IsLineBreak(tag[k])
    requires forall k :: 0 <= k < |obj| ==> !IsLineBreak(obj[k])
    ensures Unfenced(FENCE + tag + "\n" + obj + "\n" + FENCE) == obj + "\n" + FENCE
  {
    var first := FENCE + tag;
    var rest := obj + "\n" + FENCE;
    var s := first + "\n" + rest;
    assert FENCE + tag + "\n" + obj + "\n" + FENCE == s;
    assert forall k :: 0 <= k < |first| ==> first[k] == (if k < 3 then '`' else tag[k - 3]);
    assert StartsWith(s, FENCE) by {
      assert s[..3] == FENCE;
    }
    SplitLinesAfterBreak(first, rest);
    SplitLinesAfterBreak(obj, FENCE);
    SplitLinesOneLine(FENCE);
    assert SplitLines(s) == [first, obj, FENCE];
    assert Join([obj, FENCE], "\n") == obj + "\n" + FENCE;
  }

  lemma FencedStrip(tag: string, obj: string)
    ensures var s := FENCE + tag + "\n" + obj + "\n" + FENCE;
      PyStrip(s) == s
  {
    var s := FENCE + tag + "\n" + obj + "\n" + FENCE;
    assert s[0] == '`' && s[|s| - 1] == '`';
    StripKeepsEnds(s);
  }

  lemma ObjectBeforeFence(obj: string)
    requires 2 <= |obj| && obj[0] == '{' && obj[|obj| - 1] == '}'
    ensures Candidate(obj + "\n" + FENCE) == obj
  {
    assert obj + "\n" + FENCE == [] + obj + ("\n" + FENCE);
    CandidateOfWrapped([], obj, "\n" + FENCE);
  }

  /** A reply fenced as ```json (or any tag) with the object on one line is
      cut down to exactly that object. */
  lemma FencedReply(tag: string, obj: string)
    requires forall k :: 0 <= k < |tag| ==> !IsLineBreak(tag[k])
    requires forall k :: 0 <= k < |obj| ==> !IsLineBreak(obj[k]) && obj[k] != '`'
    requires 2 <= |obj| && obj[0] == '{' && obj[|obj| - 1] == '}'
    ensures Candidate(Unfenced(PyStrip(FENCE + tag + "\n" + obj + "\n" + FENCE))) == obj
  {
    FencedStrip(tag, obj);
    UnfencedFenced(tag, obj);
    ObjectBeforeFence(obj);
  }

  // ---------------------------------------------------------------------
  // _normalize_judgement and _calibrate_confidence
  // ---------------------------------------------------------------------

  datatype Verdict = VerdictTrue | VerdictFalse | VerdictUncertain

  function VerdictName(v: Verdict): string
  {
    match v
    case VerdictTrue => "TRUE"
    case VerdictFalse => "FALSE"
    case VerdictUncertain => "UNCERTAIN"
  }

  /** The membership test `verdict not in ("TRUE", "FALSE", "UNCERTAIN")`. */
  function ParseVerdict(t: string): (v: Verdict)
    ensures v != VerdictUncertain ==> VerdictName(v) == t
  {
    if t == "TRUE" then VerdictTrue
    else if t == "FALSE" then VerdictFalse
    else VerdictUncertain
  }

  /** The three names are read back as themselves and are already upper
      case, so the `.upper()` and `counts[v]` of the tally never meet a
      fourth key. */
  lemma VerdictNamesRoundTrip(v: Verdict)
    ensures ParseVerdict(VerdictName(v)) == v
    ensures Upper(VerdictName(v)) == VerdictName(v)
  {
  }

  /** `str(k).strip().lower()`. */
  function NormKey(k: string): string
  {
    Lower(PyStrip(k))
  }

  /** The entries with their keys normalised, in order. */
  function NormalizedEntries(d: seq<(string, PyValue)>): (e: seq<(string, PyValue)>)
    ensures |e| == |d| && forall i :: 0 <= i < |d| ==> e[i] == (NormKey(d[i].0), d[i].1)
  {
    seq(|d|, i requires 0 <= i < |d| => (NormKey(d[i].0), d[i].1))
  }

  /** Building a dict from `e` in order: a key seen again keeps its first
      position and takes the later value. */
  function Collect(e: seq<(string, PyValue)>): (r: Assoc<string, PyValue>)
    ensures DistinctKeys(r)
    decreases |e|
  {
    if e == [] then []
    else
      var c := Collect(e[..|e| - 1]);
      UpsertDistinct(c, e[|e| - 1].0, (_: PyValue) => e[|e| - 1].1, e[|e| - 1].1);
      Put(c, e[|e| - 1].0, e[|e| - 1].1)
  }

  /** The dict comprehension `{str(k).strip().lower(): v ...}`. */
  function LowerKeys(d: seq<(string, PyValue)>): (r: Assoc<string, PyValue>)
    ensures DistinctKeys(r)
  {
    Collect(NormalizedEntries(d))
  }

  /** The value of the LAST entry whose key is `k`. */
  function LastFor(e: seq<(string, PyValue)>, k: string): Option<PyValue>
    decreases |e|
  {
    if e == [] then None
    else if e[|e| - 1].0 == k then Some(e[|e| - 1].1)
    else LastFor(e[..|e| - 1], k)
  }

  /** `LastFor` is missing exactly when no entry has the key, and is
      otherwise the value of the last entry that has it. */
  lemma {:induction false} LastForExact(e: seq<(string, PyValue)>, k: string)
    ensures LastFor(e, k).None? <==> forall i :: 0 <= i < |e| ==> e[i].0 != k
    ensures LastFor(e, k).Some? ==> exists i :: LastEntryAt(e, k, i) && e[i].1 == LastFor(e, k).value
    decreases |e|
  {
    if e != [] {
      var last := |e| - 1;
      if e[last].0 == k {
        assert LastEntryAt(e, k, last);
      } else {
        var init := e[..last];
        LastForExact(init, k);
        assert forall i :: 0 <= i < |init| ==> e[i] == init[i];
        if LastFor(init, k).Some? {
          var i :| LastEntryAt(init, k, i) && init[i].1 == LastFor(init, k).value;
          assert LastEntryAt(e, k, i);
        }
      }
    }
  }

  /** Entry `i` is the last one whose key is `k`. */
  predicate LastEntryAt(e: seq<(string, PyValue)>, k: string, i: int)
  {
    0 <= i < |e| && e[i].0 == k && forall j :: i < j < |e| ==> e[j].0 != k
  }

  /** The dict built from `e` holds, under each key, the value of the last
      entry with that key. */
  lemma {:induction false} CollectLastWins(e: seq<(string, PyValue)>, k: string)
    ensures Lookup(Collect(e), k) == LastFor(e, k)
    decreases |e|
  {
    if e != [] {
      CollectLastWins(e[..|e| - 1], k);
      PutLookup(Collect(e[..|e| - 1]), e[|e| - 1].0, e[|e| - 1].1, k);
    }
  }

  /** So `lower.get(k)` is the value of the last entry of `data` whose key
      trims and lower-cases to `k`, and missing when there is none. */
  lemma LowerKeysLastWins(d: seq<(string, PyValue)>, k: string)
    ensures Lookup(LowerKeys(d), k) == LastFor(NormalizedEntries(d), k)
  {
    CollectLastWins(NormalizedEntries(d), k);
  }

  /** `verdict = lower.get("verdict", "UNCERTAIN")`, trimmed and upper-cased
      when it is a string, UNCERTAIN otherwise. */
  function VerdictFrom(raw: Option<PyValue>): Verdict
  {
    match raw
    case None => VerdictUncertain
    case Some(PyStr(s)) => ParseVerdict(Upper(PyStrip(s)))
    case Some(_) => VerdictUncertain
  }

  /** Integers from this magnitude on round to 2^1024 and `float(i)` raises
      `OverflowError`. */
  const FLOAT_OVERFLOW: int := Pow2(1024) - Pow2(970)

  function Pow2(k: nat): (r: nat)
    ensures r >= 1
  {
    if k == 0 then 1 else 2 * Pow2(k - 1)
  }

  /** `float(v)`; None where it raises. */
  function ToFloat(v: PyValue, parseFloat: string -> Option<real>): (r: Option<real>)
    ensures v.PyInt? ==> (r.Some? <==> -FLOAT_OVERFLOW < v.i < FLOAT_OVERFLOW)
    ensures v.PyInt? && r.Some? ==> r.value == v.i as real
  {
    match v
    case PyBool(b) => Some(if b then 1.0 else 0.0)
    case PyInt(i) => if -FLOAT_OVERFLOW < i < FLOAT_OVERFLOW then Some(i as real) else None
    case PyFloat(r) => Some(r)
    case PyStr(s) => parseFloat(s)
    case _ => None
  }

  /** `float(lower.get("confidence", 0))`, with 0.0 where it raises. */
  function RawConfidence(raw: Option<PyValue>, parseFloat: string -> Option<real>): real
  {
    match raw
    case None => 0.0
    case Some(v) => match ToFloat(v, parseFloat) case Some(x) => x case None => 0.0
  }

  /** `max(0.0, min(1.0, x))`. */
  function Clamp01(x: real): (r: real)
    ensures 0.0 <= r <= 1.0
    ensures 0.0 <= x <= 1.0 ==> r == x
    ensures x < 0.0 ==> r == 0.0
    ensures x > 1.0 ==> r == 1.0
  {
    if x < 0.0 then 0.0 else if x > 1.0 then 1.0 else x
  }

  /** `float(os.getenv("MIN_CONFIDENCE_FOR_DECISION", "0"))`, 0.0 when it
      raises. An unset variable reads as "0". */
  function FloorFrom(env: Option<string>, parseFloat: string -> Option<real>): real
  {
    match env
    case None => 0.0
    case Some(t) => match parseFloat(t) case Some(x) => x case None => 0.0
  }

  /** `_calibrate_confidence(verdict, confidence)` with the floor read. */
  function Calibrate(v: Verdict, confidence: real, floor: real): real
  {
    if v != VerdictUncertain && confidence <= 0.0 then (if floor > 0.0 then floor else 0.0)
    else Clamp01(confidence)
  }

  /** A decided verdict without confidence is raised to the floor (never
      below 0); everything else is clamped into [0, 1], so an UNCERTAIN
      confidence, or any confidence under a floor of at most 1, stays in
      [0, 1]. */
  lemma CalibrateLaws(v: Verdict, confidence: real, floor: real)
    ensures 0.0 <= Calibrate(v, confidence, floor)
    ensures v != VerdictUncertain && confidence <= 0.0 ==>
      Calibrate(v, confidence, floor) >= floor && (floor <= 0.0 ==> Calibrate(v, confidence, floor) == 0.0)
    ensures v == VerdictUncertain || confidence > 0.0 ==> Calibrate(v, confidence, floor) == Clamp01(confidence)
    ensures v == VerdictUncertain || floor <= 1.0 ==> Calibrate(v, confidence, floor) <= 1.0
    ensures floor <= 0.0 ==> Calibrate(v, confidence, floor) == Clamp01(confidence)
  {
  }

  /** The normalised judgement `{verdict, confidence, rationale}`. */
  datatype Judgement = Judgement(verdict: Verdict, confidence: real, rationale: string)

  /** `str(rationale)`, with "" when the key is missing. */
  function RationaleFrom(raw: Option<PyValue>, show: PyValue -> string): string
  {
    match raw
    case None => ""
    case Some(PyStr(s)) => s
    case Some(v) => show(v)
  }

  /** `_normalize_judgement(data)` under the confidence floor `floor`. */
  function Normalize(d: seq<(string, PyValue)>, b: Builtins, floor: real): Judgement
  {
    var lower := LowerKeys(d);
    var v := VerdictFrom(Lookup(lower, "verdict"));
    var c := Clamp01(RawConfidence(Lookup(lower, "confidence"), b.parseFloat));
    Judgement(v, Calibrate(v, c, floor), RationaleFrom(Lookup(lower, "rationale"), b.show))
  }

  /** The verdict is TRUE or FALSE exactly when the "verdict" value is a
      string that trims and upper-cases to that name. */
  lemma NormalizeVerdict(d: seq<(string, PyValue)>, b: Builtins, floor: real)
    ensures var j := Normalize(d, b, floor);
      var raw := Lookup(LowerKeys(d), "verdict");
      (j.verdict == VerdictTrue <==> exists s :: raw == Some(PyStr(s)) && Upper(PyStrip(s)) == "TRUE")
      && (j.verdict == VerdictFalse <==> exists s :: raw == Some(PyStr(s)) && Upper(PyStrip(s)) == "FALSE")
  {
  }

  /** The confidence is the clamped one, raised to the floor (or 0.0) when a
      TRUE or FALSE verdict comes with none. */
  lemma NormalizeConfidence(d: seq<(string, PyValue)>, b: Builtins, floor: real)
    ensures var j := Normalize(d, b, floor);
      var c := Clamp01(RawConfidence(Lookup(LowerKeys(d), "confidence"), b.parseFloat));
      0.0 <= j.confidence
      && (j.verdict == VerdictUncertain || floor <= 1.0 ==> j.confidence <= 1.0)
      && (j.verdict != VerdictUncertain && c == 0.0 ==> j.confidence == (if floor > 0.0 then floor else 0.0))
      && (j.verdict == VerdictUncertain || c > 0.0 ==> j.confidence == c)
  {
    var lower := LowerKeys(d);
    var v := VerdictFrom(Lookup(lower, "verdict"));
    var c := Clamp01(RawConfidence(Lookup(lower, "confidence"), b.parseFloat));
    CalibrateLaws(v, c, floor);
  }

  // ---------------------------------------------------------------------
  // Provider calls: the reply is an input
  // ---------------------------------------------------------------------

  /** One HTTP reply: an error status (at least 400) with the error code of
      its body, the text content of a successful answer (PyNone when the
      answer's content is empty or null), or a successful answer whose
      `choices[0].message.content` path lacks a key, which makes Python
      raise `KeyError`. */
  datatype ApiReply = ErrorStatus(status: int, code: string) | Content(text: PyValue) | MissingKey

  /** A successful answer's content: empty content and a `_safe_json`
      failure both end as HTTP 502 (the handlers' `except Exception`). */
  function Interpret(content: PyValue, b: Builtins, floor: real): (r: Result<Judgement, int>)
    ensures !PyTruthy(content) ==> r == Err(502)
    ensures r.Err? ==> r.error == 502
    ensures r.Ok? <==> PyTruthy(content) && SafeJson(content, b.loads).Ok?
    ensures r.Ok? ==> r.value == Normalize(SafeJson(content, b.loads).value, b, floor)
  {
    if !PyTruthy(content) then Err(502)
    else match SafeJson(content, b.loads)
      case Ok(d) => Ok(Normalize(d, b, floor))
      case Err(_) => Err(502)
  }

  datatype GeminiTry = NotFound | Finished(outcome: Result<Judgement, int>)

  /** One `_try_once` of `call_gemini`: 404 raises the NOT_FOUND KeyError,
      another error status becomes that status. */
  function GeminiOnce(reply: ApiReply, b: Builtins, floor: real): GeminiTry
  {
    match reply
    case ErrorStatus(st, _) => if st == 404 then NotFound else Finished(Err(st))
    case Content(c) => Finished(Interpret(c, b, floor))
    case MissingKey => Finished(Err(502))
  }

  const LATEST := "-latest"

  /** `call_gemini(model_id, claim)` against the replies `reply` gives per
      model id: the outcome and the model ids tried, in order. */
  function CallGemini(modelId: string, reply: string -> ApiReply, b: Builtins, floor: real)
    : (r: (Result<Judgement, int>, seq<string>))
    ensures r.1 == [modelId] || r.1 == [modelId, modelId + LATEST]
    ensures |r.1| == 2 <==> GeminiOnce(reply(modelId), b, floor).NotFound? && !EndsWith(modelId, LATEST)
    ensures GeminiOnce(reply(modelId), b, floor).Finished? ==> r.0 == GeminiOnce(reply(modelId), b, floor).outcome
    ensures |r.1| == 2 && GeminiOnce(reply(modelId + LATEST), b, floor).Finished? ==>
      r.0 == GeminiOnce(reply(modelId + LATEST), b, floor).outcome
    ensures r.0 != Err(404)
  {
    match GeminiOnce(reply(modelId), b, floor)
    case Finished(o) => (o, [modelId])
    case NotFound =>
      if EndsWith(modelId, LATEST) then (Err(502), [modelId])
      else
        var second := modelId + LATEST;
        match GeminiOnce(reply(second), b, floor)
        case Finished(o) => (o, [modelId, second])
        case NotFound => (Err(502), [modelId, second])
  }

  const DEFAULT_GEMINI := "gemini-1.5-flash-latest"
  const DEFAULT_GROQ := "llama-3.1-70b-versatile"

  /** The default Gemini model already ends in "-latest", so it is never
      retried. */
  lemma DefaultGeminiNotRetried(reply: string -> ApiReply, b: Builtins, floor: real)
    ensures CallGemini(DEFAULT_GEMINI, reply, b, floor).1 == [DEFAULT_GEMINI]
  {
    assert EndsWith(DEFAULT_GEMINI, LATEST);
  }

  const GROQ_FALLBACKS := ["llama-3.3-70b-versatile", "llama-3.1-8b-instant", "mixtral-8x7b-32768"]

  /** A 400 whose body says the model is decommissioned or unknown. */
  predicate Retired(reply: ApiReply)
  {
    reply.ErrorStatus? && reply.status == 400
    && (reply.code == "model_decommissioned" || reply.code == "model_not_found")
  }

  /** An attempt that raises no KeyError: an error status is passed on,
      and content that cannot be read is a 502. */
  function GroqOutcome(reply: ApiReply, b: Builtins, floor: real): Result<Judgement, int>
  {
    match reply
    case ErrorStatus(st, _) => Err(st)
    case Content(c) => Interpret(c, b, floor)
    case MissingKey => Err(502)
  }

  /** The replies on which `_try_once` raises `KeyError` as written: only a
      missing key in the payload, since the retirement KeyError is
      swallowed by the `except Exception: pass` around it. */
  predicate KeyErrorAsWritten(reply: ApiReply)
  {
    reply.MissingKey?
  }

  /** The replies on which `_try_once` was meant to raise `KeyError`: a
      retired model as well as a missing key. */
  predicate KeyErrorIntended(reply: ApiReply)
  {
    reply.MissingKey? || Retired(reply)
  }

  /** The fallback loop: models whose attempt raises KeyError (`skip`) are
      passed over, the first other reply decides, and 502 when every
      fallback raised KeyError. */
  function TryFallbacks(alts: seq<string>, reply: string -> ApiReply, skip: ApiReply -> bool, b: Builtins, floor: real)
    : (r: (Result<Judgement, int>, seq<string>))
    ensures |r.1| <= |alts| && r.1 == alts[..|r.1|]
    ensures forall k :: 0 <= k < |r.1| - 1 ==> skip(reply(r.1[k]))
    ensures r.1 != [] && !skip(reply(r.1[|r.1| - 1])) ==> r.0 == GroqOutcome(reply(r.1[|r.1| - 1]), b, floor)
    ensures (forall k :: 0 <= k < |r.1| ==> skip(reply(r.1[k]))) ==> r.1 == alts && r.0 == Err(502)
    decreases |alts|
  {
    if alts == [] then (Err(502), [])
    else if skip(reply(alts[0])) then
      var rest := TryFallbacks(alts[1..], reply, skip, b, floor);
      (rest.0, [alts[0]] + rest.1)
    else (GroqOutcome(reply(alts[0]), b, floor), [alts[0]])
  }

  /** `call_groq` as written: the retirement KeyError is raised inside a
      `try` whose `except Exception: pass` swallows it, so
      `raise_for_status` turns the 400 into an HTTP 400 and no fallback is
      tried. Only a payload with a missing key reaches the fallback loop,
      where a retired fallback again ends the call with its 400. */
  function CallGroqAsWritten(modelId: string, reply: string -> ApiReply, b: Builtins, floor: real)
    : (r: (Result<Judgement, int>, seq<string>))
    ensures r.1 != [] && r.1[0] == modelId && |r.1| <= 1 + |GROQ_FALLBACKS|
    ensures !reply(modelId).MissingKey? ==> r == (GroqOutcome(reply(modelId), b, floor), [modelId])
    ensures Retired(reply(modelId)) ==> r == (Err(400), [modelId])
    ensures reply(modelId).MissingKey? ==>
      r.1[1..] == GROQ_FALLBACKS[..|r.1| - 1] && (forall k :: 1 <= k < |r.1| - 1 ==> reply(r.1[k]).MissingKey?)
  {
    if KeyErrorAsWritten(reply(modelId)) then
      var rest := TryFallbacks(GROQ_FALLBACKS, reply, KeyErrorAsWritten, b, floor);
      (rest.0, [modelId] + rest.1)
    else (GroqOutcome(reply(modelId), b, floor), [modelId])
  }

  /** `call_groq` as evidently intended: a retired model, like a payload
      with a missing key, falls back to the listed models in order. */
  function CallGroq(modelId: string, reply: string -> ApiReply, b: Builtins, floor: real)
    : (r: (Result<Judgement, int>, seq<string>))
    ensures r.1 != [] && r.1[0] == modelId && |r.1| <= 1 + |GROQ_FALLBACKS|
    ensures !KeyErrorIntended(reply(modelId)) ==> r == (GroqOutcome(reply(modelId), b, floor), [modelId])
    ensures KeyErrorIntended(reply(modelId)) ==>
      r.1[1..] == GROQ_FALLBACKS[..|r.1| - 1] && (forall k :: 1 <= k < |r.1| - 1 ==> KeyErrorIntended(reply(r.1[k])))
  {
    if KeyErrorIntended(reply(modelId)) then
      var rest := TryFallbacks(GROQ_FALLBACKS, reply, KeyErrorIntended, b, floor);
      (rest.0, [modelId] + rest.1)
    else (GroqOutcome(reply(modelId), b, floor), [modelId])
  }

  /** As written, a retired model ends the call with HTTP 400 after one
      attempt, whatever the fallback models would have answered. */
  lemma GroqRetiredModelFails(modelId: string, reply: string -> ApiReply, b: Builtins, floor: real)
    requires Retired(reply(modelId))
    ensures CallGroqAsWritten(modelId, reply, b, floor) == (Err(400), [modelId])
  {
  }

  /** The first fallback's answer after two attempts, whenever the first
      model's attempt raised KeyError under `skip` and the first fallback's
      did not. */
  lemma {:induction false} FirstFallbackAnswers(reply: string -> ApiReply, skip: ApiReply -> bool, b: Builtins, floor: real)
    requires !skip(reply(GROQ_FALLBACKS[0]))
    ensures TryFallbacks(GROQ_FALLBACKS, reply, skip, b, floor)
      == (GroqOutcome(reply(GROQ_FALLBACKS[0]), b, floor), [GROQ_FALLBACKS[0]])
  {
    var alt := GROQ_FALLBACKS[0];
    var t := TryFallbacks(GROQ_FALLBACKS, reply, skip, b, floor);
    assert GROQ_FALLBACKS[0] == alt && !skip(reply(alt));
    assert t.1 == [alt];
    assert t.1[|t.1| - 1] == alt;
  }

  /** As written, a payload with a missing key does reach the fallbacks:
      a working first fallback answers on the second attempt. */
  lemma {:induction false} GroqMissingKeyFallsBack(modelId: string, reply: string -> ApiReply, b: Builtins, floor: real)
    requires reply(modelId).MissingKey? && !reply(GROQ_FALLBACKS[0]).MissingKey?
    ensures CallGroqAsWritten(modelId, reply, b, floor)
      == (GroqOutcome(reply(GROQ_FALLBACKS[0]), b, floor), [modelId, GROQ_FALLBACKS[0]])
  {
    FirstFallbackAnswers(reply, KeyErrorAsWritten, b, floor);
    assert [modelId] + [GROQ_FALLBACKS[0]] == [modelId, GROQ_FALLBACKS[0]];
  }

  /** As intended, a retired model with the first fallback available gets
      that fallback's answer after two attempts. */
  lemma {:induction false} GroqRetiredModelFallsBack(modelId: string, reply: string -> ApiReply, b: Builtins, floor: real)
    requires Retired(reply(modelId)) && !KeyErrorIntended(reply(GROQ_FALLBACKS[0]))
    ensures CallGroq(modelId, reply, b, floor)
      == (GroqOutcome(reply(GROQ_FALLBACKS[0]), b, floor), [modelId, GROQ_FALLBACKS[0]])
  {
    FirstFallbackAnswers(reply, KeyErrorIntended, b, floor);
    assert [modelId] + [GROQ_FALLBACKS[0]] == [modelId, GROQ_FALLBACKS[0]];
  }

  /** `call_ollama(model_id, claim)`: an unset OLLAMA_HOST_URL is an HTTP
      500 raised before any request; an error status (a failed connection
      is the reply `ErrorStatus(504, _)`) is passed on, and every failure to
      read the content is a 502. */
  function CallOllama(hostUrl: Option<string>, reply: ApiReply, b: Builtins, floor: real): (r: Result<Judgement, int>)
    ensures !IsSet(hostUrl) ==> r == Err(500)
    ensures IsSet(hostUrl) && reply.ErrorStatus? ==> r == Err(reply.status)
    ensures IsSet(hostUrl) && !reply.ErrorStatus? && r.Err? ==> r.error == 502
    ensures IsSet(hostUrl) && reply.MissingKey? ==> r == Err(502)
    ensures IsSet(hostUrl) && reply.Content? && r.Ok? ==>
      SafeJson(reply.text, b.loads).Ok? && r.value == Normalize(SafeJson(reply.text, b.loads).value, b, floor)
  {
    if !IsSet(hostUrl) then Err(500) else GroqOutcome(reply, b, floor)
  }

  // ---------------------------------------------------------------------
  // ask_llm
  // ---------------------------------------------------------------------

  datatype HttpError = HttpError(status: int, detail: string)

  const TEXT_REQUIRED := "text is required"
  const NO_PROVIDERS := "No providers configured. Set OLLAMA_MODEL or GEMINI_API_KEY or GROQ_API_KEY"

  /** The environment variables the endpoint reads. */
  datatype Env = Env(
    ollamaModel: Option<string>,
    geminiModel: Option<string>,
    groqModel: Option<string>,
    geminiKey: Option<string>,
    groqKey: Option<string>,
    minConfidence: Option<string>)

  /** A variable that is set to a non-empty value. */
  predicate IsSet(v: Option<string>)
  {
    v.Some? && v.value != ""
  }

  /** `os.getenv(name) or default`. */
  function OrDefault(v: Option<string>, default: string): (r: string)
    ensures IsSet(v) ==> r == v.value
    ensures !IsSet(v) ==> r == default
  {
    if IsSet(v) then v.value else default
  }

  datatype Provider = Ollama | Gemini | Groq

  /** One task of the panel: the provider, the model id, and the name its
      result carries. */
  datatype ProviderCall = ProviderCall(provider: Provider, modelId: string, name: string)

  function ProviderPrefix(p: Provider): string
  {
    match p
    case Ollama => "ollama:"
    case Gemini => "gemini:"
    case Groq => "groq:"
  }

  function ProvidersOf(calls: seq<ProviderCall>): (ps: seq<Provider>)
    ensures |ps| == |calls| && forall k :: 0 <= k < |calls| ==> ps[k] == calls[k].provider
  {
    seq(|calls|, k requires 0 <= k < |calls| => calls[k].provider)
  }

  /** The call for provider `p` with model `model`, when it is enabled. */
  function OptionalCall(enabled: bool, p: Provider, model: string): (c: seq<ProviderCall>)
    ensures enabled ==> c == [ProviderCall(p, model, ProviderPrefix(p) + model)]
    ensures !enabled ==> c == []
  {
    if enabled then [ProviderCall(p, model, ProviderPrefix(p) + model)] else []
  }

  /** The panel in task order: Ollama when OLLAMA_MODEL is set, Gemini and
      Groq when their keys are set, with their default models. */
  function PlannedCalls(env: Env): seq<ProviderCall>
  {
    OptionalCall(IsSet(env.ollamaModel), Ollama, OrDefault(env.ollamaModel, ""))
    + OptionalCall(IsSet(env.geminiKey), Gemini, OrDefault(env.geminiModel, DEFAULT_GEMINI))
    + OptionalCall(IsSet(env.groqKey), Groq, OrDefault(env.groqModel, DEFAULT_GROQ))
  }

  /** The model a provider of the panel runs. */
  function ModelFor(env: Env, p: Provider): string
  {
    match p
    case Ollama => OrDefault(env.ollamaModel, "")
    case Gemini => OrDefault(env.geminiModel, DEFAULT_GEMINI)
    case Groq => OrDefault(env.groqModel, DEFAULT_GROQ)
  }

  /** The panel is empty exactly when no provider is configured; it lists
      the enabled providers in the order Ollama, Gemini, Groq; every call is
      named by its provider's prefix and its model, and runs OLLAMA_MODEL,
      GEMINI_MODEL or GROQ_MODEL, or the defaults. */
  lemma PlannedCallsLaws(env: Env)
    ensures PlannedCalls(env) == [] <==> !IsSet(env.ollamaModel) && !IsSet(env.geminiKey) && !IsSet(env.groqKey)
    ensures ProvidersOf(PlannedCalls(env)) == (if IsSet(env.ollamaModel) then [Ollama] else [])
      + (if IsSet(env.geminiKey) then [Gemini] else []) + (if IsSet(env.groqKey) then [Groq] else [])
    ensures forall k :: 0 <= k < |PlannedCalls(env)| ==>
      var c := PlannedCalls(env)[k];
      c.modelId == ModelFor(env, c.provider) && c.name == ProviderPrefix(c.provider) + c.modelId
    ensures IsSet(env.ollamaModel) ==> ModelFor(env, Ollama) == env.ollamaModel.value
  {
    var a := OptionalCall(IsSet(env.ollamaModel), Ollama, OrDefault(env.ollamaModel, ""));
    var b := OptionalCall(IsSet(env.geminiKey), Gemini, OrDefault(env.geminiModel, DEFAULT_GEMINI));
    var c := OptionalCall(IsSet(env.groqKey), Groq, OrDefault(env.groqModel, DEFAULT_GROQ));
    var calls := PlannedCalls(env);
    assert calls == a + b + c;
    var ps := (if IsSet(env.ollamaModel) then [Ollama] else [])
      + (if IsSet(env.geminiKey) then [Gemini] else []) + (if IsSet(env.groqKey) then [Groq] else []);
    assert |ps| == |calls|;
    forall k | 0 <= k < |calls|
      ensures ProvidersOf(calls)[k] == ps[k]
      ensures calls[k].modelId == ModelFor(env, calls[k].provider)
      ensures calls[k].name == ProviderPrefix(calls[k].provider) + calls[k].modelId
    {
      if k < |a| {
        assert calls[k] == a[k];
      } else if k < |a| + |b| {
        assert calls[k] == b[k - |a|];
      } else {
        assert calls[k] == c[k - |a| - |b|];
      }
    }
  }

  /** The guards of `ask_llm`: the trimmed claim and the panel, or the
      error. */
  function CheckRequest(text: string, env: Env): (r: Result<(string, seq<ProviderCall>), HttpError>)
    ensures PyStrip(text) == "" ==> r == Err(HttpError(400, TEXT_REQUIRED))
    ensures PyStrip(text) != "" && PlannedCalls(env) == [] ==> r == Err(HttpError(500, NO_PROVIDERS))
    ensures r.Ok? <==> PyStrip(text) != "" && PlannedCalls(env) != []
    ensures r.Ok? ==> r.value.0 == PyStrip(text) && r.value.1 == PlannedCalls(env)
    ensures r.Ok? ==> !IsPyWhitespace(r.value.0[0]) && !IsPyWhitespace(r.value.0[|r.value.0| - 1])
  {
    var claim := PyStrip(text);
    if claim == "" then Err(HttpError(400, TEXT_REQUIRED))
    else if PlannedCalls(env) == [] then Err(HttpError(500, NO_PROVIDERS))
    else Ok((claim, PlannedCalls(env)))
  }

  /** A panel entry: `{"provider", **judgement}` or `{"provider", "error"}`.
      The error entry records the HTTP status. */
  datatype ProviderResult = Judged(provider: string, judgement: Judgement) | Errored(provider: string, status: int)

  /** `_wrap(name, call)`. */
  function Wrap(name: string, outcome: Result<Judgement, int>): (r: ProviderResult)
    ensures r.provider == name
    ensures r.Judged? <==> outcome.Ok?
    ensures r.Judged? ==> r.judgement == outcome.value
    ensures r.Errored? ==> r.status == outcome.error
  {
    match outcome
    case Ok(j) => Judged(name, j)
    case Err(st) => Errored(name, st)
  }

  datatype Counts = Counts(trueCount: nat, falseCount: nat, uncertainCount: nat)

  function CountOf(c: Counts, v: Verdict): nat
  {
    match v
    case VerdictTrue => c.trueCount
    case VerdictFalse => c.falseCount
    case VerdictUncertain => c.uncertainCount
  }

  function Bump(c: Counts, v: Verdict): Counts
  {
    match v
    case VerdictTrue => c.(trueCount := c.trueCount + 1)
    case VerdictFalse => c.(falseCount := c.falseCount + 1)
    case VerdictUncertain => c.(uncertainCount := c.uncertainCount + 1)
  }

  /** `counts` after the loop has seen `rs`. */
  function CountsOf(rs: seq<ProviderResult>): Counts
    decreases |rs|
  {
    if rs == [] then Counts(0, 0, 0)
    else
      var c := CountsOf(rs[..|rs| - 1]);
      var r := rs[|rs| - 1];
      if r.Errored? then c else Bump(c, r.judgement.verdict)
  }

  /** `confs` after the loop has seen `rs`. */
  function ConfidencesOf(rs: seq<ProviderResult>): seq<real>
    decreases |rs|
  {
    if rs == [] then []
    else
      var r := rs[|rs| - 1];
      ConfidencesOf(rs[..|rs| - 1]) + (if r.Errored? then [] else [r.judgement.confidence])
  }

  function Tagged(r: ProviderResult): string
    requires r.Judged?
  {
    "[" + r.provider + "] " + r.judgement.rationale
  }

  /** `rationales` after the loop has seen `rs`. */
  function RationalesOf(rs: seq<ProviderResult>): seq<string>
    decreases |rs|
  {
    if rs == [] then []
    else
      var r := rs[|rs| - 1];
      RationalesOf(rs[..|rs| - 1]) + (if r.Judged? && r.judgement.rationale != "" then [Tagged(r)] else [])
  }

  /** The votes for `v`, counted from the front: an independent account of
      the same tally. */
  function Votes(rs: seq<ProviderResult>, v: Verdict): nat
    decreases |rs|
  {
    if rs == [] then 0
    else (if rs[0].Judged? && rs[0].judgement.verdict == v then 1 else 0) + Votes(rs[1..], v)
  }

  /** The number of panel entries without an error. */
  function Answered(rs: seq<ProviderResult>): nat
    decreases |rs|
  {
    if rs == [] then 0 else (if rs[0].Judged? then 1 else 0) + Answered(rs[1..])
  }

  lemma {:induction false} VotesAppend(rs: seq<ProviderResult>, r: ProviderResult, v: Verdict)
    ensures Votes(rs + [r], v) == Votes(rs, v) + (if r.Judged? && r.judgement.verdict == v then 1 else 0)
    ensures Answered(rs + [r]) == Answered(rs) + (if r.Judged? then 1 else 0)
    decreases |rs|
  {
    if rs != [] {
      assert (rs + [r])[1..] == rs[1..] + [r];
      VotesAppend(rs[1..], r, v);
    }
  }

  /** Each count is the number of answered entries with that verdict, the
      errored entries count for nothing, and there is one confidence per
      answered entry and at most one rationale. */
  lemma {:induction false} TallyCounts(rs: seq<ProviderResult>)
    ensures forall v :: CountOf(CountsOf(rs), v) == Votes(rs, v)
    ensures |ConfidencesOf(rs)| == Answered(rs)
    ensures CountsOf(rs).trueCount + CountsOf(rs).falseCount + CountsOf(rs).uncertainCount == Answered(rs)
    ensures |RationalesOf(rs)| <= Answered(rs)
    decreases |rs|
  {
    if rs != [] {
      var init, r := rs[..|rs| - 1], rs[|rs| - 1];
      assert rs == init + [r];
      TallyCounts(init);
      forall v: Verdict
        ensures CountOf(CountsOf(rs), v) == Votes(rs, v)
      {
        VotesAppend(init, r, v);
      }
      VotesAppend(init, r, VerdictTrue);
    }
  }

  /** Python's tuple order on the key `(count, name == "UNCERTAIN")`. */
  predicate KeyAbove(a: (Verdict, nat), b: (Verdict, nat))
  {
    a.1 > b.1 || (a.1 == b.1 && a.0 == VerdictUncertain && b.0 != VerdictUncertain)
  }

  /** Python's `max(items, key=...)`: of several maximal items the first
      is kept. */
  function MaxByKey(items: seq<(Verdict, nat)>): (m: (Verdict, nat))
    requires items != []
    ensures forall k :: 0 <= k < |items| ==> !KeyAbove(items[k], m)
    decreases |items|
  {
    if |items| == 1 then items[0]
    else
      var best := MaxByKey(items[..|items| - 1]);
      var last := items[|items| - 1];
      assert forall k :: 0 <= k < |items| - 1 ==> items[k] == items[..|items| - 1][k];
      if KeyAbove(last, best) then last else best
  }

  /** `m` sits at index `i` and beats every item before it. */
  predicate FirstMaximumAt(items: seq<(Verdict, nat)>, m: (Verdict, nat), i: int)
  {
    0 <= i < |items| && items[i] == m && forall k :: 0 <= k < i ==> KeyAbove(m, items[k])
  }

  /** Of several maximal items `MaxByKey` keeps the first: the one it
      returns beats every item before it. */
  lemma {:induction false} MaxByKeyKeepsFirst(items: seq<(Verdict, nat)>)
    requires items != []
    ensures exists i :: FirstMaximumAt(items, MaxByKey(items), i)
    decreases |items|
  {
    var m := MaxByKey(items);
    if |items| == 1 {
      assert FirstMaximumAt(items, m, 0);
    } else {
      var init := items[..|items| - 1];
      var best := MaxByKey(init);
      MaxByKeyKeepsFirst(init);
      var i :| FirstMaximumAt(init, best, i);
      assert forall k :: 0 <= k < |init| ==> items[k] == init[k];
      if KeyAbove(items[|items| - 1], best) {
        assert FirstMaximumAt(items, m, |items| - 1);
      } else {
        assert FirstMaximumAt(items, m, i);
      }
    }
  }

  /** `final` for the counts, the items taken in the order TRUE, FALSE,
      UNCERTAIN of the `counts` dict. */
  function FinalVerdict(c: Counts): Verdict
  {
    MaxByKey([(VerdictTrue, c.trueCount), (VerdictFalse, c.falseCount), (VerdictUncertain, c.uncertainCount)]).0
  }

  /** The most frequent verdict wins; a tie that includes UNCERTAIN goes to
      UNCERTAIN, and a TRUE/FALSE tie to TRUE. With no answers at all the
      verdict is UNCERTAIN. */
  lemma FinalVerdictRules(c: Counts)
    ensures FinalVerdict(c) == VerdictUncertain <==> c.uncertainCount >= c.trueCount && c.uncertainCount >= c.falseCount
    ensures FinalVerdict(c) == VerdictTrue <==> c.trueCount >= c.falseCount && c.trueCount > c.uncertainCount
    ensures FinalVerdict(c) == VerdictFalse <==> c.falseCount > c.trueCount && c.falseCount > c.uncertainCount
    ensures forall v :: CountOf(c, v) <= CountOf(c, FinalVerdict(c))
  {
    var items := [(VerdictTrue, c.trueCount), (VerdictFalse, c.falseCount), (VerdictUncertain, c.uncertainCount)];
    var m := MaxByKey(items);
    MaxByKeyKeepsFirst(items);
    var i :| FirstMaximumAt(items, m, i);
    assert !KeyAbove(items[0], m) && !KeyAbove(items[1], m) && !KeyAbove(items[2], m);
  }

  /** A panel where every provider failed votes UNCERTAIN. */
  lemma {:induction false} AllErroredIsUncertain(rs: seq<ProviderResult>)
    requires forall k :: 0 <= k < |rs| ==> rs[k].Errored?
    ensures CountsOf(rs) == Counts(0, 0, 0)
    ensures FinalVerdict(CountsOf(rs)) == VerdictUncertain
    decreases |rs|
  {
    if rs != [] {
      AllErroredIsUncertain(rs[..|rs| - 1]);
    }
    FinalVerdictRules(CountsOf(rs));
  }

  const NO_RATIONALE := "No rationale available."

  /** `" | ".join(rationales[:3])`, or the fixed text when there are none. */
  function Explanation(rationales: seq<string>): (e: string)
    ensures rationales == [] ==> e == NO_RATIONALE
    ensures rationales != [] ==> StartsWith(e, rationales[0])
    ensures 1 <= |rationales| <= 3 ==> e == Join(rationales, " | ")
  {
    if rationales == [] then NO_RATIONALE
    else
      var shown := if |rationales| > 3 then rationales[..3] else rationales;
      JoinStartsWithFirst(shown, " | ");
      Join(shown, " | ")
  }

  lemma {:induction false} JoinStartsWithFirst(parts: seq<string>, sep: string)
    requires parts != []
    ensures StartsWith(Join(parts, sep), parts[0])
  {
    var j := Join(parts, sep);
    if |parts| > 1 {
      assert j == parts[0] + (sep + Join(parts[1..], sep));
    }
    assert j[..|parts[0]|] == parts[0];
  }

  lemma {:induction false} RationalesAreTagged(rs: seq<ProviderResult>)
    ensures forall k :: 0 <= k < |RationalesOf(rs)| ==> StartsWith(RationalesOf(rs)[k], "[")
    ensures RationalesOf(rs) == [] <==> forall k :: 0 <= k < |rs| ==> rs[k].Errored? || rs[k].judgement.rationale == ""
    decreases |rs|
  {
    if rs != [] {
      var init, r := rs[..|rs| - 1], rs[|rs| - 1];
      RationalesAreTagged(init);
      if r.Judged? && r.judgement.rationale != "" {
        assert Tagged(r)[..1] == "[";
      }
      forall k | 0 <= k < |init|
        ensures init[k] == rs[k]
      {
      }
    }
  }

  lemma TaggedExplanation(rats: seq<string>)
    requires forall k :: 0 <= k < |rats| ==> StartsWith(rats[k], "[")
    ensures Explanation(rats) == NO_RATIONALE <==> rats == []
  {
    if rats != [] {
      var e := Explanation(rats);
      assert StartsWith(e, rats[0]) && StartsWith(rats[0], "[");
      assert e[0] == rats[0][0] == '[';
      assert NO_RATIONALE[0] == 'N';
    }
  }

  /** The explanation is the fixed text exactly when no answer carried a
      rationale, since every collected rationale starts with its "[provider]"
      tag. */
  lemma ExplanationFallback(rs: seq<ProviderResult>)
    ensures Explanation(RationalesOf(rs)) == NO_RATIONALE
      <==> forall k :: 0 <= k < |rs| ==> rs[k].Errored? || rs[k].judgement.rationale == ""
  {
    RationalesAreTagged(rs);
    TaggedExplanation(RationalesOf(rs));
  }

  function Sum(xs: seq<real>): real
    decreases |xs|
  {
    if xs == [] then 0.0 else Sum(xs[..|xs| - 1]) + xs[|xs| - 1]
  }

  /** `sum(confs) / max(len(confs), 1)`, before rounding. */
  function Mean(xs: seq<real>): real
  {
    Sum(xs) / (if |xs| > 1 then |xs| as real else 1.0)
  }

  datatype AskResponse = AskResponse(query: string, verdict: Verdict, score: real, explanation: string, panel: seq<ProviderResult>)

  /** The tally loop of `ask_llm` and the response built from it. */
  method Aggregate(claim: string, results: seq<ProviderResult>) returns (resp: AskResponse)
    ensures resp.query == claim && resp.panel == results
    ensures resp.verdict == FinalVerdict(CountsOf(results))
    ensures resp.score == Mean(ConfidencesOf(results))
    ensures resp.explanation == Explanation(RationalesOf(results))
  {
    var counts := Counts(0, 0, 0);
    var confs: seq<real> := [];
    var rationales: seq<string> := [];
    var i := 0;
    while i < |results|
      invariant 0 <= i <= |results|
      invariant counts == CountsOf(results[..i])
      invariant confs == ConfidencesOf(results[..i])
      invariant rationales == RationalesOf(results[..i])
    {
      var r := results[i];
      assert results[..i + 1][..i] == results[..i];
      if r.Judged? {
        counts := Bump(counts, r.judgement.verdict);
        confs := confs + [r.judgement.confidence];
        if r.judgement.rationale != "" {
          rationales := rationales + ["[" + r.provider + "] " + r.judgement.rationale];
        }
      }
      i := i + 1;
    }
    assert results[..i] == results;
    var final := MaxByKey([(VerdictTrue, counts.trueCount), (VerdictFalse, counts.falseCount),
                           (VerdictUncertain, counts.uncertainCount)]).0;
    var score := Sum(confs) / (if |confs| > 1 then |confs| as real else 1.0);
    var explanation := if rationales == [] then NO_RATIONALE
                       else Join(if |rationales| > 3 then rationales[..3] else rationales, " | ");
    resp := AskResponse(claim, final, score, explanation, results);
  }
}
