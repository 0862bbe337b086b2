/** The transcript panel (front/src/components/views/ExtractView.jsx): the
    text is cut into sentences with `split(/(?<=[.!?])\s+/)`, and a
    placeholder is shown while there is nothing to cut. */
module ExtractView {
  import opened Common
  import opened JsValues

  predicate IsSentenceEnd(c: char)
  {
    c == '.' || c == '!' || c == '?'
  }

  /** The regex matches at `q`: a whitespace character right after a
      sentence end. */
  predicate SplitPoint(s: string, q: int)
  {
    1 <= q < |s| && IsSentenceEnd(s[q - 1]) && IsJsWhitespace(s[q])
  }

  /** The first match position at or after `from`, or -1. */
  function FirstSplit(s: string, from: nat): (q: int)
    requires from <= |s|
    ensures q == -1 || (from <= q && SplitPoint(s, q))
    ensures q == -1 ==> forall i :: from <= i < |s| ==> !SplitPoint(s, i)
    ensures q != -1 ==> forall i :: from <= i < q ==> !SplitPoint(s, i)
    decreases |s| - from
  {
    if from == |s| then -1
    else if SplitPoint(s, from) then from
    else FirstSplit(s, from + 1)
  }

  /** Where the greedy `\s+` starting at `q` stops. */
  function RunEnd(s: string, q: nat): (e: nat)
    requires q <= |s|
    ensures q <= e <= |s|
    ensures forall i :: q <= i < e ==> IsJsWhitespace(s[i])
    ensures e < |s| ==> !IsJsWhitespace(s[e])
    ensures q < |s| && IsJsWhitespace(s[q]) ==> q < e
    decreases |s| - q
  {
    if q < |s| && IsJsWhitespace(s[q]) then RunEnd(s, q + 1) else q
  }

  /** The pieces `split` returns, and the whitespace runs it removed between
      them. */
  function SplitSentences(s: string): (r: (seq<string>, seq<string>))
    ensures |r.0| == |r.1| + 1
    decreases |s|
  {
    var q := FirstSplit(s, 0);
    if q == -1 then ([s], [])
    else
      var e := RunEnd(s, q);
      var rest := SplitSentences(s[e..]);
      ([s[..q]] + rest.0, [s[q..e]] + rest.1)
  }

  /** The chunks with the removed runs put back between them. */
  function Interleave(chunks: seq<string>, seps: seq<string>): string
    requires |chunks| == |seps| + 1
    decreases |seps|
  {
    if seps == [] then chunks[0] else chunks[0] + seps[0] + Interleave(chunks[1..], seps[1..])
  }

  predicate AllWhitespace(w: string)
  {
    forall i :: 0 <= i < |w| ==> IsJsWhitespace(w[i])
  }

  /** Putting the removed runs back between the chunks restores the text. */
  lemma {:induction false} SplitRejoins(s: string)
    ensures Interleave(SplitSentences(s).0, SplitSentences(s).1) == s
    decreases |s|
  {
    var q := FirstSplit(s, 0);
    if q != -1 {
      var e := RunEnd(s, q);
      var rest := SplitSentences(s[e..]);
      SplitRejoins(s[e..]);
      var r := SplitSentences(s);
      assert r.0[0] == s[..q] && r.1[0] == s[q..e];
      assert r.0[1..] == rest.0 && r.1[1..] == rest.1;
      assert s == s[..q] + s[q..e] + s[e..];
    }
  }

  /** The text is cut only right after a sentence end, and only at maximal
      non-empty whitespace runs: every chunk but the last ends with '.', '!'
      or '?', every removed run is whitespace, and the chunk after a run does
      not start with whitespace. */
  predicate CutsAtSentenceEnds(chunks: seq<string>, seps: seq<string>)
    requires |chunks| == |seps| + 1
  {
    (forall k :: 0 <= k < |seps| ==> seps[k] != [] && AllWhitespace(seps[k]))
    && (forall k :: 0 <= k < |seps| ==> chunks[k] != [] && IsSentenceEnd(chunks[k][|chunks[k]| - 1]))
    && (forall k :: 0 < k < |chunks| ==> chunks[k] == [] || !IsJsWhitespace(chunks[k][0]))
  }

  lemma {:induction false} SplitCutsAtSentenceEnds(s: string)
    ensures CutsAtSentenceEnds(SplitSentences(s).0, SplitSentences(s).1)
    decreases |s|
  {
    var q := FirstSplit(s, 0);
    if q != -1 {
      var e := RunEnd(s, q);
      var rest := SplitSentences(s[e..]);
      SplitCutsAtSentenceEnds(s[e..]);
      assert CutsAtSentenceEnds(rest.0, rest.1);
      var r := SplitSentences(s);
      assert r.0 == [s[..q]] + rest.0 && r.1 == [s[q..e]] + rest.1;
      forall k | 0 < k < |r.0|
        ensures r.0[k] == [] || !IsJsWhitespace(r.0[k][0])
      {
        assert r.0[k] == rest.0[k - 1];
        if k == 1 && rest.0[0] != [] {
          assert rest.0[0][0] == s[e];
        }
      }
      forall k | 0 <= k < |r.1|
        ensures r.1[k] != [] && AllWhitespace(r.1[k])
        ensures r.0[k] != [] && IsSentenceEnd(r.0[k][|r.0[k]| - 1])
      {
        if k > 0 {
          assert r.1[k] == rest.1[k - 1] && r.0[k] == rest.0[k - 1];
        } else {
          assert r.1[0] == s[q..e] && r.0[0] == s[..q];
          assert s[..q][q - 1] == s[q - 1];
        }
      }
    }
  }

  /** No chunk contains a place where the regex would have cut. */
  predicate NoSplitPointIn(chunks: seq<string>)
  {
    forall k, p :: 0 <= k < |chunks| && 0 <= p < |chunks[k]| ==> !SplitPoint(chunks[k], p)
  }

  lemma {:induction false} SplitIsComplete(s: string)
    ensures NoSplitPointIn(SplitSentences(s).0)
    decreases |s|
  {
    var q := FirstSplit(s, 0);
    if q != -1 {
      var e := RunEnd(s, q);
      var rest := SplitSentences(s[e..]);
      SplitIsComplete(s[e..]);
      assert NoSplitPointIn(rest.0);
      var r := SplitSentences(s);
      assert r.0 == [s[..q]] + rest.0;
      forall k, p | 0 <= k < |r.0|
        ensures !SplitPoint(r.0[k], p)
      {
        if k == 0 {
          if 1 <= p < q {
            assert !SplitPoint(s, p);
            assert s[..q][p - 1] == s[p - 1] && s[..q][p] == s[p];
          }
        } else {
          assert r.0[k] == rest.0[k - 1];
        }
      }
    } else {
      assert SplitSentences(s).0 == [s];
      forall p ensures !SplitPoint(s, p) {
        if 0 <= p < |s| { assert !SplitPoint(s, p); }
      }
    }
  }

  /** A lone trailing separator leaves an empty last chunk: "Hi. " splits
      into "Hi." and "". */
  lemma TrailingSeparatorExample()
    ensures SplitSentences("Hi. ").0 == ["Hi.", ""]
  {
    var s := "Hi. ";
    assert SplitPoint(s, 3) && !SplitPoint(s, 0) && !SplitPoint(s, 1) && !SplitPoint(s, 2);
    assert FirstSplit(s, 0) == 3;
    assert RunEnd(s, 3) == 4;
    assert s[4..] == "" && s[..3] == "Hi.";
    assert FirstSplit("", 0) == -1;
    assert SplitSentences("") == ([""], []);
  }

  /** `transcript.text ? transcript.text.split(...) : []`. A truthy text
      that is not a string has no `split`, so rendering fails (`None`). */
  function TranscriptChunks(text: JsValue): (r: Option<seq<string>>)
    ensures !Truthy(text) ==> r == Some([])
    ensures text.JsStr? && text.s != "" ==> r == Some(SplitSentences(text.s).0)
    ensures Truthy(text) && !text.JsStr? ==> r.None?
  {
    if !Truthy(text) then Some([])
    else if text.JsStr? then Some(SplitSentences(text.s).0)
    else None
  }

  /** The placeholder ("Extracting transcript...") is shown exactly when the
      text is empty or absent: a non-empty text always yields a chunk. */
  lemma PlaceholderIffNoText(text: JsValue)
    requires TranscriptChunks(text).Some?
    ensures TranscriptChunks(text).value == [] <==> !Truthy(text)
  {
  }
}
