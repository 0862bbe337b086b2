/** The two URL helpers of the YouTube content scripts: `extractVideoId`
    (both copies of youtube/analysis-manager.js), the regex
    `/\/shorts\/([^?]+)/`, and `getWatchUrl` (ui-manager.js), a
    `replace('shorts/', 'watch?v=')` on the page address. */
module ShortsUrl {
  import opened Common

  const SHORTS := "/shorts/"

  /** The regex matches at `i`: "/shorts/" followed by at least one
      character other than '?'. */
  predicate MatchesAt(url: string, i: int)
  {
    OccursAt(url, SHORTS, i) && i + |SHORTS| < |url| && url[i + |SHORTS|] != '?'
  }

  /** The leftmost match at or after `from`, or -1: the regex engine tries
      each start position in turn, so a "/shorts/" directly followed by '?'
      or by the end of the text is skipped. */
  function FirstMatchFrom(url: string, from: nat): (r: int)
    requires from <= |url|
    ensures r == -1 || (from <= r && MatchesAt(url, r))
    ensures r == -1 ==> forall i :: from <= i ==> !MatchesAt(url, i)
    ensures r != -1 ==> forall i :: from <= i < r ==> !MatchesAt(url, i)
    decreases |url| - from
  {
    if from == |url| then -1
    else if MatchesAt(url, from) then from
    else FirstMatchFrom(url, from + 1)
  }

  /** Where the greedy `[^?]+` starting at `k` stops. */
  function QueryFreeRunEnd(url: string, k: nat): (e: nat)
    requires k <= |url|
    ensures k <= e <= |url|
    ensures forall j :: k <= j < e ==> url[j] != '?'
    ensures e < |url| ==> url[e] == '?'
    decreases |url| - k
  {
    if k < |url| && url[k] != '?' then QueryFreeRunEnd(url, k + 1) else k
  }

  /** `match ? match[1] : null`. There is an id exactly when the regex
      matches somewhere; the id is non-empty and free of '?'. */
  function ExtractVideoId(url: string): (r: Option<string>)
    ensures r.None? <==> forall i :: 0 <= i < |url| ==> !MatchesAt(url, i)
    ensures r.Some? ==> r.value != [] && forall j :: 0 <= j < |r.value| ==> r.value[j] != '?'
  {
    var i := FirstMatchFrom(url, 0);
    if i == -1 then None
    else
      var e := QueryFreeRunEnd(url, i + |SHORTS|);
      Some(url[i + |SHORTS|..e])
  }

  /** The id comes right after the leftmost matching "/shorts/" and runs up
      to the next '?' or the end of the address. */
  lemma ExtractVideoIdAt(url: string, i: nat)
    requires MatchesAt(url, i) && forall k :: 0 <= k < i ==> !MatchesAt(url, k)
    ensures var r := ExtractVideoId(url);
      r.Some? && i + |SHORTS| + |r.value| <= |url|
      && url[i + |SHORTS|..i + |SHORTS| + |r.value|] == r.value
      && (i + |SHORTS| + |r.value| == |url| || url[i + |SHORTS| + |r.value|] == '?')
  {
    assert FirstMatchFrom(url, 0) == i;
  }

  /** An occurrence of `pat` that starts inside `prefix` lies within the
      first |prefix| + |pat| - 1 characters of `prefix + tail`. */
  lemma EarlyOccurrence(prefix: string, tail: string, pat: string, i: int)
    requires pat != [] && |pat| - 1 <= |tail|
    requires 0 <= i < |prefix| && OccursAt(prefix + tail, pat, i)
    ensures Contains(prefix + tail[..|pat| - 1], pat)
  {
    var s := prefix + tail;
    var t := prefix + tail[..|pat| - 1];
    assert t == s[..|prefix| + |pat| - 1];
    assert t[i..i + |pat|] == s[i..i + |pat|];
    assert OccursAt(t, pat, i);
  }

  /** A shorts address yields its id: whatever comes before "/shorts/" (as
      long as no earlier "/shorts/" begins there), and whatever query string
      follows the id. */
  lemma {:induction false} ExtractFromShortsUrl(prefix: string, id: string, query: string)
    requires !Contains(prefix + "/shorts", SHORTS)
    requires id != [] && forall j :: 0 <= j < |id| ==> id[j] != '?'
    requires query == [] || query[0] == '?'
    ensures ExtractVideoId(prefix + SHORTS + id + query) == Some(id)
  {
    var url := prefix + SHORTS + id + query;
    var p := |prefix|;
    FirstShortsMatch(prefix, id, query);
    IdRunEnd(prefix, id, query);
    assert url[p + |SHORTS|..p + |SHORTS| + |id|] == id;
  }

  /** With no "/shorts/" in the prefix, the first match is the one right
      after it. */
  lemma FirstShortsMatch(prefix: string, id: string, query: string)
    requires !Contains(prefix + "/shorts", SHORTS)
    requires id != [] && id[0] != '?'
    ensures FirstMatchFrom(prefix + SHORTS + id + query, 0) == |prefix|
  {
    var url := prefix + SHORTS + id + query;
    var p := |prefix|;
    assert url == prefix + (SHORTS + id + query);
    forall i | 0 <= i < p
      ensures !MatchesAt(url, i)
    {
      assert (SHORTS + id + query)[..|SHORTS| - 1] == "/shorts";
      if OccursAt(url, SHORTS, i) {
        EarlyOccurrence(prefix, SHORTS + id + query, SHORTS, i);
      }
    }
    assert url[p..p + |SHORTS|] == SHORTS;
    assert url[p + |SHORTS|] == id[0];
    assert MatchesAt(url, p);
  }

  /** The '?'-free run after "/shorts/" is exactly the id. */
  lemma IdRunEnd(prefix: string, id: string, query: string)
    requires forall j :: 0 <= j < |id| ==> id[j] != '?'
    requires query == [] || query[0] == '?'
    ensures var url := prefix + SHORTS + id + query;
      QueryFreeRunEnd(url, |prefix| + |SHORTS|) == |prefix| + |SHORTS| + |id|
  {
    var url := prefix + SHORTS + id + query;
    var k := |prefix| + |SHORTS|;
    var e := QueryFreeRunEnd(url, k);
    forall j | k <= j < k + |id|
      ensures url[j] != '?'
    {
      assert url[j] == id[j - k];
    }
    assert query != [] ==> url[k + |id|] == query[0];
  }

  /** "/shorts/" cannot start at `i` when the characters at `i` and `i + 7`
      are not both '/'. */
  lemma NotShortsAt(s: string, i: nat)
    requires i + |SHORTS| > |s| || s[i] != '/' || s[i + 7] != '/'
    ensures !OccursAt(s, SHORTS, i)
  {
    if i + |SHORTS| <= |s| {
      assert s[i..i + |SHORTS|][0] == s[i] && s[i..i + |SHORTS|][7] == s[i + 7];
    }
  }

  /** A "/shorts/" with nothing after it, or with the query right after it,
      gives no id. */
  lemma NoIdExamples()
    ensures ExtractVideoId("/shorts/") == None
    ensures ExtractVideoId("/shorts/?x") == None
  {
    var b := "/shorts/?x";
    NotShortsAt(b, 1);
    NotShortsAt(b, 2);
    forall i | 0 <= i < |b| ensures !MatchesAt(b, i) {
      if i >= 3 { NotShortsAt(b, i); }
    }
  }

  /** `getWatchUrl`: the first "shorts/" becomes "watch?v="; an address
      without one comes back unchanged. */
  function WatchUrl(href: string): (r: string)
    ensures !Contains(href, "shorts/") ==> r == href
  {
    ReplaceFirst(href, "shorts/", "watch?v=")
  }

  /** The watch address keeps everything around the replaced "shorts/":
      a shorts address `prefix + "shorts/" + rest` becomes
      `prefix + "watch?v=" + rest` when no earlier "shorts/" begins in
      `prefix`. */
  lemma {:induction false} WatchUrlOfShortsUrl(prefix: string, rest: string)
    requires !Contains(prefix + "shorts", "shorts/")
    ensures WatchUrl(prefix + "shorts/" + rest) == prefix + "watch?v=" + rest
  {
    var href := prefix + "shorts/" + rest;
    assert href == prefix + ("shorts/" + rest);
    forall i | 0 <= i < |prefix|
      ensures !OccursAt(href, "shorts/", i)
    {
      assert ("shorts/" + rest)[..6] == "shorts";
      if OccursAt(href, "shorts/", i) {
        EarlyOccurrence(prefix, "shorts/" + rest, "shorts/", i);
      }
    }
    assert OccursAt(href, "shorts/", |prefix|);
    assert Find(href, "shorts/") == |prefix|;
    assert href[..|prefix|] == prefix;
    assert href[|prefix| + 7..] == rest;
  }

  /** Every "/shorts/" contains a "shorts/". */
  lemma ShortsWithoutSlash(s: string)
    ensures Contains(s, SHORTS) ==> Contains(s, "shorts/")
  {
    if Contains(s, SHORTS) {
      var i :| 0 <= i <= |s| && OccursAt(s, SHORTS, i);
      assert s[i + 1..i + 8] == s[i..i + 8][1..];
      assert OccursAt(s, "shorts/", i + 1);
    }
  }

  /** The watch address of a shorts address `prefix + "/shorts/" + tail`. */
  lemma WatchUrlAfterSlash(prefix: string, tail: string)
    requires !Contains(prefix + "/shorts", "shorts/")
    ensures WatchUrl(prefix + SHORTS + tail) == prefix + "/watch?v=" + tail
  {
    var p := prefix + "/";
    assert p + "shorts" == prefix + "/shorts";
    assert prefix + SHORTS + tail == p + "shorts/" + tail;
    WatchUrlOfShortsUrl(p, tail);
    assert p + "watch?v=" + tail == prefix + "/watch?v=" + tail;
  }

  /** The id of a shorts address whose prefix holds no "shorts/". */
  lemma IdOfShortsUrl(prefix: string, id: string, query: string)
    requires !Contains(prefix + "/shorts", "shorts/")
    requires id != [] && forall j :: 0 <= j < |id| ==> id[j] != '?'
    requires query == [] || query[0] == '?'
    ensures ExtractVideoId(prefix + SHORTS + id + query) == Some(id)
  {
    ShortsWithoutSlash(prefix + "/shorts");
    ExtractFromShortsUrl(prefix, id, query);
  }

  /** The watch address of a shorts address whose prefix holds no
      "shorts/". */
  lemma WatchOfShortsUrl(prefix: string, id: string, query: string)
    requires !Contains(prefix + "/shorts", "shorts/")
    ensures WatchUrl(prefix + SHORTS + id + query) == prefix + "/watch?v=" + id + query
  {
    WatchUrlAfterSlash(prefix, id + query);
    assert prefix + SHORTS + (id + query) == prefix + SHORTS + id + query;
    assert prefix + "/watch?v=" + (id + query) == prefix + "/watch?v=" + id + query;
  }

  /** The two helpers agree on a shorts address: the id `extractVideoId`
      finds is exactly what follows "watch?v=" in the watch address. Here the
      prefix must not hold a "shorts/" of its own, since `getWatchUrl`
      replaces the first "shorts/" even when no slash precedes it. */
  lemma ShortsAndWatchAgree(prefix: string, id: string, query: string)
    requires !Contains(prefix + "/shorts", "shorts/")
    requires id != [] && forall j :: 0 <= j < |id| ==> id[j] != '?'
    requires query == [] || query[0] == '?'
    ensures ExtractVideoId(prefix + SHORTS + id + query) == Some(id)
    ensures WatchUrl(prefix + SHORTS + id + query) == prefix + "/watch?v=" + id + query
  {
    IdOfShortsUrl(prefix, id, query);
    WatchOfShortsUrl(prefix, id, query);
  }
}
