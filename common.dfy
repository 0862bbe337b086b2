/** Shared vocabulary for the whole model: optional values, results, the
    string operations the JavaScript and Python code relies on, and an
    insertion-ordered dictionary like Python's `dict`. */
module Common {

  datatype Option<T> = None | Some(value: T)

  datatype Result<T, E> = Ok(value: T) | Err(error: E)

  // ---------------------------------------------------------------------
  // Substrings
  // ---------------------------------------------------------------------

  /** `pat` occurs in `s` starting at index `i`. */
  predicate OccursAt(s: string, pat: string, i: int)
  {
    0 <= i && i + |pat| <= |s| && s[i..i + |pat|] == pat
  }

  /** Python's `pat in s`, JavaScript's `s.includes(pat)`. */
  predicate Contains(s: string, pat: string)
  {
    exists i :: 0 <= i <= |s| && OccursAt(s, pat, i)
  }

  predicate StartsWith(s: string, pat: string)
  {
    OccursAt(s, pat, 0)
  }

  predicate EndsWith(s: string, pat: string)
  {
    |pat| <= |s| && s[|s| - |pat|..] == pat
  }

  /** The first index at or after `from` where `pat` occurs, or -1. */
  function FindFrom(s: string, pat: string, from: nat): (r: int)
    requires from <= |s|
    ensures r == -1 || (from <= r && OccursAt(s, pat, r))
    ensures r == -1 ==> forall i :: from <= i ==> !OccursAt(s, pat, i)
    ensures r != -1 ==> forall i :: from <= i < r ==> !OccursAt(s, pat, i)
    decreases |s| - from
  {
    if OccursAt(s, pat, from) then from
    else if from == |s| then -1
    else FindFrom(s, pat, from + 1)
  }

  /** Python's `s.find(pat)`, JavaScript's `s.indexOf(pat)`. */
  function Find(s: string, pat: string): (r: int)
    ensures r == -1 <==> !Contains(s, pat)
    ensures r != -1 ==> OccursAt(s, pat, r) && forall i :: 0 <= i < r ==> !OccursAt(s, pat, i)
  {
    FindFrom(s, pat, 0)
  }

  /** Python's `s.rfind(c)` for a one-character pattern. */
  function RFindChar(s: string, c: char): (r: int)
    ensures -1 <= r < |s|
    ensures r >= 0 ==> s[r] == c && forall i :: r < i < |s| ==> s[i] != c
    ensures r == -1 ==> forall i :: 0 <= i < |s| ==> s[i] != c
  {
    if |s| == 0 then -1
    else if s[|s| - 1] == c then |s| - 1
    else RFindChar(s[..|s| - 1], c)
  }

  /** JavaScript's `s.replace(pat, rep)` with a string pattern: only the first
      occurrence (see `Find`) is replaced; `rep` is assumed free of `$` patterns. */
  function ReplaceFirst(s: string, pat: string, rep: string): (r: string)
    ensures !Contains(s, pat) ==> r == s
    ensures Contains(s, pat) ==> |r| == |s| - |pat| + |rep|
    ensures Contains(s, pat) ==>
      exists i :: OccursAt(s, pat, i) && (forall j :: 0 <= j < i ==> !OccursAt(s, pat, j))
        && r == s[..i] + rep + s[i + |pat|..]
  {
    var i := Find(s, pat);
    if i == -1 then s else s[..i] + rep + s[i + |pat|..]
  }

  // ---------------------------------------------------------------------
  // Decimal rendering of numbers (Python's `str(n)`, JavaScript's `String(n)`)
  // ---------------------------------------------------------------------

  function DigitChar(d: nat): (c: char)
    requires d < 10
    ensures '0' <= c <= '9'
  {
    ['0', '1', '2', '3', '4', '5', '6', '7', '8', '9'][d]
  }

  function NatToString(n: nat): (r: string)
    ensures |r| >= 1
    ensures n >= 10 <==> |r| >= 2
    ensures forall i :: 0 <= i < |r| ==> '0' <= r[i] <= '9'
  {
    if n < 10 then [DigitChar(n)] else NatToString(n / 10) + [DigitChar(n % 10)]
  }

  /** Different numbers print differently, so generated names such as
      "seg_1", "seg_2", ... never collide. */
  lemma {:induction false} NatToStringInjective(n: nat, m: nat)
    requires NatToString(n) == NatToString(m)
    ensures n == m
  {
    var a, b := NatToString(n), NatToString(m);
    if n < 10 || m < 10 {
      assert n < 10 && m < 10;
      assert a[0] == DigitChar(n) && b[0] == DigitChar(m);
    } else {
      assert a[|a| - 1] == DigitChar(n % 10) && b[|b| - 1] == DigitChar(m % 10);
      assert a[..|a| - 1] == NatToString(n / 10);
      assert b[..|b| - 1] == NatToString(m / 10);
      NatToStringInjective(n / 10, m / 10);
    }
  }

  function IntToString(n: int): (r: string)
    ensures |r| >= 1
  {
    if n < 0 then "-" + NatToString(-n) else NatToString(n)
  }

  // ---------------------------------------------------------------------
  // Case mapping (ASCII letters only) and whitespace
  // ---------------------------------------------------------------------

  function UpperChar(c: char): (r: char)
    ensures 'a' <= c <= 'z' ==> r as int == c as int - 32
    ensures !('a' <= c <= 'z') ==> r == c
  {
    if 'a' <= c <= 'z' then (c as int - 32) as char else c
  }

  function LowerChar(c: char): (r: char)
    ensures 'A' <= c <= 'Z' ==> r as int == c as int + 32
    ensures !('A' <= c <= 'Z') ==> r == c
  {
    if 'A' <= c <= 'Z' then (c as int + 32) as char else c
  }

  function Upper(s: string): (r: string)
    ensures |r| == |s| && forall i :: 0 <= i < |s| ==> r[i] == UpperChar(s[i])
  {
    if s == [] then [] else [UpperChar(s[0])] + Upper(s[1..])
  }

  function Lower(s: string): (r: string)
    ensures |r| == |s| && forall i :: 0 <= i < |s| ==> r[i] == LowerChar(s[i])
  {
    if s == [] then [] else [LowerChar(s[0])] + Lower(s[1..])
  }

  /** Python's `str.isspace` for one character. */
  predicate IsPyWhitespace(c: char)
  {
    var n := c as int;
    n == 0x20 || (0x09 <= n <= 0x0D) || (0x1C <= n <= 0x1F) || n == 0x85 || n == 0xA0
    || n == 0x1680 || (0x2000 <= n <= 0x200A) || n == 0x2028 || n == 0x2029
    || n == 0x202F || n == 0x205F || n == 0x3000
  }

  /** JavaScript's `\s` character class. */
  predicate IsJsWhitespace(c: char)
  {
    var n := c as int;
    n == 0x20 || (0x09 <= n <= 0x0D) || n == 0xA0
    || n == 0x1680 || (0x2000 <= n <= 0x200A) || n == 0x2028 || n == 0x2029
    || n == 0x202F || n == 0x205F || n == 0x3000 || n == 0xFEFF
  }

  function DropLeading(s: string, strip: char -> bool): (r: string)
    ensures |r| <= |s|
    ensures r != [] ==> !strip(r[0])
  {
    if s != [] && strip(s[0]) then DropLeading(s[1..], strip) else s
  }

  /** What `DropLeading` keeps is a suffix, and all it drops is stripped. */
  lemma {:induction false} DropLeadingSuffix(s: string, strip: char -> bool)
    ensures var r := DropLeading(s, strip);
      (forall i :: 0 <= i < |r| ==> r[i] == s[|s| - |r| + i])
      && forall i :: 0 <= i < |s| - |r| ==> strip(s[i])
    decreases |s|
  {
    if s != [] && strip(s[0]) {
      DropLeadingSuffix(s[1..], strip);
      assert forall j :: 0 <= j < |s| - 1 ==> s[1..][j] == s[j + 1];
    }
  }

  function DropTrailing(s: string, strip: char -> bool): (r: string)
    ensures |r| <= |s|
    ensures r != [] ==> !strip(r[|r| - 1]) && r[0] == s[0]
  {
    if s != [] && strip(s[|s| - 1]) then DropTrailing(s[..|s| - 1], strip) else s
  }

  /** What `DropTrailing` keeps is a prefix, and all it drops is stripped. */
  lemma {:induction false} DropTrailingPrefix(s: string, strip: char -> bool)
    ensures var r := DropTrailing(s, strip);
      (forall i :: 0 <= i < |r| ==> r[i] == s[i])
      && forall i :: |r| <= i < |s| ==> strip(s[i])
    decreases |s|
  {
    if s != [] && strip(s[|s| - 1]) {
      DropTrailingPrefix(s[..|s| - 1], strip);
    }
  }

  /** Python's `s.strip(chars)`: drop the longest prefix and suffix made of
      stripped characters. */
  function StripBy(s: string, strip: char -> bool): (r: string)
    ensures |r| <= |s|
    ensures r != [] ==> !strip(r[0]) && !strip(r[|r| - 1])
  {
    DropTrailing(DropLeading(s, strip), strip)
  }

  /** Python's `s.strip()`. */
  function PyStrip(s: string): (r: string)
    ensures |r| <= |s|
    ensures r != [] ==> !IsPyWhitespace(r[0]) && !IsPyWhitespace(r[|r| - 1])
  {
    StripBy(s, IsPyWhitespace)
  }

  /** Python's `sep.join(parts)`. */
  function Join(parts: seq<string>, sep: string): (r: string)
    ensures parts == [] ==> r == ""
    ensures |parts| == 1 ==> r == parts[0]
  {
    if parts == [] then ""
    else if |parts| == 1 then parts[0]
    else parts[0] + sep + Join(parts[1..], sep)
  }

  // ---------------------------------------------------------------------
  // Insertion-ordered dictionaries (Python's dict, JavaScript's Map)
  // ---------------------------------------------------------------------

  type Assoc<K, V> = seq<(K, V)>

  predicate DistinctKeys<K(==), V>(a: Assoc<K, V>)
  {
    forall i, j :: 0 <= i < j < |a| ==> a[i].0 != a[j].0
  }

  function KeysOf<K, V>(a: Assoc<K, V>): (r: seq<K>)
    ensures |r| == |a| && forall i :: 0 <= i < |a| ==> r[i] == a[i].0
  {
    if a == [] then [] else [a[0].0] + KeysOf(a[1..])
  }

  function Lookup<K(==), V>(a: Assoc<K, V>, k: K): (r: Option<V>)
    ensures r.None? <==> forall i :: 0 <= i < |a| ==> a[i].0 != k
    ensures r.Some? ==> exists i :: 0 <= i < |a| && a[i] == (k, r.value)
  {
    if a == [] then None
    else if a[0].0 == k then Some(a[0].1)
    else Lookup(a[1..], k)
  }

  /** `d[k] = change(d[k])` when `k` is already a key and `d[k] = initial`
      otherwise (`d[k] = d.get(k, 0) + 1`, `d.setdefault(k, []).append(v)`):
      an existing key keeps its place, a new one goes last. */
  function Upsert<K(==), V>(a: Assoc<K, V>, k: K, change: V -> V, initial: V): Assoc<K, V>
    decreases |a|
  {
    if a == [] then [(k, initial)]
    else if a[0].0 == k then [(k, change(a[0].1))] + a[1..]
    else [a[0]] + Upsert(a[1..], k, change, initial)
  }

  /** `d[k] = v`: an existing key keeps its position, a new one is appended. */
  function Put<K(==), V>(a: Assoc<K, V>, k: K, v: V): Assoc<K, V>
  {
    Upsert(a, k, (_: V) => v, v)
  }

  /** After `d[k] = v`, `k` maps to `v` and every other key to what it did. */
  lemma {:induction false} PutLookup<K, V>(a: Assoc<K, V>, k: K, v: V, x: K)
    ensures Lookup(Put(a, k, v), x) == if x == k then Some(v) else Lookup(a, x)
    decreases |a|
  {
    if a != [] && a[0].0 != k {
      PutLookup(a[1..], k, v, x);
    }
  }

  /** `d.get(k, default)`. */
  function GetOr<K(==), V>(a: Assoc<K, V>, k: K, default: V): V
    decreases |a|
  {
    if a == [] then default else if a[0].0 == k then a[0].1 else GetOr(a[1..], k, default)
  }

  lemma {:induction false} GetOrAbsent<K, V>(a: Assoc<K, V>, k: K, default: V)
    requires k !in KeysOf(a)
    ensures GetOr(a, k, default) == default
    decreases |a|
  {
    if a != [] {
      assert KeysOf(a) == [a[0].0] + KeysOf(a[1..]);
      GetOrAbsent(a[1..], k, default);
    }
  }

  /** Only the entry for `k` changes: it is `change` of the old value, or
      `initial` when there was none. */
  lemma {:induction false} UpsertGet<K, V>(a: Assoc<K, V>, k: K, change: V -> V, initial: V, r: K, default: V)
    ensures GetOr(Upsert(a, k, change, initial), r, default)
      == if r != k then GetOr(a, r, default) else if k in KeysOf(a) then change(GetOr(a, k, default)) else initial
    decreases |a|
  {
    if a != [] {
      assert KeysOf(a) == [a[0].0] + KeysOf(a[1..]);
      if a[0].0 != k {
        UpsertGet(a[1..], k, change, initial, r, default);
        assert Upsert(a, k, change, initial)[1..] == Upsert(a[1..], k, change, initial);
      }
    }
  }

  /** The keys afterwards are the old keys and `k`. */
  lemma {:induction false} UpsertKeys<K, V>(a: Assoc<K, V>, k: K, change: V -> V, initial: V)
    ensures forall x :: x in KeysOf(Upsert(a, k, change, initial)) <==> x in KeysOf(a) || x == k
    ensures k in KeysOf(a) ==> |Upsert(a, k, change, initial)| == |a|
    ensures k !in KeysOf(a) ==> |Upsert(a, k, change, initial)| == |a| + 1
    decreases |a|
  {
    if a != [] {
      var u := Upsert(a, k, change, initial);
      assert KeysOf(a) == [a[0].0] + KeysOf(a[1..]);
      if a[0].0 != k {
        UpsertKeys(a[1..], k, change, initial);
        assert KeysOf(u) == [a[0].0] + KeysOf(Upsert(a[1..], k, change, initial));
      } else {
        assert KeysOf(u) == [k] + KeysOf(a[1..]);
      }
    }
  }

  /** Every key afterwards is `k` or an old key. */
  lemma {:induction false} UpsertKeyOrigin<K, V>(a: Assoc<K, V>, k: K, change: V -> V, initial: V, j: nat) returns (m: nat)
    requires j < |Upsert(a, k, change, initial)|
    ensures Upsert(a, k, change, initial)[j].0 == k || (m < |a| && a[m].0 == Upsert(a, k, change, initial)[j].0)
    decreases |a|
  {
    m := 0;
    if a != [] && a[0].0 == k {
      m := j;
    } else if a != [] && j > 0 {
      var m' := UpsertKeyOrigin(a[1..], k, change, initial, j - 1);
      assert Upsert(a, k, change, initial)[j] == Upsert(a[1..], k, change, initial)[j - 1];
      m := m' + 1;
    }
  }

  lemma {:induction false} UpsertDistinct<K, V>(a: Assoc<K, V>, k: K, change: V -> V, initial: V)
    requires DistinctKeys(a)
    ensures DistinctKeys(Upsert(a, k, change, initial))
    decreases |a|
  {
    var u := Upsert(a, k, change, initial);
    if a != [] && a[0].0 != k {
      var tail := a[1..];
      assert DistinctKeys(tail) by {
        forall i, j | 0 <= i < j < |tail|
          ensures tail[i].0 != tail[j].0
        {
          assert tail[i] == a[i + 1] && tail[j] == a[j + 1];
        }
      }
      var rest := Upsert(tail, k, change, initial);
      UpsertDistinct(tail, k, change, initial);
      assert u == [a[0]] + rest;
      forall j | 0 <= j < |rest|
        ensures rest[j].0 != a[0].0
      {
        var m := UpsertKeyOrigin(tail, k, change, initial, j);
        if rest[j].0 != k {
          assert tail[m] == a[m + 1];
        }
      }
      forall i, j | 0 <= i < j < |u|
        ensures u[i].0 != u[j].0
      {
        if i == 0 {
          assert u[j] == rest[j - 1];
        } else {
          assert u[i] == rest[i - 1] && u[j] == rest[j - 1];
        }
      }
    } else if a != [] {
      forall i, j | 0 <= i < j < |u|
        ensures u[i].0 != u[j].0
      {
        assert u[i].0 == a[i].0 && u[j].0 == a[j].0;
      }
    }
  }

  /** A property every value has, that `initial` has and that `change` keeps,
      holds of every value afterwards. */
  lemma {:induction false} UpsertValues<K, V>(a: Assoc<K, V>, k: K, change: V -> V, initial: V, p: V -> bool)
    requires forall i :: 0 <= i < |a| ==> p(a[i].1)
    requires p(initial) && p(change(GetOr(a, k, initial)))
    ensures forall i :: 0 <= i < |Upsert(a, k, change, initial)| ==> p(Upsert(a, k, change, initial)[i].1)
    decreases |a|
  {
    if a != [] && a[0].0 != k {
      assert GetOr(a, k, initial) == GetOr(a[1..], k, initial);
      UpsertValues(a[1..], k, change, initial, p);
      assert Upsert(a, k, change, initial)[1..] == Upsert(a[1..], k, change, initial);
    }
  }
}
