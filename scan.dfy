/** The two fixed regular expressions of the report-URL extractor, written as
    scanners over strings.

    Both have the shape  KEY "(" "https" [^"]+ ")" "\""  where KEY is a literal:
    - the script pattern (tikguard_gui.py:56) has KEY = `reportUrl":"`;
    - the body pattern (tikguard_gui.py:61) has KEY = `"reportUrl":"`.
    Because `[^"]+` cannot consume a quote and must be followed by one, a match
    that starts at position i captures everything from the end of KEY up to the
    first `"` after it, and exists only when that stretch is `https` plus at
    least one more character and a `"` does follow. */
module Scan {
  import opened Wrappers

  /** Literal before the group in the script pattern. */
  const ScriptKey: string := "reportUrl\":\""
  /** Literal before the group in the body pattern. */
  const BodyKey: string := "\"reportUrl\":\""
  /** Literal that opens the captured group. */
  const Scheme: string := "https"
  /** The substring the script loop tests before searching (tikguard_gui.py:55). */
  const Marker: string := "reportUrl"

  /** A match: where it starts and what the group captured. */
  datatype Hit = Hit(pos: nat, url: string)

  /** `t` occurs in `s` starting at index `i`. */
  predicate LiteralAt(s: string, t: string, i: nat)
  {
    i + |t| <= |s| && s[i..i + |t|] == t
  }

  /** Python's `t in s` for strings. */
  predicate Contains(s: string, t: string)
  {
    exists i: nat :: i <= |s| && LiteralAt(s, t, i)
  }

  predicate QuoteFree(u: string)
  {
    forall m :: 0 <= m < |u| ==> u[m] != '"'
  }

  /** What the group `(https[^"]+)` can capture. */
  predicate IsCapture(u: string)
  {
    |u| > |Scheme| && u[..|Scheme|] == Scheme && QuoteFree(u)
  }

  /** Reference meaning of "the pattern KEY(https[^"]+)" matches at i and
      captures u": KEY at i, then u, then a quote. */
  ghost predicate IsMatchAt(s: string, key: string, i: nat, u: string)
  {
    && LiteralAt(s, key, i)
    && IsCapture(u)
    && LiteralAt(s, u, i + |key|)
    && i + |key| + |u| < |s|
    && s[i + |key| + |u|] == '"'
  }

  /** No position of `s` starts a match. */
  ghost predicate NoMatch(s: string, key: string)
  {
    forall i: nat, u :: !IsMatchAt(s, key, i, u)
  }

  /** The match at `i` is the leftmost one: what `re.search` and the first
      element of `findall` report. */
  ghost predicate Leftmost(s: string, key: string, i: nat, u: string)
  {
    IsMatchAt(s, key, i, u) && forall j: nat, v :: j < i ==> !IsMatchAt(s, key, j, v)
  }

  /** The end of the run of non-quote characters that starts at `j`: the first
      `"` at or after `j`, or `|s|` when there is none. */
  function RunEnd(s: string, j: nat): (k: nat)
    requires j <= |s|
    ensures j <= k <= |s|
    ensures forall m :: j <= m < k ==> s[m] != '"'
    ensures k < |s| ==> s[k] == '"'
    decreases |s| - j
  {
    if j == |s| || s[j] == '"' then j else RunEnd(s, j + 1)
  }

  /** The pattern anchored at `i`: the greedy `[^"]+` runs to the first quote. */
  function MatchAt(s: string, key: string, i: nat): Option<string>
  {
    var q := i + |key|;
    if LiteralAt(s, key, i) && LiteralAt(s, Scheme, q) then
      var k := RunEnd(s, q);
      if q + |Scheme| < k < |s| then Some(s[q..k]) else None
    else
      None
  }

  /** The leftmost match at or after `from`, trying start positions in order
      as `re.search` does. */
  function Find(s: string, key: string, from: nat): (r: Option<Hit>)
    ensures r.Some? ==> from <= r.value.pos <= |s| && MatchAt(s, key, r.value.pos) == Some(r.value.url)
    ensures forall j: nat :: from <= j <= |s| && (r.None? || j < r.value.pos) ==> MatchAt(s, key, j).None?
    decreases |s| - from
  {
    if from > |s| then None
    else match MatchAt(s, key, from)
      case Some(u) => Some(Hit(from, u))
      case None => Find(s, key, from + 1)
  }

  /** The run of non-quote characters from `j` ends exactly at a quote `k`
      when nothing in between is a quote. */
  lemma RunEndAt(s: string, j: nat, k: nat)
    requires j <= k < |s| && s[k] == '"'
    requires forall m :: j <= m < k ==> s[m] != '"'
    ensures RunEnd(s, j) == k
  {
  }

  /** The scanner agrees with the reference meaning of the pattern, in both
      directions. */
  lemma MatchAtCorrect(s: string, key: string, i: nat, u: string)
    ensures MatchAt(s, key, i) == Some(u) <==> IsMatchAt(s, key, i, u)
  {
    var q := i + |key|;
    if MatchAt(s, key, i) == Some(u) {
      var k := RunEnd(s, q);
      assert u == s[q..k];
      assert u[..|Scheme|] == s[q..q + |Scheme|];
      assert forall m :: 0 <= m < |u| ==> u[m] == s[q + m];
    }
    if IsMatchAt(s, key, i, u) {
      assert s[q..q + |Scheme|] == u[..|Scheme|];
      forall m | q <= m < q + |u|
        ensures s[m] != '"'
      {
        assert s[m] == u[m - q];
      }
      RunEndAt(s, q, q + |u|);
    }
  }

  /** `Find` from the start reports exactly the leftmost match, and reports
      nothing exactly when there is no match anywhere. */
  lemma FindCorrect(s: string, key: string)
    ensures forall i: nat, u :: Find(s, key, 0) == Some(Hit(i, u)) <==> Leftmost(s, key, i, u)
    ensures Find(s, key, 0).None? <==> NoMatch(s, key)
  {
    var r := Find(s, key, 0);
    forall j: nat, v | IsMatchAt(s, key, j, v)
      ensures r.Some? && r.value.pos <= j
      ensures r.value.pos == j ==> r.value.url == v
    {
      MatchAtCorrect(s, key, j, v);
    }
    if r.Some? {
      MatchAtCorrect(s, key, r.value.pos, r.value.url);
    }
  }

  /** Text made of the key, a possible capture and a closing quote matches at
      its start and captures exactly that. */
  lemma QuotedCapture(key: string, u: string)
    requires IsCapture(u)
    ensures Leftmost(key + u + "\"", key, 0, u)
  {
    var s := key + u + "\"";
    assert s[..|key|] == key;
    assert s[|key|..|key| + |u|] == u;
  }

  /** Every match of the script pattern contains `reportUrl`, so the
      `'reportUrl' in script.text` test never hides a match. */
  lemma MarkerPrecedesMatch(s: string, i: nat, u: string)
    requires IsMatchAt(s, ScriptKey, i, u)
    ensures Contains(s, Marker)
  {
    assert s[i..i + |Marker|] == s[i..i + |ScriptKey|][..|Marker|];
    assert LiteralAt(s, Marker, i);
  }
}
