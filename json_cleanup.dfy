/** `clean_json_string` (src/run_experiment.py:50-55): pull a JSON object out of
    a Markdown ```json fence, or give the text back unchanged.

    The pattern is ```json\s*(\{.*?\})\s*``` searched with DOTALL. Its meaning
    is stated declaratively by `FenceMatch` (which spans the pattern matches)
    and `Selected` (which one `re.search` reports: the leftmost start, then the
    shortest lazy `.*?`); `CleanJsonString` computes it by a left-to-right
    scan and is proved to agree. */
module JsonCleanup {
  import opened Types

  const Opening: string := "```json"
  const Fence: string := "```"

  /** `\s`, restricted to ASCII: space, tab, line feed, vertical tab, form feed, carriage return. */
  predicate IsSpace(c: char) {
    c == ' ' || '\t' <= c <= '\r'
  }

  predicate AllSpace(s: string, i: nat, j: nat)
    requires i <= j <= |s|
  {
    forall t :: i <= t < j ==> IsSpace(s[t])
  }

  predicate OccursAt(s: string, i: nat, w: string) {
    i + |w| <= |s| && s[i..i + |w|] == w
  }

  /** The pattern matches `s[p..k + 3]` with its group `s[q..e + 1]`: the
      opening fence at `p`, whitespace up to the `{` at `q`, anything up to the
      `}` at `e`, whitespace up to the closing fence at `k`. */
  ghost predicate FenceMatch(s: string, p: int, q: int, e: int, k: int) {
    && 0 <= p && OccursAt(s, p, Opening)
    && p + |Opening| <= q < e < k <= |s|
    && AllSpace(s, p + |Opening|, q) && s[q] == '{'
    && s[e] == '}' && AllSpace(s, e + 1, k)
    && OccursAt(s, k, Fence)
  }

  ghost predicate NoFence(s: string) {
    forall p, q, e, k :: !FenceMatch(s, p, q, e, k)
  }

  /** The match `re.search` reports: no match starts further left, and among
      those starting at `p` none has an earlier closing `}`. */
  ghost predicate Selected(s: string, p: int, q: int, e: int) {
    && 0 <= q <= e < |s|
    && (exists k :: FenceMatch(s, p, q, e, k))
    && forall p2, q2, e2, k2 :: FenceMatch(s, p2, q2, e2, k2) ==> p < p2 || (p == p2 && e <= e2)
  }

  /** End of the whitespace run that starts at `i`. */
  function SkipSpace(s: string, i: nat): (j: nat)
    requires i <= |s|
    ensures i <= j <= |s| && AllSpace(s, i, j)
    ensures j < |s| ==> !IsSpace(s[j])
    decreases |s| - i
  {
    if i < |s| && IsSpace(s[i]) then SkipSpace(s, i + 1) else i
  }

  /** A whitespace run followed by a non-space ends where `SkipSpace` stops. */
  lemma SpaceRunEnd(s: string, i: nat, j: nat)
    requires i <= j < |s| && AllSpace(s, i, j) && !IsSpace(s[j])
    ensures j == SkipSpace(s, i)
  {
  }

  /** `s[e]` is a `}` that whitespace and a closing fence follow. */
  predicate ClosesAt(s: string, e: nat) {
    e < |s| && s[e] == '}' && OccursAt(s, SkipSpace(s, e + 1), Fence)
  }

  /** An opening fence at `p`, then whitespace and a `{`. */
  predicate OpensAt(s: string, p: nat) {
    OccursAt(s, p, Opening) && SkipSpace(s, p + |Opening|) < |s| && s[SkipSpace(s, p + |Opening|)] == '{'
  }

  /** Every match is the one the scan would build at its start. */
  lemma MatchIsForced(s: string, p: nat, q: nat, e: nat, k: nat)
    requires FenceMatch(s, p, q, e, k)
    ensures q == SkipSpace(s, p + |Opening|) && k == SkipSpace(s, e + 1)
    ensures OpensAt(s, p) && ClosesAt(s, e)
  {
    SpaceRunEnd(s, p + |Opening|, q);
    assert s[k] == Fence[0];
    SpaceRunEnd(s, e + 1, k);
  }

  /** The first closing `}` at or after `i`. */
  function FindClose(s: string, i: nat): (r: Option<nat>)
    requires i <= |s|
    ensures r.Some? ==> i <= r.value && ClosesAt(s, r.value)
    ensures r.Some? ==> forall e :: i <= e < r.value ==> !ClosesAt(s, e)
    ensures r.None? ==> forall e :: i <= e ==> !ClosesAt(s, e)
    decreases |s| - i
  {
    if i == |s| then None
    else if ClosesAt(s, i) then Some(i)
    else FindClose(s, i + 1)
  }

  /** Where a match starts, where its group opens and where it closes. */
  datatype Span = Span(start: nat, open: nat, close: nat)

  /** The scan: the first start at or after `p` with an opening whose `{` is
      followed by some closing `}`, paired with the first such `}`. */
  function FindFenceFrom(s: string, p: nat): (r: Option<Span>)
    requires p <= |s|
    ensures r.Some? ==> p <= r.value.start && r.value.start + |Opening| <= r.value.open < r.value.close < |s|
    ensures r.Some? ==> s[r.value.open] == '{' && s[r.value.close] == '}'
    decreases |s| - p
  {
    if p == |s| then None
    else if OpensAt(s, p) && FindClose(s, SkipSpace(s, p + |Opening|) + 1).Some? then
      var q := SkipSpace(s, p + |Opening|);
      Some(Span(p, q, FindClose(s, q + 1).value))
    else FindFenceFrom(s, p + 1)
  }

  /** When the scan moves past `p`, no match starts at `p`. */
  lemma NoMatchAt(s: string, p: nat)
    requires p < |s| && !(OpensAt(s, p) && FindClose(s, SkipSpace(s, p + |Opening|) + 1).Some?)
    ensures forall q, e, k :: !FenceMatch(s, p, q, e, k)
  {
    forall q, e, k | FenceMatch(s, p, q, e, k) ensures false {
      MatchIsForced(s, p, q, e, k);
    }
  }

  /** When the scan stops at `p`, what it builds is a match, and no match
      starting at `p` closes earlier. */
  lemma FirstMatchAt(s: string, p: nat)
    requires p < |s| && OpensAt(s, p) && FindClose(s, SkipSpace(s, p + |Opening|) + 1).Some?
    ensures var q := SkipSpace(s, p + |Opening|);
      var e := FindClose(s, q + 1).value;
      && FenceMatch(s, p, q, e, SkipSpace(s, e + 1))
      && forall q2, e2, k2 :: FenceMatch(s, p, q2, e2, k2) ==> e <= e2
  {
    var q := SkipSpace(s, p + |Opening|);
    var e := FindClose(s, q + 1).value;
    forall q2, e2, k2 | FenceMatch(s, p, q2, e2, k2) ensures e <= e2 {
      MatchIsForced(s, p, q2, e2, k2);
    }
  }

  /** `m` is a match starting at or after `p`, and every match starting at
      or after `p` starts after it, or starts with it and closes no earlier. */
  ghost predicate FirstFrom(s: string, p: nat, m: Span) {
    && p <= m.start && m.open <= m.close < |s|
    && FenceMatch(s, m.start, m.open, m.close, SkipSpace(s, m.close + 1))
    && forall p2, q2, e2, k2 :: p <= p2 && FenceMatch(s, p2, q2, e2, k2) ==>
         m.start < p2 || (m.start == p2 && m.close <= e2)
  }

  /** No match starts at or after `p`. */
  ghost predicate NoneFrom(s: string, p: nat) {
    forall p2, q2, e2, k2 :: p <= p2 ==> !FenceMatch(s, p2, q2, e2, k2)
  }

  /** The scan finds the leftmost, then shortest, match starting at or after
      `p`, and finds nothing exactly when there is none. */
  lemma {:induction false} FindFenceFromCorrect(s: string, p: nat)
    requires p <= |s|
    ensures FindFenceFrom(s, p).Some? ==> FirstFrom(s, p, FindFenceFrom(s, p).value)
    ensures FindFenceFrom(s, p).None? ==> NoneFrom(s, p)
    decreases |s| - p
  {
    if p == |s| {
      assert FindFenceFrom(s, p) == None;
    } else if OpensAt(s, p) && FindClose(s, SkipSpace(s, p + |Opening|) + 1).Some? {
      FoundAt(s, p);
    } else {
      FindFenceFromCorrect(s, p + 1);
      PassedOver(s, p);
    }
  }

  /** The scan stops at `p` with the first match from there. */
  lemma FoundAt(s: string, p: nat)
    requires p < |s| && OpensAt(s, p) && FindClose(s, SkipSpace(s, p + |Opening|) + 1).Some?
    ensures FindFenceFrom(s, p).Some? && FirstFrom(s, p, FindFenceFrom(s, p).value)
  {
    var q := SkipSpace(s, p + |Opening|);
    var m := Span(p, q, FindClose(s, q + 1).value);
    assert FindFenceFrom(s, p) == Some(m);
    FirstMatchAt(s, p);
  }

  /** The scan moves past `p`, and what holds from `p + 1` holds from `p`. */
  lemma PassedOver(s: string, p: nat)
    requires p < |s| && !(OpensAt(s, p) && FindClose(s, SkipSpace(s, p + |Opening|) + 1).Some?)
    requires FindFenceFrom(s, p + 1).Some? ==> FirstFrom(s, p + 1, FindFenceFrom(s, p + 1).value)
    requires FindFenceFrom(s, p + 1).None? ==> NoneFrom(s, p + 1)
    ensures FindFenceFrom(s, p).Some? ==> FirstFrom(s, p, FindFenceFrom(s, p).value)
    ensures FindFenceFrom(s, p).None? ==> NoneFrom(s, p)
  {
    assert FindFenceFrom(s, p) == FindFenceFrom(s, p + 1);
    NoMatchAt(s, p);
    match FindFenceFrom(s, p + 1)
    case None =>
      assert NoneFrom(s, p);
    case Some(m) =>
      FirstFromStep(s, p, m);
  }

  lemma FirstFromStep(s: string, p: nat, m: Span)
    requires FirstFrom(s, p + 1, m)
    requires forall q, e, k :: !FenceMatch(s, p, q, e, k)
    ensures FirstFrom(s, p, m)
  {
    forall p2, q2, e2, k2 | p <= p2 && FenceMatch(s, p2, q2, e2, k2)
      ensures m.start < p2 || (m.start == p2 && m.close <= e2)
    {
      assert p2 != p;
    }
  }

  /** `clean_json_string(s)`: the group of the reported match, or `s` itself
      when the pattern does not occur. */
  function CleanJsonString(s: string): (r: string)
    ensures r == s || (2 <= |r| < |s| && r[0] == '{' && r[|r| - 1] == '}')
  {
    match FindFenceFrom(s, 0)
    case None => s
    case Some(m) => s[m.open..m.close + 1]
  }

  /** What `CleanJsonString` returns is what the regular expression does:
      the input unchanged when the pattern does not occur, and otherwise
      the group of the match `re.search` reports. */
  lemma CleanMatchesPattern(s: string)
    ensures NoFence(s) ==> CleanJsonString(s) == s
    ensures !NoFence(s) ==> exists p, q, e :: Selected(s, p, q, e) && CleanJsonString(s) == s[q..e + 1]
  {
    FindFenceFromCorrect(s, 0);
    match FindFenceFrom(s, 0)
    case None =>
    case Some(m) =>
      assert Selected(s, m.start, m.open, m.close);
  }

  /** A cleaned string taken out of a fence is a `{`...`}` slice of the input. */
  lemma CleanedIsBraceSlice(s: string)
    requires !NoFence(s)
    ensures var r := CleanJsonString(s);
      && |r| >= 2 && r[0] == '{' && r[|r| - 1] == '}'
      && exists i: nat :: OccursAt(s, i, r)
  {
    var r := CleanJsonString(s);
    CleanMatchesPattern(s);
    var p, q, e :| Selected(s, p, q, e) && r == s[q..e + 1];
    assert OccursAt(s, q, r);
  }

  /** A closing `}` inside the slice `s[q..e + 1]` is one in `s`, before `e`. */
  lemma CloseInSlice(s: string, q: nat, e: nat, e2: nat, k2: nat)
    requires q <= e < |s|
    requires var g := s[q..e + 1];
      e2 < k2 <= |g| && g[e2] == '}' && AllSpace(g, e2 + 1, k2) && OccursAt(g, k2, Fence)
    ensures q + e2 < q + k2 <= |s| && s[q + e2] == '}' && AllSpace(s, q + e2 + 1, q + k2)
    ensures OccursAt(s, q + k2, Fence) && q + e2 < e
  {
    var g := s[q..e + 1];
    assert s[q + e2] == g[e2];
    forall t | q + e2 + 1 <= t < q + k2 ensures IsSpace(s[t]) {
      assert s[t] == g[t - q];
    }
    forall t | 0 <= t < |Fence| ensures s[q + k2 + t] == Fence[t] {
      assert s[q + k2 + t] == g[k2 + t];
    }
  }

  /** Cleaning twice is cleaning once: the group of the reported match never
      holds another match, since its closing `}` is the first one that can
      close the reported opening. */
  lemma CleanIdempotent(s: string)
    ensures CleanJsonString(CleanJsonString(s)) == CleanJsonString(s)
  {
    CleanMatchesPattern(s);
    if !NoFence(s) {
      var g := CleanJsonString(s);
      CleanMatchesPattern(g);
      var p, q, e :| Selected(s, p, q, e) && g == s[q..e + 1];
      var k :| FenceMatch(s, p, q, e, k);
      forall p2, q2, e2, k2 | FenceMatch(g, p2, q2, e2, k2) ensures false {
        CloseInSlice(s, q, e, e2, k2);
        assert FenceMatch(s, p, q, q + e2, q + k2);
      }
    }
  }
}
