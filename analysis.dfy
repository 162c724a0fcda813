/** The two tallies of `analyze_results` (src/analyze_results.py): the
    per-format accuracy columns (lines 21-29) and the preference points
    (lines 40-50). The result records are the ones the run writes. */
module Analysis {
  import opened Types
  import opened Orchestrator
  import opened RunProperties

  // ---------------------------------------------------------------------
  // Accuracy columns
  // ---------------------------------------------------------------------

  /** `res["scores"][method]` succeeds for every method. */
  predicate Scored(r: EvaluationResult) {
    Dense in r.scores && Hierarchical in r.scores && QaInterface in r.scores
  }

  predicate AllScored(rs: seq<EvaluationResult>) {
    forall i :: 0 <= i < |rs| ==> Scored(rs[i])
  }

  /** The accuracies of format `f`, one per record, in record order. */
  function Column(rs: seq<EvaluationResult>, f: Format): (c: seq<real>)
    requires AllScored(rs)
    ensures |c| == |rs|
  {
    seq(|rs|, i requires 0 <= i < |rs| && AllScored(rs) => ScoredHas(rs[i], f); rs[i].scores[f].accuracy)
  }

  lemma ScoredHas(r: EvaluationResult, f: Format)
    requires Scored(r)
    ensures f in r.scores
  {
  }

  function Columns(rs: seq<EvaluationResult>): map<Format, seq<real>>
    requires AllScored(rs)
  {
    map[Dense := Column(rs, Dense), Hierarchical := Column(rs, Hierarchical), QaInterface := Column(rs, QaInterface)]
  }

  /** The `accuracies` dictionary after the loop, or `None` for the
      `KeyError` a record without some format's scores raises. */
  function Accuracies(rs: seq<EvaluationResult>): Option<map<Format, seq<real>>> {
    if AllScored(rs) then Some(Columns(rs)) else None
  }

  /** The columns after the inner loop has appended record `r`'s accuracies
      for the first `j` methods. */
  function Extend(cols: map<Format, seq<real>>, r: EvaluationResult, j: nat): (c: map<Format, seq<real>>)
    requires j <= |Formats| && cols.Keys == {Dense, Hierarchical, QaInterface}
    requires forall t :: 0 <= t < j ==> Formats[t] in r.scores
    ensures c.Keys == cols.Keys
  {
    if j == 0 then cols
    else
      var c := Extend(cols, r, j - 1);
      var f := Formats[j - 1];
      c[f := c[f] + [r.scores[f].accuracy]]
  }

  lemma ColumnAppend(rs: seq<EvaluationResult>, r: EvaluationResult, f: Format)
    requires AllScored(rs) && Scored(r)
    ensures AllScored(rs + [r])
    ensures Column(rs + [r], f) == Column(rs, f) + [r.scores[f].accuracy]
  {
    assert forall i :: 0 <= i < |rs| ==> (rs + [r])[i] == rs[i];
    assert (rs + [r])[|rs|] == r;
  }

  /** Appending one record's row to the columns is taking the columns of the
      longer list. */
  lemma ColumnsAppend(rs: seq<EvaluationResult>, r: EvaluationResult)
    requires AllScored(rs) && Scored(r)
    ensures AllScored(rs + [r])
    ensures Extend(Columns(rs), r, 3) == Columns(rs + [r])
  {
    ColumnAppend(rs, r, Dense);
    ColumnAppend(rs, r, Hierarchical);
    ColumnAppend(rs, r, QaInterface);
    var c := Columns(rs);
    var c1 := c[Dense := c[Dense] + [r.scores[Dense].accuracy]];
    var c2 := c1[Hierarchical := c1[Hierarchical] + [r.scores[Hierarchical].accuracy]];
    var c3 := c2[QaInterface := c2[QaInterface] + [r.scores[QaInterface].accuracy]];
    assert Extend(c, r, 1) == c1;
    assert Extend(c, r, 2) == c2;
    assert Extend(c, r, 3) == c3;
  }

  /** Lines 21-29: walk the records, and for each one the three methods in
      order, appending the accuracy to that method's column. */
  method CollectAccuracies(results: seq<EvaluationResult>) returns (acc: Option<map<Format, seq<real>>>)
    ensures acc == Accuracies(results)
  {
    var columns: map<Format, seq<real>> := map[Dense := [], Hierarchical := [], QaInterface := []];
    var i := 0;
    assert columns == Columns(results[..0]);
    while i < |results|
      invariant 0 <= i <= |results|
      invariant AllScored(results[..i])
      invariant columns == Columns(results[..i])
    {
      var res := results[i];
      var j := 0;
      while j < |Formats|
        invariant 0 <= j <= |Formats|
        invariant forall t :: 0 <= t < j ==> Formats[t] in res.scores
        invariant columns == Extend(Columns(results[..i]), res, j)
      {
        var format := Formats[j];
        if format !in res.scores {
          assert !AllScored(results) by {
            assert results[i] == res;
          }
          return None;
        }
        columns := columns[format := columns[format] + [res.scores[format].accuracy]];
        j := j + 1;
      }
      assert Scored(res) by {
        assert Formats[0] == Dense && Formats[1] == Hierarchical && Formats[2] == QaInterface;
      }
      ColumnsAppend(results[..i], res);
      assert results[..i + 1] == results[..i] + [res];
      i := i + 1;
    }
    assert results[..i] == results;
    acc := Some(columns);
  }

  /** The columns stay row-aligned, which the paired t-test relies on: the
      `i`-th entry of every column comes from the `i`-th record, and a
      record with a missing format makes the whole collection fail. */
  lemma AccuraciesAligned(rs: seq<EvaluationResult>)
    ensures Accuracies(rs).None? <==> exists i :: 0 <= i < |rs| && !Scored(rs[i])
    ensures Accuracies(rs).Some? ==>
      var acc := Accuracies(rs).value;
      && acc.Keys == {Dense, Hierarchical, QaInterface}
      && forall f :: f in acc ==>
           (|acc[f]| == |rs| && forall i :: 0 <= i < |rs| ==> acc[f][i] == rs[i].scores[f].accuracy)
  {
  }

  /** A record the loop body stores has all three formats with an accuracy
      in [0, 1]. */
  lemma EvaluatedRecordScored(k: nat, a: ArticleArtifacts, o: Oracle, dec: Decoders)
    requires Evaluate(k, a, o, dec).Evaluated?
    ensures var r := Evaluate(k, a, o, dec).result;
      Scored(r) && forall f :: f in r.scores ==> 0.0 <= r.scores[f].accuracy <= 1.0
  {
    var r := Evaluate(k, a, o, dec).result;
    EvaluatedResultShape(k, a, o, dec);
    var pairs := o.groundTruth(k, a.article).value;
    var b := DecodeBundle(a, dec).value;
    forall f | f in r.scores ensures 0.0 <= r.scores[f].accuracy <= 1.0 {
      ResultScoresWellFormed(k, f, b, pairs, o, r.scores[f]);
    }
  }

  /** Every record a completed run writes has all three formats with an
      accuracy in [0, 1]. */
  lemma SavedRecordsScored(arts: seq<ArticleArtifacts>, o: Oracle, dec: Decoders, rs: seq<EvaluationResult>)
    requires Run(Some(arts), o, dec) == Saved(rs)
    ensures forall r :: r in rs ==> Scored(r) && forall f :: f in r.scores ==> 0.0 <= r.scores[f].accuracy <= 1.0
  {
    RunCharacterized(Some(arts), o, dec);
    var outs := Outcomes(arts, o, dec);
    assert rs == Collected(outs);
    forall r | r in rs ensures Scored(r) && forall f :: f in r.scores ==> 0.0 <= r.scores[f].accuracy <= 1.0 {
      CollectedMembership(outs, r);
      var k :| 0 <= k < |outs| && outs[k] == Evaluated(r);
      EvaluatedRecordScored(k, arts[k], o, dec);
    }
  }

  /** The analysis never hits a `KeyError` on the records a completed run
      writes, and every collected accuracy lies in [0, 1]. */
  lemma SavedResultsAnalyzable(arts: seq<ArticleArtifacts>, o: Oracle, dec: Decoders, rs: seq<EvaluationResult>)
    requires Run(Some(arts), o, dec) == Saved(rs)
    ensures Accuracies(rs).Some?
    ensures forall f, i :: f in Accuracies(rs).value && 0 <= i < |rs| ==> 0.0 <= Accuracies(rs).value[f][i] <= 1.0
  {
    SavedRecordsScored(arts, o, dec, rs);
    assert AllScored(rs) by {
      forall i | 0 <= i < |rs| ensures Scored(rs[i]) {
        assert rs[i] in rs;
      }
    }
    forall f, i | f in Accuracies(rs).value && 0 <= i < |rs|
      ensures 0.0 <= Accuracies(rs).value[f][i] <= 1.0
    {
      assert rs[i] in rs;
    }
  }

  // ---------------------------------------------------------------------
  // Preference points
  // ---------------------------------------------------------------------

  /** `method_map.get(method_char)`: "A", "B" and "C" name the dense,
      hierarchical and Q&A formats; anything else names none. */
  function LetterMethod(c: string): (r: Option<Format>)
    ensures r == Some(Dense) <==> c == "A"
    ensures r == Some(Hierarchical) <==> c == "B"
    ensures r == Some(QaInterface) <==> c == "C"
  {
    if c == "A" then Some(Dense)
    else if c == "B" then Some(Hierarchical)
    else if c == "C" then Some(QaInterface)
    else None
  }

  /** `res.get("preference", [])`. */
  function Ranking(r: EvaluationResult): seq<string> {
    r.preference.GetOr([])
  }

  /** A `Counter` read: a missing key counts 0. */
  function Get(t: map<Format, int>, f: Format): int {
    if f in t then t[f] else 0
  }

  /** Entry `i` of a ranking: `3 - i` points to the method it names. */
  function CountEntry(t: map<Format, int>, c: string, i: nat): map<Format, int> {
    match LetterMethod(c)
    case None => t
    case Some(f) => t[f := Get(t, f) + (3 - i)]
  }

  /** The counter after the first `n` entries of one ranking. */
  function CountPrefix(t: map<Format, int>, ranking: seq<string>, n: nat): map<Format, int>
    requires n <= |ranking|
  {
    if n == 0 then t else CountEntry(CountPrefix(t, ranking, n - 1), ranking[n - 1], n - 1)
  }

  /** The counter after the first `n` records. */
  function TallyUpTo(rs: seq<EvaluationResult>, n: nat): map<Format, int>
    requires n <= |rs|
  {
    if n == 0 then map[] else
      var ranking := Ranking(rs[n - 1]);
      CountPrefix(TallyUpTo(rs, n - 1), ranking, |ranking|)
  }

  function Tally(rs: seq<EvaluationResult>): map<Format, int> {
    TallyUpTo(rs, |rs|)
  }

  /** Lines 40-50: for every record, for every entry of its ranking, add
      `3 - i` to the method the letter names. */
  method TallyPreferences(results: seq<EvaluationResult>) returns (tally: map<Format, int>)
    ensures tally == Tally(results)
  {
    tally := map[];
    var n := 0;
    while n < |results|
      invariant 0 <= n <= |results|
      invariant tally == TallyUpTo(results, n)
    {
      var ranking := Ranking(results[n]);
      var i := 0;
      while i < |ranking|
        invariant 0 <= i <= |ranking|
        invariant tally == CountPrefix(TallyUpTo(results, n), ranking, i)
      {
        var methodName := LetterMethod(ranking[i]);
        if methodName.Some? {
          var score := 3 - i;
          tally := tally[methodName.value := Get(tally, methodName.value) + score];
        }
        i := i + 1;
      }
      n := n + 1;
    }
  }

  // Reference: the points each method earns, counted per format.

  /** How many of the first `n` entries name `f`. */
  function Occurrences(ranking: seq<string>, f: Format, n: nat): nat
    requires n <= |ranking|
  {
    if n == 0 then 0
    else Occurrences(ranking, f, n - 1) + (if LetterMethod(ranking[n - 1]) == Some(f) then 1 else 0)
  }

  /** The points `f` earns from the first `n` entries: `3 - i` per entry `i` naming it. */
  function RankPoints(ranking: seq<string>, f: Format, n: nat): int
    requires n <= |ranking|
  {
    if n == 0 then 0
    else RankPoints(ranking, f, n - 1) + (if LetterMethod(ranking[n - 1]) == Some(f) then 3 - (n - 1) else 0)
  }

  /** The points `f` earns from the first `n` records. */
  function TotalPoints(rs: seq<EvaluationResult>, f: Format, n: nat): int
    requires n <= |rs|
  {
    if n == 0 then 0 else TotalPoints(rs, f, n - 1) + RankPoints(Ranking(rs[n - 1]), f, |Ranking(rs[n - 1])|)
  }

  /** How many entries of the first `n` records name `f`. */
  function TotalOccurrences(rs: seq<EvaluationResult>, f: Format, n: nat): nat
    requires n <= |rs|
  {
    if n == 0 then 0 else TotalOccurrences(rs, f, n - 1) + Occurrences(Ranking(rs[n - 1]), f, |Ranking(rs[n - 1])|)
  }

  /** Counting a ranking adds its points to every method, and creates a key
      exactly for the methods it names. */
  lemma {:induction false} CountPrefixPoints(t: map<Format, int>, ranking: seq<string>, n: nat, f: Format)
    requires n <= |ranking|
    ensures Get(CountPrefix(t, ranking, n), f) == Get(t, f) + RankPoints(ranking, f, n)
    ensures f in CountPrefix(t, ranking, n) <==> f in t || Occurrences(ranking, f, n) > 0
    decreases n
  {
    if n > 0 {
      CountPrefixPoints(t, ranking, n - 1, f);
    }
  }

  /** The counter holds, for each method, the points over all records, and
      has a key exactly for the methods some ranking names. */
  lemma {:induction false} TallyIsPoints(rs: seq<EvaluationResult>, n: nat, f: Format)
    requires n <= |rs|
    ensures Get(TallyUpTo(rs, n), f) == TotalPoints(rs, f, n)
    ensures f in TallyUpTo(rs, n) <==> TotalOccurrences(rs, f, n) > 0
    decreases n
  {
    if n > 0 {
      TallyIsPoints(rs, n - 1, f);
      var ranking := Ranking(rs[n - 1]);
      CountPrefixPoints(TallyUpTo(rs, n - 1), ranking, |ranking|, f);
    }
  }

  /** A full ranking of the three letters gives 3, 2 and 1 points to the
      methods it lists first, second and third: 6 points in all. */
  lemma FullRankingPoints(ranking: seq<string>)
    requires |ranking| == 3
    requires LetterMethod(ranking[0]).Some? && LetterMethod(ranking[1]).Some? && LetterMethod(ranking[2]).Some?
    requires ranking[0] != ranking[1] && ranking[1] != ranking[2] && ranking[0] != ranking[2]
    ensures var t := CountPrefix(map[], ranking, 3);
      && t.Keys == {Dense, Hierarchical, QaInterface}
      && t[LetterMethod(ranking[0]).value] == 3
      && t[LetterMethod(ranking[1]).value] == 2
      && t[LetterMethod(ranking[2]).value] == 1
      && t[Dense] + t[Hierarchical] + t[QaInterface] == 6
  {
    var t0: map<Format, int> := map[];
    assert CountPrefix(t0, ranking, 0) == t0;
    var t1 := CountEntry(t0, ranking[0], 0);
    assert CountPrefix(t0, ranking, 1) == t1;
    assert t1 == map[LetterMethod(ranking[0]).value := 3];
    var t2 := CountEntry(t1, ranking[1], 1);
    assert CountPrefix(t0, ranking, 2) == t2;
    assert t2 == t1[LetterMethod(ranking[1]).value := 2];
    assert CountPrefix(t0, ranking, 3) == CountEntry(t2, ranking[2], 2);
  }

  /** An entry no method is mapped from still takes its place: every
      method named after it earns one point less per entry. */
  lemma {:induction false} UnknownEntryShifts(x: string, ranking: seq<string>, f: Format, n: nat)
    requires LetterMethod(x).None? && n <= |ranking|
    ensures RankPoints([x] + ranking, f, n + 1) == RankPoints(ranking, f, n) - Occurrences(ranking, f, n)
    decreases n
  {
    var r := [x] + ranking;
    if n > 0 {
      UnknownEntryShifts(x, ranking, f, n - 1);
      assert r[n] == ranking[n - 1];
    } else {
      assert r[0] == x;
    }
  }

  /** Entries from the fourth on earn nothing or less: a longer ranking
      never raises a method's points. */
  lemma {:induction false} LateEntriesNoGain(ranking: seq<string>, f: Format, n: nat)
    requires 3 <= n <= |ranking|
    ensures RankPoints(ranking, f, n) <= RankPoints(ranking, f, 3)
    decreases n
  {
    if n > 3 {
      LateEntriesNoGain(ranking, f, n - 1);
    }
  }

  /** A record without a "preference" key, or with an empty one, leaves the
      counter as it was. */
  lemma NoPreferenceNoPoints(rs: seq<EvaluationResult>, r: EvaluationResult)
    requires r.preference.None? || r.preference == Some([])
    ensures Tally(rs + [r]) == Tally(rs)
  {
    var s := rs + [r];
    assert s[..|rs|] == rs;
    assert s[|rs|] == r;
    assert TallyUpTo(s, |rs|) == TallyUpTo(rs, |rs|) by {
      PrefixTally(s, rs, |rs|);
    }
  }

  /** The counter after `n` records depends on those records only. */
  lemma {:induction false} PrefixTally(s: seq<EvaluationResult>, rs: seq<EvaluationResult>, n: nat)
    requires n <= |rs| && n <= |s| && s[..n] == rs[..n]
    ensures TallyUpTo(s, n) == TallyUpTo(rs, n)
    decreases n
  {
    if n > 0 {
      assert s[n - 1] == s[..n][n - 1] == rs[..n][n - 1] == rs[n - 1];
      assert s[..n - 1] == s[..n][..n - 1];
      assert rs[..n - 1] == rs[..n][..n - 1];
      PrefixTally(s, rs, n - 1);
    }
  }
}
