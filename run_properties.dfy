/** What a run of `main` (src/run_experiment.py:168-223) delivers, stated
    against an independent description: the list of per-article outcomes,
    filtered. */
module RunProperties {
  import opened Types
  import opened JsonCleanup
  import opened Prompts
  import opened Scoring
  import opened Orchestrator

  /** Each article's outcome, taken on its own. */
  function Outcomes(arts: seq<ArticleArtifacts>, o: Oracle, dec: Decoders): seq<ArticleOutcome> {
    seq(|arts|, k requires 0 <= k < |arts| => Evaluate(k, arts[k], o, dec))
  }

  /** The results of the evaluated outcomes, in order. */
  function Collected(outs: seq<ArticleOutcome>): seq<EvaluationResult>
    decreases |outs|
  {
    if |outs| == 0 then []
    else (if outs[0].Evaluated? then [outs[0].result] else []) + Collected(outs[1..])
  }

  /** The position of the first aborted outcome, if any. */
  function FirstAbort(outs: seq<ArticleOutcome>): (r: Option<nat>)
    ensures r.None? <==> forall k :: 0 <= k < |outs| ==> !outs[k].Aborted?
    ensures r.Some? ==> r.value < |outs| && outs[r.value].Aborted?
    ensures r.Some? ==> forall j :: 0 <= j < r.value ==> !outs[j].Aborted?
    decreases |outs|
  {
    if |outs| == 0 then None
    else if outs[0].Aborted? then Some(0)
    else
      match FirstAbort(outs[1..])
      case None => None
      case Some(k) => Some(k + 1)
  }

  lemma {:induction false} CollectedAppend(s: seq<ArticleOutcome>, t: seq<ArticleOutcome>)
    ensures Collected(s + t) == Collected(s) + Collected(t)
    decreases |s|
  {
    if |s| > 0 {
      assert (s + t)[0] == s[0];
      assert (s + t)[1..] == s[1..] + t;
      CollectedAppend(s[1..], t);
    } else {
      assert s + t == t;
    }
  }

  /** A skipped outcome contributes nothing; those around it keep theirs. */
  lemma CollectedSkip(outs: seq<ArticleOutcome>, k: nat)
    requires k < |outs| && outs[k].Skipped?
    ensures Collected(outs) == Collected(outs[..k]) + Collected(outs[k + 1..])
  {
    assert outs == outs[..k] + ([outs[k]] + outs[k + 1..]);
    CollectedAppend(outs[..k], [outs[k]] + outs[k + 1..]);
    CollectedAppend([outs[k]], outs[k + 1..]);
    assert Collected([outs[k]]) == [];
  }

  /** Filtering keeps exactly the evaluated outcomes' results. */
  lemma {:induction false} CollectedMembership(outs: seq<ArticleOutcome>, r: EvaluationResult)
    ensures r in Collected(outs) <==> Evaluated(r) in outs
    decreases |outs|
  {
    if |outs| > 0 {
      CollectedMembership(outs[1..], r);
      assert outs == [outs[0]] + outs[1..];
    }
  }

  function Describe(outs: seq<ArticleOutcome>): Progress {
    match FirstAbort(outs)
    case Some(k) => Halted(k, outs[k].fault)
    case None => Running(Collected(outs))
  }

  /** Describing one more outcome is advancing the run by it. */
  lemma DescribeAppend(s: seq<ArticleOutcome>, x: ArticleOutcome)
    ensures Describe(s + [x]) == Advance(Describe(s), |s|, x)
  {
    CollectedAppend(s, [x]);
    assert Collected([x]) == if x.Evaluated? then [x.result] else [];
    var before := FirstAbort(s);
    assert forall k :: 0 <= k < |s| ==> (s + [x])[k] == s[k];
    if before.Some? {
      assert FirstAbort(s + [x]) == before;
    } else if x.Aborted? {
      assert (s + [x])[|s|] == x;
    } else {
      assert FirstAbort(s + [x]) == None;
    }
  }

  lemma {:induction false} RunPrefixDescribed(arts: seq<ArticleArtifacts>, n: nat, o: Oracle, dec: Decoders)
    requires n <= |arts|
    ensures RunPrefix(arts, n, o, dec) == Describe(Outcomes(arts, o, dec)[..n])
    decreases n
  {
    if n > 0 {
      RunPrefixDescribed(arts, n - 1, o, dec);
      DescribeStep(arts, n, o, dec);
    } else {
      assert Outcomes(arts, o, dec)[..0] == [];
    }
  }

  /** Describing the first `n` outcomes advances the description of the
      first `n - 1` by the next article's outcome. */
  lemma DescribeStep(arts: seq<ArticleArtifacts>, n: nat, o: Oracle, dec: Decoders)
    requires 0 < n <= |arts|
    ensures Describe(Outcomes(arts, o, dec)[..n])
         == Advance(Describe(Outcomes(arts, o, dec)[..n - 1]), n - 1, Evaluate(n - 1, arts[n - 1], o, dec))
  {
    var outs := Outcomes(arts, o, dec);
    var front := outs[..n - 1];
    assert outs[..n] == front + [outs[n - 1]];
    DescribeAppend(front, outs[n - 1]);
  }

  /** A run over the artifacts either crashes at the first article whose
      pass raised, or writes the evaluated articles' results in input order;
      a missing artifacts file writes nothing. */
  lemma RunCharacterized(artifacts: Option<seq<ArticleArtifacts>>, o: Oracle, dec: Decoders)
    ensures artifacts.None? ==> Run(artifacts, o, dec) == ArtifactsMissing
    ensures artifacts.Some? ==>
      var outs := Outcomes(artifacts.value, o, dec);
      Run(artifacts, o, dec) == match FirstAbort(outs)
        case Some(k) => Crashed(k, outs[k].fault)
        case None => Saved(Collected(outs))
  {
    if artifacts.Some? {
      var arts := artifacts.value;
      RunPrefixDescribed(arts, |arts|, o, dec);
      assert Outcomes(arts, o, dec)[..|arts|] == Outcomes(arts, o, dec);
    }
  }

  /** The run writes its results exactly when no article's pass raised. */
  lemma SavedIffNoAbort(arts: seq<ArticleArtifacts>, o: Oracle, dec: Decoders)
    ensures Run(Some(arts), o, dec).Saved? <==> forall k :: 0 <= k < |arts| ==> !Evaluate(k, arts[k], o, dec).Aborted?
  {
    RunCharacterized(Some(arts), o, dec);
    var outs := Outcomes(arts, o, dec);
    assert forall k :: 0 <= k < |arts| ==> outs[k] == Evaluate(k, arts[k], o, dec);
  }

  /** A skipped article is absent from the results, and the articles after
      it still contribute theirs. */
  lemma SkippedArticleDropped(arts: seq<ArticleArtifacts>, o: Oracle, dec: Decoders, k: nat)
    requires k < |arts| && Evaluate(k, arts[k], o, dec).Skipped?
    ensures var outs := Outcomes(arts, o, dec);
      Collected(outs) == Collected(outs[..k]) + Collected(outs[k + 1..])
  {
    CollectedSkip(Outcomes(arts, o, dec), k);
  }

  /** An article is skipped exactly when its ground truth decoded and one of
      its cleaned artifact strings did not. A ground-truth failure is not
      caught: it aborts the run. */
  lemma SkipCondition(k: nat, a: ArticleArtifacts, o: Oracle, dec: Decoders)
    ensures Evaluate(k, a, o, dec).Skipped? <==>
      && o.groundTruth(k, a.article).Ok?
      && (dec.hierarchical(CleanJsonString(a.hierarchicalStr)).None? || dec.qa(CleanJsonString(a.qaStr)).None?)
    ensures !o.groundTruth(k, a.article).Ok? ==> Evaluate(k, a, o, dec) == Aborted(ReplyFault(o.groundTruth(k, a.article)))
  {
  }

  /** The scores mapping after `n` formats holds exactly those formats, each
      scored on its own against the shared rubric. */
  lemma {:induction false} ScoresUpToSpec(k: nat, n: nat, b: Bundle, pairs: seq<QAPair>, o: Oracle)
    requires n <= |Formats| && ScoresUpTo(k, n, b, pairs, o).Done?
    ensures var m := ScoresUpTo(k, n, b, pairs, o).value;
      && (forall f :: f in m <==> FormatIndex(f) < n)
      && (forall f :: f in m ==> FormatScore(k, f, b, pairs, o) == Done(m[f]))
    decreases n
  {
    if n > 0 {
      var prev := ScoresUpTo(k, n - 1, b, pairs, o);
      var g := Formats[n - 1];
      var here := FormatScore(k, g, b, pairs, o);
      assert prev.Done? && here.Done?;
      ScoresUpToSpec(k, n - 1, b, pairs, o);
      assert ScoresUpTo(k, n, b, pairs, o).value == prev.value[g := here.value];
      assert FormatIndex(g) == n - 1;
    }
  }

  /** The score record of one format, computed from the article's one
      ground-truth reply. */
  ghost predicate ScoredOnRubric(k: nat, f: Format, b: Bundle, pairs: seq<QAPair>, o: Oracle, rec: ScoreRecord) {
    var qs := Questions(pairs);
    var reply := o.simulate(k, f, Context(ArtifactOf(b, f)), QuestionText(qs));
    && reply.Ok? && |reply.value| >= |qs|
    && rec.individualScores == JudgedScores(qs, Answers(pairs), reply.value, o.judge(k, f))
    && rec.accuracy == Mean(rec.individualScores)
  }

  /** Scoring one format raises exactly on a reply that is not JSON, one
      without the `answers` key, or an answer list shorter than the
      questions; otherwise its record is scored on the rubric. */
  lemma FormatScoreOutcome(k: nat, f: Format, b: Bundle, pairs: seq<QAPair>, o: Oracle)
    ensures var reply := o.simulate(k, f, Context(ArtifactOf(b, f)), QuestionText(Questions(pairs)));
      && (FormatScore(k, f, b, pairs, o) == Fail(JsonDecodeError) <==> reply.DecodeError?)
      && (FormatScore(k, f, b, pairs, o) == Fail(KeyError) <==> reply.MissingKey?)
      && (FormatScore(k, f, b, pairs, o) == Fail(IndexError) <==> reply.Ok? && |reply.value| < |pairs|)
      && (FormatScore(k, f, b, pairs, o).Done? ==> ScoredOnRubric(k, f, b, pairs, o, FormatScore(k, f, b, pairs, o).value))
  {
  }

  /** A stored result carries the article's id, scores for exactly the three
      formats, all computed against the same question list from the one
      ground-truth call, and the ranking exactly as the model returned it. */
  lemma EvaluatedResultShape(k: nat, a: ArticleArtifacts, o: Oracle, dec: Decoders)
    requires Evaluate(k, a, o, dec).Evaluated?
    ensures var r := Evaluate(k, a, o, dec).result;
      && o.groundTruth(k, a.article).Ok? && DecodeBundle(a, dec).Some?
      && var pairs := o.groundTruth(k, a.article).value;
      && var b := DecodeBundle(a, dec).value;
      && r.id == a.id
      && r.scores.Keys == {Dense, Hierarchical, QaInterface}
      && (forall f :: f in r.scores ==> ScoredOnRubric(k, f, b, pairs, o, r.scores[f]))
      && o.rank(k, PreferenceViewOf(a.article, a.denseSummary, b.hierarchical)).Ok?
      && r.preference == Some(o.rank(k, PreferenceViewOf(a.article, a.denseSummary, b.hierarchical)).value)
  {
    var pairs := o.groundTruth(k, a.article).value;
    var b := DecodeBundle(a, dec).value;
    ScoresUpToSpec(k, |Formats|, b, pairs, o);
  }

  /** Every score list of a stored result has one 0/1 entry per ground-truth
      question, and every accuracy lies in [0, 1]. */
  lemma ResultScoresWellFormed(k: nat, f: Format, b: Bundle, pairs: seq<QAPair>, o: Oracle, rec: ScoreRecord)
    requires ScoredOnRubric(k, f, b, pairs, o, rec)
    ensures |rec.individualScores| == |pairs| && Binary(rec.individualScores)
    ensures 0.0 <= rec.accuracy <= 1.0
  {
    var qs := Questions(pairs);
    var reply := o.simulate(k, f, Context(ArtifactOf(b, f)), QuestionText(qs));
    JudgedScoresShape(qs, Answers(pairs), reply.value, o.judge(k, f));
    MeanInUnitInterval(rec.individualScores);
  }
}
