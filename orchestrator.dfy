/** The per-article loop of `main` (src/run_experiment.py:168-223). Every
    model call is an oracle; the artifact strings are cleaned with
    `clean_json_string` and decoded by a deterministic `json.loads`. */
module Orchestrator {
  import opened Types
  import opened JsonCleanup
  import opened Prompts
  import opened Scoring

  /** One record of the generated-artifacts file. */
  datatype ArticleArtifacts = ArticleArtifacts(
    id: string, article: string, denseSummary: string, hierarchicalStr: string, qaStr: string)

  /** The language model, given as its replies. Each reply is keyed by the
      article's position in the run (and by format, and for judgments by
      question), so every sequence of replies, repeated prompts included,
      can be represented; the material the call is shown is passed too. */
  datatype Oracle = Oracle(
    groundTruth: (nat, string) -> Decoded<seq<QAPair>>,
    simulate: (nat, Format, string, string) -> Decoded<seq<string>>,
    judge: (nat, Format) -> Judge,
    rank: (nat, PreferenceView) -> Decoded<seq<string>>)

  /** `json.loads` on the cleaned hierarchical and Q&A strings; `None` is a
      `JSONDecodeError`. */
  datatype Decoders = Decoders(
    hierarchical: string -> Option<HierarchicalSummary>,
    qa: string -> Option<QaSummary>)

  /** The exceptions that escape `main`. */
  datatype Fault = JsonDecodeError | KeyError | IndexError

  datatype Step<+T> = Done(value: T) | Fail(fault: Fault)

  datatype ArticleOutcome = Evaluated(result: EvaluationResult) | Skipped | Aborted(fault: Fault)

  /** How a run ends: early exit without output, an uncaught exception (the
      single final write never happens), or the result list written once. */
  datatype RunOutcome = ArtifactsMissing | Crashed(article: nat, fault: Fault) | Saved(results: seq<EvaluationResult>)

  /** The exception `json.loads(reply)[key]` raises on a malformed reply. */
  function ReplyFault<T>(d: Decoded<T>): Fault
    requires !d.Ok?
  {
    if d.DecodeError? then JsonDecodeError else KeyError
  }

  function Questions(pairs: seq<QAPair>): seq<string> {
    seq(|pairs|, i requires 0 <= i < |pairs| => pairs[i].question)
  }

  function Answers(pairs: seq<QAPair>): seq<string> {
    seq(|pairs|, i requires 0 <= i < |pairs| => pairs[i].answer)
  }

  /** The three parsed artifacts of one article (`artifacts_to_test`). */
  datatype Bundle = Bundle(dense: string, hierarchical: HierarchicalSummary, qa: QaSummary)

  function ArtifactOf(b: Bundle, f: Format): Artifact {
    match f
    case Dense => DenseText(b.dense)
    case Hierarchical => HierarchicalView(b.hierarchical)
    case QaInterface => QaView(b.qa)
  }

  /** The guarded part of the loop body (lines 192-203): both artifact strings
      are cleaned and decoded; a decode failure skips the article. */
  function DecodeBundle(a: ArticleArtifacts, dec: Decoders): Option<Bundle> {
    match dec.hierarchical(CleanJsonString(a.hierarchicalStr))
    case None => None
    case Some(h) =>
      match dec.qa(CleanJsonString(a.qaStr))
      case None => None
      case Some(q) => Some(Bundle(a.denseSummary, h, q))
  }

  /** Simulate the reader on one format and score its answers against the
      shared rubric. */
  function FormatScore(k: nat, f: Format, b: Bundle, pairs: seq<QAPair>, o: Oracle): Step<ScoreRecord> {
    var qs := Questions(pairs);
    match o.simulate(k, f, Context(ArtifactOf(b, f)), QuestionText(qs))
    case DecodeError => Fail(JsonDecodeError)
    case MissingKey => Fail(KeyError)
    case Ok(answers) =>
      if |answers| < |qs| then Fail(IndexError)
      else
        var s := JudgedScores(qs, Answers(pairs), answers, o.judge(k, f));
        Done(ScoreRecord(Mean(s), s))
  }

  /** The scores mapping after the first `n` formats of the fixed order. */
  function ScoresUpTo(k: nat, n: nat, b: Bundle, pairs: seq<QAPair>, o: Oracle): Step<map<Format, ScoreRecord>>
    requires n <= |Formats|
  {
    if n == 0 then Done(map[])
    else
      match ScoresUpTo(k, n - 1, b, pairs, o)
      case Fail(e) => Fail(e)
      case Done(m) =>
        match FormatScore(k, Formats[n - 1], b, pairs, o)
        case Fail(e) => Fail(e)
        case Done(r) => Done(m[Formats[n - 1] := r])
  }

  /** One pass of the loop body for the article at position `k`. */
  function Evaluate(k: nat, a: ArticleArtifacts, o: Oracle, dec: Decoders): ArticleOutcome {
    match o.groundTruth(k, a.article)
    case DecodeError => Aborted(JsonDecodeError)
    case MissingKey => Aborted(KeyError)
    case Ok(pairs) =>
      match DecodeBundle(a, dec)
      case None => Skipped
      case Some(b) =>
        match ScoresUpTo(k, |Formats|, b, pairs, o)
        case Fail(e) => Aborted(e)
        case Done(scores) =>
          match o.rank(k, PreferenceViewOf(a.article, b.dense, b.hierarchical))
          case DecodeError => Aborted(JsonDecodeError)
          case MissingKey => Aborted(KeyError)
          case Ok(preference) => Evaluated(EvaluationResult(a.id, scores, Some(preference)))
  }

  datatype Progress = Running(results: seq<EvaluationResult>) | Halted(article: nat, fault: Fault)

  /** The run after article `k` had outcome `out`: a result is appended, a
      skip changes nothing, an exception halts the run. */
  function Advance(p: Progress, k: nat, out: ArticleOutcome): Progress {
    match p
    case Halted(_, _) => p
    case Running(rs) =>
      match out
      case Evaluated(r) => Running(rs + [r])
      case Skipped => Running(rs)
      case Aborted(e) => Halted(k, e)
  }

  /** The state of the run after the first `n` articles. */
  function RunPrefix(arts: seq<ArticleArtifacts>, n: nat, o: Oracle, dec: Decoders): Progress
    requires n <= |arts|
  {
    if n == 0 then Running([])
    else Advance(RunPrefix(arts, n - 1, o, dec), n - 1, Evaluate(n - 1, arts[n - 1], o, dec))
  }

  /** `main`: `None` stands for a missing generated-artifacts file. */
  function Run(artifacts: Option<seq<ArticleArtifacts>>, o: Oracle, dec: Decoders): (r: RunOutcome)
    ensures r.ArtifactsMissing? <==> artifacts.None?
  {
    match artifacts
    case None => ArtifactsMissing
    case Some(arts) =>
      match RunPrefix(arts, |arts|, o, dec)
      case Halted(k, e) => Crashed(k, e)
      case Running(rs) => Saved(rs)
  }

  lemma {:induction false} ScoresFailureStays(k: nat, n: nat, m: nat, b: Bundle, pairs: seq<QAPair>, o: Oracle)
    requires n <= m <= |Formats| && ScoresUpTo(k, n, b, pairs, o).Fail?
    ensures ScoresUpTo(k, m, b, pairs, o) == ScoresUpTo(k, n, b, pairs, o)
    decreases m - n
  {
    if n < m {
      ScoresFailureStays(k, n, m - 1, b, pairs, o);
    }
  }

  lemma {:induction false} HaltStays(arts: seq<ArticleArtifacts>, n: nat, m: nat, o: Oracle, dec: Decoders)
    requires n <= m <= |arts| && RunPrefix(arts, n, o, dec).Halted?
    ensures RunPrefix(arts, m, o, dec) == RunPrefix(arts, n, o, dec)
    decreases m - n
  {
    if n < m {
      HaltStays(arts, n, m - 1, o, dec);
    }
  }

  /** The loop body for one article: ground truth (outside the `try`), the
      guarded decoding, the three formats in order against one question
      list, then the preference ranking stored as returned. */
  method EvaluateArticle(k: nat, a: ArticleArtifacts, o: Oracle, dec: Decoders) returns (outcome: ArticleOutcome)
    ensures outcome == Evaluate(k, a, o, dec)
  {
    var truthReply := o.groundTruth(k, a.article);
    if !truthReply.Ok? {
      return Aborted(ReplyFault(truthReply));
    }
    var pairs := truthReply.value;
    var questions := Questions(pairs);
    var truth := Answers(pairs);

    var hierarchical := dec.hierarchical(CleanJsonString(a.hierarchicalStr));
    if hierarchical.None? {
      return Skipped;
    }
    var qa := dec.qa(CleanJsonString(a.qaStr));
    if qa.None? {
      return Skipped;
    }
    var bundle := Bundle(a.denseSummary, hierarchical.value, qa.value);

    var scores: map<Format, ScoreRecord> := map[];
    var n := 0;
    while n < |Formats|
      invariant 0 <= n <= |Formats|
      invariant ScoresUpTo(k, n, bundle, pairs, o) == Done(scores)
    {
      var f := Formats[n];
      var reply := o.simulate(k, f, Context(ArtifactOf(bundle, f)), QuestionText(questions));
      if !reply.Ok? {
        ScoresFailureStays(k, n + 1, |Formats|, bundle, pairs, o);
        return Aborted(ReplyFault(reply));
      }
      if |reply.value| < |questions| {
        ScoresFailureStays(k, n + 1, |Formats|, bundle, pairs, o);
        return Aborted(IndexError);
      }
      var accuracy, individual := ScoreAnswers(questions, truth, reply.value, o.judge(k, f));
      scores := scores[f := ScoreRecord(accuracy, individual)];
      n := n + 1;
    }

    var rankReply := o.rank(k, PreferenceViewOf(a.article, bundle.dense, bundle.hierarchical));
    if !rankReply.Ok? {
      return Aborted(ReplyFault(rankReply));
    }
    outcome := Evaluated(EvaluationResult(a.id, scores, Some(rankReply.value)));
  }

  /** `main`: early exit without output when the artifacts are missing,
      otherwise the articles in input order, a result appended per evaluated
      article, and the result list returned as the one final write. */
  method RunEvaluation(artifacts: Option<seq<ArticleArtifacts>>, o: Oracle, dec: Decoders) returns (outcome: RunOutcome)
    ensures outcome == Run(artifacts, o, dec)
  {
    if artifacts.None? {
      return ArtifactsMissing;
    }
    var arts := artifacts.value;
    var allResults: seq<EvaluationResult> := [];
    var i := 0;
    while i < |arts|
      invariant 0 <= i <= |arts|
      invariant RunPrefix(arts, i, o, dec) == Running(allResults)
    {
      var article := EvaluateArticle(i, arts[i], o, dec);
      var next := Advance(Running(allResults), i, article);
      assert RunPrefix(arts, i + 1, o, dec) == next;
      match next
      case Halted(k, e) =>
        HaltStays(arts, i + 1, |arts|, o, dec);
        return Crashed(k, e);
      case Running(rs) =>
        allResults := rs;
      i := i + 1;
    }
    outcome := Saved(allResults);
  }
}
