/** Entities of the evaluation pipeline (src/run_experiment.py) and of the
    records its analysis step reads back (src/analyze_results.py). */
module Types {

  datatype Option<+T> = None | Some(value: T) {
    function GetOr(default: T): T {
      match this
      case Some(v) => v
      case None => default
    }
  }

  /** The three presentation formats, under the keys the result file uses:
      "dense", "hierarchical" and "qa_interface". */
  datatype Format = Dense | Hierarchical | QaInterface

  /** The fixed order in which an article's formats are simulated and scored,
      and in which the analysis step walks them. */
  const Formats: seq<Format> := [Dense, Hierarchical, QaInterface]

  /** Where a format stands in that order. */
  function FormatIndex(f: Format): (i: nat)
    ensures i < |Formats| && Formats[i] == f
  {
    match f
    case Dense => 0
    case Hierarchical => 1
    case QaInterface => 2
  }

  /** What `json.loads(reply)[key]` gives for one model reply: the value under
      the expected key, a reply that is not JSON, or a JSON object without
      that key. */
  datatype Decoded<+T> = Ok(value: T) | DecodeError | MissingKey

  /** One expandable section of a hierarchical summary. */
  datatype Nugget = Nugget(headline: string, detail: string)

  /** One question/answer pair, of the ground-truth rubric or of a Q&A artifact. */
  datatype QAPair = QAPair(question: string, answer: string)

  /** A decoded hierarchical artifact; either key may be absent from the JSON. */
  datatype HierarchicalSummary = HierarchicalSummary(tldr: Option<string>, nuggets: Option<seq<Nugget>>)

  /** A decoded Q&A artifact; the `questions_and_answers` key may be absent. */
  datatype QaSummary = QaSummary(pairs: Option<seq<QAPair>>)

  /** The content handed to the simulated reader, one variant per format. */
  datatype Artifact = DenseText(text: string) | HierarchicalView(summary: HierarchicalSummary) | QaView(qa: QaSummary)

  /** `{"accuracy": ..., "individual_scores": [...]}` for one format of one article. */
  datatype ScoreRecord = ScoreRecord(accuracy: real, individualScores: seq<int>)

  /** One record of the result file. `preference` is `None` when the record
      has no "preference" key (the analysis step tolerates that). */
  datatype EvaluationResult = EvaluationResult(id: string, scores: map<Format, ScoreRecord>, preference: Option<seq<string>>)
}
