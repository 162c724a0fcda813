/** `score_answers` (src/run_experiment.py:122-146): one judgment call per
    question, each turned into 0 or 1, and their mean as the accuracy. */
module Scoring {
  import opened Types

  /** The judge oracle: the reply to the judgment call for question `i`,
      given the question, its ground-truth answer and the simulated answer. */
  type Judge = (nat, string, string, string) -> Decoded<bool>

  /** `1 if is_correct else 0`; a reply that is not JSON or has no
      `is_correct` key is penalised as 0 instead of aborting. */
  function Verdict(d: Decoded<bool>): (v: int)
    ensures v == 0 || v == 1
    ensures v == 1 <==> d == Ok(true)
  {
    match d
    case Ok(b) => if b then 1 else 0
    case DecodeError => 0
    case MissingKey => 0
  }

  /** The score list the loop builds: entry `i` is the verdict on question `i`. */
  function JudgedScores(qs: seq<string>, truth: seq<string>, simulated: seq<string>, judge: Judge): seq<int>
    requires |truth| >= |qs| && |simulated| >= |qs|
  {
    seq(|qs|, i requires 0 <= i < |qs| => Verdict(judge(i, qs[i], truth[i], simulated[i])))
  }

  function Sum(s: seq<int>): int
    decreases |s|
  {
    if |s| == 0 then 0 else Sum(s[..|s| - 1]) + s[|s| - 1]
  }

  /** `sum(scores) / len(scores) if scores else 0`, as an exact ratio. */
  function Mean(s: seq<int>): (m: real)
    ensures |s| == 0 ==> m == 0.0
    ensures |s| > 0 ==> m * |s| as real == Sum(s) as real
  {
    if |s| == 0 then 0.0 else Sum(s) as real / |s| as real
  }

  predicate Binary(s: seq<int>) {
    forall i :: 0 <= i < |s| ==> s[i] == 0 || s[i] == 1
  }

  lemma {:induction false} SumBounds(s: seq<int>)
    requires Binary(s)
    ensures 0 <= Sum(s) <= |s|
    decreases |s|
  {
    if |s| > 0 {
      SumBounds(s[..|s| - 1]);
    }
  }

  /** The accuracy of a 0/1 list lies between 0 and 1. */
  lemma MeanInUnitInterval(s: seq<int>)
    requires Binary(s)
    ensures 0.0 <= Mean(s) <= 1.0
  {
    SumBounds(s);
    if |s| > 0 {
      RatioInUnitInterval(Sum(s) as real, |s| as real);
    }
  }

  lemma RatioInUnitInterval(a: real, b: real)
    requires 0.0 <= a <= b && b > 0.0
    ensures 0.0 <= a / b <= 1.0
  {
    var q := a / b;
    assert q * b == a;
  }

  /** One score per question, in question order, each 0 or 1, and 1 exactly
      when the judgment decoded to `true`. */
  lemma JudgedScoresShape(qs: seq<string>, truth: seq<string>, simulated: seq<string>, judge: Judge)
    requires |truth| >= |qs| && |simulated| >= |qs|
    ensures var s := JudgedScores(qs, truth, simulated, judge);
      && |s| == |qs| && Binary(s)
      && forall i :: 0 <= i < |qs| ==> (s[i] == 1 <==> judge(i, qs[i], truth[i], simulated[i]) == Ok(true))
  {
    var s := JudgedScores(qs, truth, simulated, judge);
    forall i | 0 <= i < |qs| ensures s[i] == 0 || s[i] == 1 {
      assert s[i] == Verdict(judge(i, qs[i], truth[i], simulated[i]));
    }
  }

  /** A malformed reply to judgment `j` changes nothing but entry `j`, which
      becomes 0: the other questions are still judged as before. */
  lemma MalformedJudgmentZeroesOnlyItem(qs: seq<string>, truth: seq<string>, simulated: seq<string>,
                                        judge: Judge, judge': Judge, j: nat)
    requires |truth| >= |qs| && |simulated| >= |qs| && j < |qs|
    requires forall i: nat, q, t, a :: i != j ==> judge'(i, q, t, a) == judge(i, q, t, a)
    requires !judge'(j, qs[j], truth[j], simulated[j]).Ok?
    ensures JudgedScores(qs, truth, simulated, judge') == JudgedScores(qs, truth, simulated, judge)[j := 0]
  {
  }

  /** The judging loop; the pacing sleep between calls is timing only. */
  method ScoreAnswers(qs: seq<string>, truth: seq<string>, simulated: seq<string>, judge: Judge)
    returns (accuracy: real, scores: seq<int>)
    requires |truth| >= |qs| && |simulated| >= |qs|
    ensures scores == JudgedScores(qs, truth, simulated, judge)
    ensures accuracy == Mean(scores) && 0.0 <= accuracy <= 1.0
  {
    scores := [];
    var i := 0;
    while i < |qs|
      invariant 0 <= i <= |qs|
      invariant scores == JudgedScores(qs[..i], truth, simulated, judge)
    {
      var verdict := judge(i, qs[i], truth[i], simulated[i]);
      scores := scores + [Verdict(verdict)];
      i := i + 1;
    }
    assert qs[..i] == qs;
    JudgedScoresShape(qs, truth, simulated, judge);
    MeanInUnitInterval(scores);
    accuracy := if |scores| > 0 then Sum(scores) as real / |scores| as real else 0.0;
  }
}
