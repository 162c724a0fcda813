/** What each model call of the pipeline is shown (src/run_experiment.py:78-102,
    148-157): the reader's context for each format, the numbered question list
    and the excerpts the preference ranking sees. Prompt wording around these
    pieces is not modelled; the pieces themselves are, character for character. */
module Prompts {
  import opened Types
  import opened Text

  /** `artifact_content.get('tldr', '')` */
  function TldrOf(h: HierarchicalSummary): string {
    h.tldr.GetOr("")
  }

  /** `artifact_content.get('nuggets', [])` */
  function NuggetsOf(h: HierarchicalSummary): seq<Nugget> {
    h.nuggets.GetOr([])
  }

  /** `artifact_content.get('questions_and_answers', [])` */
  function PairsOf(q: QaSummary): seq<QAPair> {
    q.pairs.GetOr([])
  }

  function HeadlineLines(ns: seq<Nugget>): seq<string> {
    seq(|ns|, i requires 0 <= i < |ns| => "- " + ns[i].headline)
  }

  function DetailBlock(n: Nugget): string {
    "Headline: " + n.headline + "\nDetail: " + n.detail
  }

  function DetailBlocks(ns: seq<Nugget>): seq<string> {
    seq(|ns|, i requires 0 <= i < |ns| => DetailBlock(ns[i]))
  }

  const HierarchicalIntro: string := "You have been provided with a hierarchical summary.\n\nINITIAL VIEW:\n"
  const TopicsHeading: string := "\n\nKey Topics:\n"
  const DetailsHeading: string := "\n\nFULL DETAILS:\n"

  /** Everything of the hierarchical context before its headline list. */
  function HeadlinesStart(h: HierarchicalSummary): string {
    HierarchicalIntro + "TLDR: " + TldrOf(h) + TopicsHeading
  }

  /** Everything of the hierarchical context before its details section. */
  function DetailsStart(h: HierarchicalSummary): string {
    HeadlinesStart(h) + Join("\n", HeadlineLines(NuggetsOf(h))) + DetailsHeading
  }

  /** The collapsed overview (TLDR and headline list) followed by every
      nugget expanded. */
  function HierarchicalContext(h: HierarchicalSummary): string {
    DetailsStart(h) + Join("\n\n", DetailBlocks(NuggetsOf(h)))
  }

  const QaIntro: string := "You have been provided with a Q&A interface. Here are the available questions and their answers:\n\n"

  function QaBlock(p: QAPair): string {
    "Q: " + p.question + "\nA: " + p.answer
  }

  function QaBlocks(ps: seq<QAPair>): seq<string> {
    seq(|ps|, i requires 0 <= i < |ps| => QaBlock(ps[i]))
  }

  /** Every provided question/answer pair, concatenated. */
  function QaContext(q: QaSummary): string {
    QaIntro + Join("\n\n", QaBlocks(PairsOf(q)))
  }

  const DenseIntro: string := "You have been provided with the following summary:\n\n"

  /** The context the simulated reader answers from, chosen by the kind of
      artifact; the dense summary is shown verbatim after a fixed intro. */
  function Context(a: Artifact): (c: string)
    ensures a.DenseText? ==> |c| == |DenseIntro| + |a.text| && c[..|DenseIntro|] == DenseIntro && c[|DenseIntro|..] == a.text
  {
    match a
    case HierarchicalView(h) => HierarchicalContext(h)
    case QaView(q) => QaContext(q)
    case DenseText(t) => DenseIntro + t
  }

  /** Where headline line `i` stands in the hierarchical context. */
  function HeadlinePos(h: HierarchicalSummary, i: nat): nat
    requires i <= |NuggetsOf(h)|
  {
    |HeadlinesStart(h)| + JoinOffset("\n", HeadlineLines(NuggetsOf(h)), i)
  }

  /** Where detail block `i` stands in the hierarchical context. */
  function DetailPos(h: HierarchicalSummary, i: nat): nat
    requires i <= |NuggetsOf(h)|
  {
    |DetailsStart(h)| + JoinOffset("\n\n", DetailBlocks(NuggetsOf(h)), i)
  }

  /** The hierarchical context opens with the TLDR, empty when the key is missing. */
  lemma HierarchicalOpensWithTldr(h: HierarchicalSummary)
    ensures var c := HierarchicalContext(h);
      && |HierarchicalIntro| + 6 + |TldrOf(h)| <= |c|
      && c[|HierarchicalIntro|..|HierarchicalIntro| + 6 + |TldrOf(h)|] == "TLDR: " + TldrOf(h)
  {
    var tl := "TLDR: " + TldrOf(h);
    var rest := Join("\n", HeadlineLines(NuggetsOf(h))) + DetailsHeading + Join("\n\n", DetailBlocks(NuggetsOf(h)));
    var hs := HeadlinesStart(h);
    assert HierarchicalContext(h) == hs + rest;
    assert hs == HierarchicalIntro + tl + TopicsHeading;
    SliceOfLeft(hs, rest, |HierarchicalIntro|, |HierarchicalIntro| + |tl|);
    SliceOfMiddle(HierarchicalIntro, tl, TopicsHeading, 0, |tl|);
  }

  /** Nugget `i`'s headline stands as a "- " line in the overview, before the
      details heading. */
  lemma {:induction false} HierarchicalListsHeadline(h: HierarchicalSummary, i: nat)
    requires i < |NuggetsOf(h)|
    ensures var line := "- " + NuggetsOf(h)[i].headline;
      && |HeadlinesStart(h)| <= HeadlinePos(h, i)
      && HeadlinePos(h, i) + |line| + |DetailsHeading| <= |DetailsStart(h)|
      && HierarchicalContext(h)[HeadlinePos(h, i)..HeadlinePos(h, i) + |line|] == line
  {
    var lines := HeadlineLines(NuggetsOf(h));
    var lj := Join("\n", lines);
    var hs := HeadlinesStart(h);
    var ds := DetailsStart(h);
    assert ds == hs + lj + DetailsHeading;
    JoinPartAt("\n", lines, i);
    var a := JoinOffset("\n", lines, i);
    assert HeadlinePos(h, i) == |hs| + a;
    SliceOfMiddle(hs, lj, DetailsHeading, a, a + |lines[i]|);
    SliceOfLeft(ds, Join("\n\n", DetailBlocks(NuggetsOf(h))), |hs| + a, |hs| + a + |lines[i]|);
  }

  /** The details section opens with its heading, after the whole overview. */
  lemma HierarchicalDetailsHeading(h: HierarchicalSummary)
    ensures |DetailsHeading| <= |DetailsStart(h)|
    ensures HierarchicalContext(h)[|DetailsStart(h)| - |DetailsHeading|..|DetailsStart(h)|] == DetailsHeading
  {
    var pre := HeadlinesStart(h) + Join("\n", HeadlineLines(NuggetsOf(h)));
    var ds := DetailsStart(h);
    assert ds == pre + DetailsHeading;
    SliceOfRight(pre, DetailsHeading, 0, |DetailsHeading|);
    SliceOfLeft(ds, Join("\n\n", DetailBlocks(NuggetsOf(h))), |pre|, |ds|);
  }

  /** Nugget `i` stands expanded, headline and detail, after the details heading. */
  lemma {:induction false} HierarchicalDetailsNugget(h: HierarchicalSummary, i: nat)
    requires i < |NuggetsOf(h)|
    ensures var c := HierarchicalContext(h);
      var block := DetailBlock(NuggetsOf(h)[i]);
      && |DetailsStart(h)| <= DetailPos(h, i)
      && DetailPos(h, i) + |block| <= |c|
      && c[DetailPos(h, i)..DetailPos(h, i) + |block|] == block
  {
    var blocks := DetailBlocks(NuggetsOf(h));
    JoinPartAt("\n\n", blocks, i);
    var b := JoinOffset("\n\n", blocks, i);
    SliceOfRight(DetailsStart(h), Join("\n\n", blocks), b, b + |blocks[i]|);
  }

  /** Headline lines, and detail blocks, appear in nugget order. */
  lemma HierarchicalKeepsOrder(h: HierarchicalSummary, i: nat, j: nat)
    requires i < j < |NuggetsOf(h)|
    ensures HeadlinePos(h, i) < HeadlinePos(h, j)
    ensures DetailPos(h, i) < DetailPos(h, j)
  {
    JoinOffsetIncreasing("\n", HeadlineLines(NuggetsOf(h)), i, j);
    JoinOffsetIncreasing("\n\n", DetailBlocks(NuggetsOf(h)), i, j);
  }

  /** A missing `tldr` reads as an empty one, missing `nuggets` as an empty
      list, and missing `questions_and_answers` as an empty list. */
  lemma MissingKeysDefault(t: Option<string>, ns: Option<seq<Nugget>>)
    ensures Context(HierarchicalView(HierarchicalSummary(None, ns)))
         == Context(HierarchicalView(HierarchicalSummary(Some(""), ns)))
    ensures Context(HierarchicalView(HierarchicalSummary(t, None)))
         == Context(HierarchicalView(HierarchicalSummary(t, Some([]))))
    ensures Context(QaView(QaSummary(None))) == Context(QaView(QaSummary(Some([]))))
  {
  }

  /** Where pair `i` stands in the Q&A context. */
  function PairPos(q: QaSummary, i: nat): nat
    requires i <= |PairsOf(q)|
  {
    |QaIntro| + JoinOffset("\n\n", QaBlocks(PairsOf(q)), i)
  }

  /** The Q&A context holds every provided pair, in order. */
  lemma {:induction false} QaListsPair(q: QaSummary, i: nat)
    requires i < |PairsOf(q)|
    ensures var c := QaContext(q);
      && PairPos(q, i) + |QaBlock(PairsOf(q)[i])| <= |c|
      && c[PairPos(q, i)..PairPos(q, i) + |QaBlock(PairsOf(q)[i])|] == QaBlock(PairsOf(q)[i])
      && (i + 1 < |PairsOf(q)| ==> PairPos(q, i) < PairPos(q, i + 1))
  {
    var blocks := QaBlocks(PairsOf(q));
    JoinPartAt("\n\n", blocks, i);
    var b := JoinOffset("\n\n", blocks, i);
    SliceOfRight(QaIntro, Join("\n\n", blocks), b, b + |blocks[i]|);
    if i + 1 < |PairsOf(q)| {
      JoinOffsetIncreasing("\n\n", blocks, i, i + 1);
    }
  }

  /** `f"{i+1}. {q}"` */
  function QuestionLine(i: nat, q: string): string {
    Decimal(i + 1) + ". " + q
  }

  function QuestionLines(qs: seq<string>): seq<string> {
    seq(|qs|, i requires 0 <= i < |qs| => QuestionLine(i, qs[i]))
  }

  /** The questions, one per line, numbered from 1. */
  function QuestionText(qs: seq<string>): string {
    Join("\n", QuestionLines(qs))
  }

  /** Line `i` of the question text starts with a numeral that reads back
      as `i + 1`, followed by ". " and question `i`. */
  lemma {:induction false} QuestionNumbered(qs: seq<string>, i: nat)
    requires i < |qs|
    ensures var t := QuestionText(qs);
      var at := JoinOffset("\n", QuestionLines(qs), i);
      var d := |Decimal(i + 1)|;
      && at + d + 2 + |qs[i]| <= |t|
      && AllDigits(t[at..at + d]) && DigitsValue(t[at..at + d]) == i + 1
      && t[at + d..at + d + 2 + |qs[i]|] == ". " + qs[i]
  {
    var lines := QuestionLines(qs);
    var t := QuestionText(qs);
    var at := JoinOffset("\n", lines, i);
    var num := Decimal(i + 1);
    JoinPartAt("\n", lines, i);
    var seg := t[at..at + |lines[i]|];
    assert seg == num + (". " + qs[i]);
    SliceOfSlice(t, at, at + |lines[i]|, 0, |num|);
    SliceOfSlice(t, at, at + |lines[i]|, |num|, |lines[i]|);
    assert seg[..|num|] == num;
    assert seg[|num|..] == ". " + qs[i];
    DecimalRoundTrip(i + 1);
  }

  /** What the preference ranking is shown of one article: the first 1000
      characters of the article, the first 500 of the dense summary and the
      hierarchical TLDR. */
  datatype PreferenceView = PreferenceView(articleExcerpt: string, denseExcerpt: string, tldr: string)

  function PreferenceViewOf(article: string, dense: string, h: HierarchicalSummary): (v: PreferenceView)
    ensures v.articleExcerpt <= article && |v.articleExcerpt| == if |article| <= 1000 then |article| else 1000
    ensures v.denseExcerpt <= dense && |v.denseExcerpt| == if |dense| <= 500 then |dense| else 500
    ensures v.tldr == h.tldr.GetOr("")
  {
    PreferenceView(Prefix(article, 1000), Prefix(dense, 500), TldrOf(h))
  }
}
