/** The quality evaluator and the selection among the candidates of one page. */
module Quality {
  import opened Wrappers
  import opened Numbers
  import opened Text
  import Partition
  import Tables
  import Transactions
  import PlanShape
  import Pipeline

  /** `usize` has 64 bits. */
  const USIZE_MAX: nat := U64_MAX

  const MINIMUM_TEXT: nat := 120
  const MINIMUM_SCORE: nat := 350

  datatype Block = Heading(level: nat, text: string) | Paragraph(text: string)

  datatype Reason = Accepted | TooShort | BelowThreshold

  datatype Metrics = Metrics(textVolume: nat, paragraphDistribution: nat, nonLinkShare: nat,
                             nonBoilerplateShare: nat, titleAgreement: nat)

  datatype Verdict = Verdict(metrics: Metrics, score: nat, accepted: bool, reasons: seq<Reason>)

  function SaturatingAdd16(a: nat, b: nat): nat { SaturatingAdd(a, b, U16_MAX) }

  /** The lengths of the block texts, in bytes. */
  function TextLength(blocks: seq<Block>): nat {
    if blocks == [] then 0 else TextLength(blocks[..|blocks| - 1]) + Bytes(blocks[|blocks| - 1].text)
  }

  function ParagraphCount(blocks: seq<Block>): nat {
    if blocks == [] then 0
    else ParagraphCount(blocks[..|blocks| - 1]) + if blocks[|blocks| - 1].Paragraph? then 1 else 0
  }

  function Narrowed(weighted: nat, weight: nat): nat { if weighted <= U16_MAX then weighted else weight }

  function Component(value: nat, full: nat, weight: nat): nat
    requires full >= 1
  {
    Narrowed(SaturatingMul(Min(value, full), weight, USIZE_MAX) / full, weight)
  }

  function Share(total: nat, excluded: nat, weight: nat): nat {
    if total == 0 then 0 else Narrowed(SaturatingMul(total - Min(excluded, total), weight, USIZE_MAX) / total, weight)
  }

  function Score(textLength: nat, paragraphs: nat, links: nat, boilerplate: nat, titleMatches: bool): Verdict {
    var m := Metrics(Component(textLength, 300, 300), Component(paragraphs, 4, 200),
                     Share(textLength, links, 200), Share(textLength, boilerplate, 200),
                     if titleMatches then 100 else 0);
    var score := SaturatingAdd16(SaturatingAdd16(SaturatingAdd16(SaturatingAdd16(m.textVolume, m.paragraphDistribution),
                                                                 m.nonLinkShare), m.nonBoilerplateShare), m.titleAgreement);
    var accepted := textLength >= MINIMUM_TEXT && score >= MINIMUM_SCORE;
    Verdict(m, score, accepted,
            if accepted then [Accepted]
            else (if textLength < MINIMUM_TEXT then [TooShort] else [])
                 + (if score < MINIMUM_SCORE then [BelowThreshold] else []))
  }

  // ----- exact arithmetic

  lemma ScaleBound(part: nat, whole: nat, weight: nat)
    requires part <= whole && whole >= 1
    ensures 0 <= SaturatingMul(part, weight, USIZE_MAX) / whole <= weight
  {
    var scaled := SaturatingMul(part, weight, USIZE_MAX);
    assert part * weight <= whole * weight;
    QuotientAtMost(scaled, weight, whole);
  }

  lemma QuotientAtMost(value: nat, bound: nat, divisor: nat)
    requires divisor >= 1 && value <= divisor * bound
    ensures value / divisor <= bound
  {
    Partition.Division(value, divisor);
    Partition.MulNext(bound, divisor);
    if value / divisor > bound {
      Partition.MulMonotone(bound + 1, value / divisor, divisor);
    }
  }

  lemma QuotientExact(whole: nat, weight: nat)
    requires whole >= 1
    ensures whole * weight / whole == weight
  {
    Partition.QuotientIs(whole * weight, weight, 0, whole);
  }

  lemma ComponentBounds(value: nat, full: nat, weight: nat)
    requires full >= 1 && weight <= U16_MAX
    ensures Component(value, full, weight) <= weight
  {
    ScaleBound(Min(value, full), full, weight);
  }

  lemma ShareBounds(total: nat, excluded: nat, weight: nat)
    requires weight <= U16_MAX
    ensures Share(total, excluded, weight) <= weight
  {
    if total >= 1 { ScaleBound(total - Min(excluded, total), total, weight); }
  }

  /** Nothing excluded earns the whole weight of any text the multiplication can hold. */
  lemma FullShare(total: nat, weight: nat)
    requires 1 <= total && total * weight <= USIZE_MAX && weight <= U16_MAX
    ensures Share(total, 0, weight) == weight
  {
    QuotientExact(total, weight);
  }

  /** Every score is the unsaturated sum of its components, each within its weight. */
  lemma ScoreIsExactSum(textLength: nat, paragraphs: nat, links: nat, boilerplate: nat, titleMatches: bool)
    ensures var v := Score(textLength, paragraphs, links, boilerplate, titleMatches);
            var m := v.metrics;
            && v.score == m.textVolume + m.paragraphDistribution + m.nonLinkShare + m.nonBoilerplateShare + m.titleAgreement
            && v.score <= 1000
            && m.textVolume <= 300 && m.paragraphDistribution <= 200 && m.nonLinkShare <= 200
            && m.nonBoilerplateShare <= 200 && m.titleAgreement <= 100
  {
    ComponentBounds(textLength, 300, 300);
    ComponentBounds(paragraphs, 4, 200);
    ShareBounds(textLength, links, 200);
    ShareBounds(textLength, boilerplate, 200);
  }

  /** The reasons name acceptance alone, or exactly the thresholds that were missed. */
  lemma ReasonsNameThresholds(textLength: nat, paragraphs: nat, links: nat, boilerplate: nat, titleMatches: bool)
    ensures var v := Score(textLength, paragraphs, links, boilerplate, titleMatches);
            && (v.accepted <==> textLength >= 120 && v.score >= 350)
            && (Accepted in v.reasons <==> v.accepted) && (v.accepted ==> v.reasons == [Accepted])
            && (TooShort in v.reasons <==> textLength < 120)
            && (BelowThreshold in v.reasons <==> v.score < MINIMUM_SCORE)
            && v.reasons != []
  {
  }

  lemma VolumeOfShort(textLength: nat)
    ensures Component(textLength, 300, 300) == Min(textLength, 300)
  {
    QuotientExact(300, Min(textLength, 300));
  }

  /**
    Plain text carries no links and no boilerplate: it is accepted exactly from 120 bytes of text,
    and is below the score threshold exactly when it has no text at all.
   */
  lemma PlainTextAcceptedExactly(textLength: nat, paragraphs: nat, titleMatches: bool)
    requires textLength * 200 <= USIZE_MAX
    ensures var v := Score(textLength, paragraphs, 0, 0, titleMatches);
            && (v.accepted <==> textLength >= 120)
            && (BelowThreshold in v.reasons <==> textLength == 0)
  {
    ScoreIsExactSum(textLength, paragraphs, 0, 0, titleMatches);
    ReasonsNameThresholds(textLength, paragraphs, 0, 0, titleMatches);
    VolumeOfShort(textLength);
    if textLength >= 1 { FullShare(textLength, 200); }
  }

  // ----- what links and boilerplate cost

  /** The share is what is kept of the text, weighted and rounded down. */
  lemma ShareIsFloor(total: nat, excluded: nat, weight: nat)
    requires total >= 1 && weight <= U16_MAX
    ensures var kept, s := total - Min(excluded, total), Share(total, excluded, weight);
            && s * total <= kept * weight
            && (kept * weight <= USIZE_MAX ==> kept * weight < s * total + total)
  {
    var kept := total - Min(excluded, total);
    var scaled := SaturatingMul(kept, weight, USIZE_MAX);
    ScaleBound(kept, total, weight);
    Partition.Division(scaled, total);
  }

  /**
    Excluded bytes cost their proportion of the weight, rounded up: nothing when nothing is excluded,
    and the whole weight when everything is.
   */
  lemma ExclusionCosts(total: nat, excluded: nat, weight: nat)
    requires 1 <= total && excluded <= total && total * weight <= USIZE_MAX && weight <= U16_MAX
    ensures var lost := weight - Share(total, excluded, weight);
            excluded * weight <= lost * total < excluded * weight + total
    ensures Share(total, total, weight) == 0
  {
    var s := Share(total, excluded, weight);
    ShareIsFloor(total, excluded, weight);
    assert (total - excluded) * weight == total * weight - excluded * weight;
    assert (total - excluded) * weight <= total * weight by { Partition.MulMonotone(total - excluded, total, weight); }
    assert (weight - s) * total == weight * total - s * total;
    assert 0 / total == 0;
  }

  /** More excluded text never earns more. */
  lemma ShareFalls(total: nat, excluded: nat, more: nat, weight: nat)
    requires excluded <= more && weight <= U16_MAX
    ensures Share(total, more, weight) <= Share(total, excluded, weight)
  {
    if total >= 1 {
      var kept, less := total - Min(excluded, total), total - Min(more, total);
      Partition.MulMonotone(less, kept, weight);
      var x, y := SaturatingMul(less, weight, USIZE_MAX), SaturatingMul(kept, weight, USIZE_MAX);
      ScaleBound(kept, total, weight);
      ScaleBound(less, total, weight);
      QuotientMonotone(x, y, total);
    }
  }

  lemma QuotientMonotone(x: nat, y: nat, divisor: nat)
    requires divisor >= 1 && x <= y
    ensures x / divisor <= y / divisor
  {
    Partition.Division(x, divisor);
    Partition.Division(y, divisor);
    Partition.MulNext(y / divisor, divisor);
    if x / divisor > y / divisor {
      Partition.MulMonotone(y / divisor + 1, x / divisor, divisor);
    }
  }

  /** A score is one point a byte up to 300, 50 a paragraph up to four, 100 for the title, and the two shares. */
  lemma ScoreIsWeighted(textLength: nat, paragraphs: nat, links: nat, boilerplate: nat, titleMatches: bool)
    ensures Score(textLength, paragraphs, links, boilerplate, titleMatches).score
            == Min(textLength, 300) + 50 * Min(paragraphs, 4) + (if titleMatches then 100 else 0)
               + Share(textLength, links, 200) + Share(textLength, boilerplate, 200)
  {
    VolumeOfShort(textLength);
    assert Component(paragraphs, 4, 200) == 50 * Min(paragraphs, 4);
    ScoreIsExactSum(textLength, paragraphs, links, boilerplate, titleMatches);
  }

  /** Links and boilerplate only ever lower a score, and what they leave unaccepted stays unaccepted. */
  lemma ExclusionLowersScore(textLength: nat, paragraphs: nat, links: nat, boilerplate: nat, moreLinks: nat, moreBoilerplate: nat,
                             titleMatches: bool)
    requires links <= moreLinks && boilerplate <= moreBoilerplate
    ensures var v := Score(textLength, paragraphs, links, boilerplate, titleMatches);
            var v' := Score(textLength, paragraphs, moreLinks, moreBoilerplate, titleMatches);
            v'.score <= v.score && (v'.accepted ==> v.accepted)
  {
    ScoreIsWeighted(textLength, paragraphs, links, boilerplate, titleMatches);
    ScoreIsWeighted(textLength, paragraphs, moreLinks, moreBoilerplate, titleMatches);
    ShareFalls(textLength, links, moreLinks, 200);
    ShareFalls(textLength, boilerplate, moreBoilerplate, 200);
  }

  // ----- selection

  datatype Candidate = Candidate(strategy: string, blocks: seq<Block>, links: nat, boilerplate: nat)

  datatype Decision = Decision(strategy: string, verdict: Verdict, selected: bool)

  predicate TitleMatches(sameTitle: (string, string) -> bool, blocks: seq<Block>, title: Option<string>) {
    title.Some? && exists i :: 0 <= i < |blocks| && blocks[i].Heading? && sameTitle(blocks[i].text, title.value)
  }

  function Evaluate(sameTitle: (string, string) -> bool, c: Candidate, title: Option<string>): Decision {
    Decision(c.strategy,
             Score(TextLength(c.blocks), ParagraphCount(c.blocks), c.links, c.boilerplate,
                   TitleMatches(sameTitle, c.blocks, title)),
             false)
  }

  /**
    A candidate is judged on its own text, paragraphs, links, boilerplate and headings: each component
    is the candidate's, and the verdict is the score's.
   */
  lemma EvaluationIs(sameTitle: (string, string) -> bool, c: Candidate, title: Option<string>)
    ensures var d, n := Evaluate(sameTitle, c, title), TextLength(c.blocks);
            && d.strategy == c.strategy && !d.selected
            && d.verdict.metrics.textVolume == Min(n, 300)
            && d.verdict.metrics.paragraphDistribution == 50 * Min(ParagraphCount(c.blocks), 4)
            && d.verdict.metrics.nonLinkShare == Share(n, c.links, 200)
            && d.verdict.metrics.nonBoilerplateShare == Share(n, c.boilerplate, 200)
            && (d.verdict.metrics.titleAgreement
                == if title.Some? && exists i :: 0 <= i < |c.blocks| && c.blocks[i].Heading? && sameTitle(c.blocks[i].text, title.value)
                   then 100 else 0)
            && (d.verdict.accepted <==> n >= 120 && d.verdict.score >= 350)
  {
    VolumeOfShort(TextLength(c.blocks));
    assert Component(ParagraphCount(c.blocks), 4, 200) == 50 * Min(ParagraphCount(c.blocks), 4);
  }

  /** Among the first `n`, `best` is the accepted decision with the highest score, the earliest of equals. */
  predicate Wins(decisions: seq<Decision>, n: nat, best: nat) {
    && best < n <= |decisions| && decisions[best].verdict.accepted
    && (forall i :: 0 <= i < n && decisions[i].verdict.accepted ==>
          decisions[i].verdict.score <= decisions[best].verdict.score)
    && (forall i :: 0 <= i < best && decisions[i].verdict.accepted ==>
          decisions[i].verdict.score < decisions[best].verdict.score)
  }

  predicate IsWinner(decisions: seq<Decision>, best: nat) { Wins(decisions, |decisions|, best) }

  predicate NoneAmong(decisions: seq<Decision>, n: nat) {
    n <= |decisions| && forall i :: 0 <= i < n ==> !decisions[i].verdict.accepted
  }

  predicate NoneAccepted(decisions: seq<Decision>) { NoneAmong(decisions, |decisions|) }

  /** `winner`: the fold over the accepted decisions. */
  method Winner(decisions: seq<Decision>) returns (best: Option<nat>)
    ensures best.None? <==> NoneAccepted(decisions)
    ensures best.Some? ==> IsWinner(decisions, best.value)
  {
    best := None;
    for i := 0 to |decisions|
      invariant best.None? ==> NoneAmong(decisions, i)
      invariant best.Some? ==> Wins(decisions, i, best.value)
    {
      if decisions[i].verdict.accepted && (best.None? || decisions[i].verdict.score > decisions[best.value].verdict.score) {
        best := Some(i);
      }
    }
  }

  predicate DistinctStrategies(candidates: seq<Candidate>) {
    forall i, j :: 0 <= i < j < |candidates| ==> candidates[i].strategy != candidates[j].strategy
  }

  /** The decisions as they are recorded with a run. */
  function Recorded(decisions: seq<Decision>): (r: seq<Tables.Candidate>)
    ensures |r| == |decisions|
    ensures forall i :: 0 <= i < |r| ==> r[i] == Tables.Candidate(decisions[i].strategy, decisions[i].verdict.score, decisions[i].selected)
  {
    seq(|decisions|, i requires 0 <= i < |decisions| =>
      Tables.Candidate(decisions[i].strategy, decisions[i].verdict.score, decisions[i].selected))
  }

  function EvaluateAll(sameTitle: (string, string) -> bool, candidates: seq<Candidate>, title: Option<string>): (r: seq<Decision>)
    ensures |r| == |candidates|
    ensures forall i :: 0 <= i < |r| ==> r[i] == Evaluate(sameTitle, candidates[i], title)
  {
    seq(|candidates|, i requires 0 <= i < |candidates| => Evaluate(sameTitle, candidates[i], title))
  }

  /**
    The selection of `from_html`: exactly one decision is selected, the accepted one with the
    highest score and the earliest strategy among equals, or none when none is accepted.
   */
  method Select(sameTitle: (string, string) -> bool, candidates: seq<Candidate>, title: Option<string>)
    returns (decisions: seq<Decision>, best: Option<nat>)
    requires DistinctStrategies(candidates)
    ensures |decisions| == |candidates|
    ensures forall i :: 0 <= i < |candidates| ==>
              decisions[i] == Evaluate(sameTitle, candidates[i], title).(selected := best == Some(i))
    ensures best.Some? ==> IsWinner(decisions, best.value)
    ensures best.None? ==> NoneAccepted(decisions)
  {
    var evaluated := EvaluateAll(sameTitle, candidates, title);
    best := Winner(evaluated);
    decisions := evaluated;
    if best.None? {
      return;
    }
    decisions := MarkStrategy(evaluated, evaluated[best.value].strategy);
    OneStrategy(candidates, best.value);
    WinnerByVerdict(evaluated, decisions, best.value);
  }

  lemma OneStrategy(candidates: seq<Candidate>, best: nat)
    requires DistinctStrategies(candidates) && best < |candidates|
    ensures forall i :: 0 <= i < |candidates| ==> (candidates[i].strategy == candidates[best].strategy <==> i == best)
  {
  }

  lemma WinnerByVerdict(decisions: seq<Decision>, marked: seq<Decision>, best: nat)
    requires IsWinner(decisions, best) && |marked| == |decisions|
    requires forall i :: 0 <= i < |decisions| ==> marked[i].verdict == decisions[i].verdict
    ensures IsWinner(marked, best)
  {
  }

  /** The loop that marks the decisions of one strategy. */
  method MarkStrategy(evaluated: seq<Decision>, strategy: string) returns (decisions: seq<Decision>)
    ensures |decisions| == |evaluated|
    ensures forall i :: 0 <= i < |evaluated| ==>
              decisions[i] == evaluated[i].(selected := evaluated[i].strategy == strategy)
  {
    decisions := evaluated;
    for i := 0 to |evaluated|
      invariant |decisions| == |evaluated|
      invariant forall k :: 0 <= k < i ==> decisions[k] == evaluated[k].(selected := evaluated[k].strategy == strategy)
      invariant forall k :: i <= k < |evaluated| ==> decisions[k] == evaluated[k]
    {
      decisions := decisions[i := decisions[i].(selected := decisions[i].strategy == strategy)];
    }
  }

  lemma {:induction false} SelectedCount(candidates: seq<Tables.Candidate>, best: Option<nat>)
    requires forall i :: 0 <= i < |candidates| ==> (candidates[i].selected <==> best == Some(i))
    ensures Tables.SelectedIn(candidates) == if best.Some? && best.value < |candidates| then 1 else 0
  {
    if candidates != [] { SelectedCount(candidates[..|candidates| - 1], best); }
  }

  /**
    What the selection hands to the pipeline keeps the pipeline's promise: one selected candidate
    of distinct strategies with a document, none selected with a low-quality rejection.
   */
  lemma SelectionKeepsPromise(sameTitle: (string, string) -> bool, candidates: seq<Candidate>, title: Option<string>,
                              decisions: seq<Decision>, best: Option<nat>, document: Tables.Document, shell: bool)
    requires candidates != [] && DistinctStrategies(candidates) && |decisions| == |candidates|
    requires forall i :: 0 <= i < |candidates| ==> 1 <= |candidates[i].strategy| <= 64
    requires forall i :: 0 <= i < |candidates| ==>
               decisions[i] == Evaluate(sameTitle, candidates[i], title).(selected := best == Some(i))
    requires best.Some? ==> best.value < |decisions|
    ensures PlanShape.HtmlKept(if best.Some? then Pipeline.Html(document, Recorded(decisions))
                               else Pipeline.LowQuality(Recorded(decisions), shell))
  {
    SelectedCount(Recorded(decisions), best);
    RecordedChecked(sameTitle, candidates, title, decisions, best);
    assert PlanShape.Distinct(Recorded(decisions));
  }

  lemma RecordedChecked(sameTitle: (string, string) -> bool, candidates: seq<Candidate>, title: Option<string>,
                        decisions: seq<Decision>, best: Option<nat>)
    requires |decisions| == |candidates|
    requires forall i :: 0 <= i < |candidates| ==>
               decisions[i] == Evaluate(sameTitle, candidates[i], title).(selected := best == Some(i))
    requires forall i :: 0 <= i < |candidates| ==> 1 <= |candidates[i].strategy| <= 64
    ensures Transactions.CandidatesChecked(Recorded(decisions))
  {
    forall i | 0 <= i < |decisions| ensures Transactions.CandidateChecked(Recorded(decisions)[i]) {
      EvaluatedScore(sameTitle, candidates[i], title);
    }
  }

  lemma EvaluatedScore(sameTitle: (string, string) -> bool, c: Candidate, title: Option<string>)
    ensures Evaluate(sameTitle, c, title).verdict.score <= 1000
  {
    ScoreIsExactSum(TextLength(c.blocks), ParagraphCount(c.blocks), c.links, c.boilerplate,
                    TitleMatches(sameTitle, c.blocks, title));
  }

  /**
    The one decision of a provider, a PDF or a transcript, selected or not as its path decides, is
    what the terminal calls validate: its strategy, its score and the number selected.
   */
  lemma PlainTextKeepsPromise(sameTitle: (string, string) -> bool, strategy: string, blocks: seq<Block>, title: Option<string>,
                              selected: bool)
    requires 1 <= |strategy| <= 64
    ensures var decision := Evaluate(sameTitle, Candidate(strategy, blocks, 0, 0), title).(selected := selected);
            PlanShape.Decided(Recorded([decision]), if selected then 1 else 0)
  {
    var c := Candidate(strategy, blocks, 0, 0);
    EvaluatedScore(sameTitle, c, title);
    SelectedCount(Recorded([Evaluate(sameTitle, c, title).(selected := selected)]), if selected then Some(0) else None);
  }
}
