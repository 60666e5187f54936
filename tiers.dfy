// Final score summaries of both evaluations: the percentage and the feedback
// tier chosen by threshold.  The source computes the percentage in floating
// point; here it is the exact rational value, and every threshold test is
// also stated as an integer inequality on the score and the total.
module Tiers {

  /** Feedback tiers of the general evaluation (thresholds 85 and 60). */
  datatype QuizTier = Mastery | Acceptable | Recalibration

  /** Feedback tiers of the PDA evaluation (thresholds 80 and 60). */
  datatype PdaTier = Readiness | Potential | Reflection

  /** What the results screen shows: "score/total (percent%)". */
  datatype Summary = Summary(score: nat, total: nat, percent: real)

  /** The results screen of each variant: the summary line and the tier. */
  datatype QuizReport = QuizReport(summary: Summary, tier: QuizTier)
  datatype PdaReport = PdaReport(summary: Summary, tier: PdaTier)

  /** Position of a tier from worst (0) to best (2). */
  function QuizRank(t: QuizTier): nat {
    match t
    case Recalibration => 0
    case Acceptable => 1
    case Mastery => 2
  }

  function PdaRank(t: PdaTier): nat {
    match t
    case Reflection => 0
    case Potential => 1
    case Readiness => 2
  }

  /** (score / total) * 100, the percentage of correct answers. */
  function Percent(score: nat, total: nat): (p: real)
    requires total > 0
    ensures p * (total as real) == 100.0 * (score as real)
    ensures 0.0 <= p
    ensures score <= total ==> p <= 100.0
  {
    (score as real / total as real) * 100.0
  }

  /** The if/elif chain of the general results screen: the three bands of
      the percentage, from 85 up, from 60 below 85, and below 60. */
  function QuizTierOf(percent: real): (t: QuizTier)
    ensures t == Mastery <==> percent >= 85.0
    ensures t == Acceptable <==> 60.0 <= percent < 85.0
    ensures t == Recalibration <==> percent < 60.0
  {
    if percent >= 85.0 then Mastery
    else if percent >= 60.0 then Acceptable
    else Recalibration
  }

  /** The if/elif chain of the PDA results screen: the three bands of the
      percentage, from 80 up, from 60 below 80, and below 60. */
  function PdaTierOf(percent: real): (t: PdaTier)
    ensures t == Readiness <==> percent >= 80.0
    ensures t == Potential <==> 60.0 <= percent < 80.0
    ensures t == Reflection <==> percent < 60.0
  {
    if percent >= 80.0 then Readiness
    else if percent >= 60.0 then Potential
    else Reflection
  }

  /** For a positive total, "percent >= c" is the integer test 100*score >= c*total. */
  lemma PercentAtLeast(score: nat, total: nat, c: nat)
    requires total > 0
    ensures Percent(score, total) >= c as real <==> 100 * score >= c * total
  {
  }

  /** The general summary, with the source's guard that an empty list of
      questions shows 0/0 at 0%. */
  function QuizSummaryOf(score: nat, total: nat): (r: Summary)
    ensures r.total == total
    ensures total == 0 ==> r.score == 0 && r.percent == 0.0
    ensures total > 0 ==> r.score == score && r.percent * (total as real) == 100.0 * (score as real)
  {
    if total == 0 then Summary(0, 0, 0.0)
    else Summary(score, total, Percent(score, total))
  }

  /** The PDA summary; the source divides by the deck size without a guard,
      so the deck must not be empty. */
  function PdaSummaryOf(score: nat, total: nat): (r: Summary)
    requires total > 0
    ensures r.score == score && r.total == total
    ensures r.percent * (total as real) == 100.0 * (score as real)
  {
    Summary(score, total, Percent(score, total))
  }

  /** The general tier of a summary, characterised exactly in integers:
      the three tiers partition the possible scores. */
  lemma QuizTierExact(score: nat, total: nat)
    ensures var t := QuizTierOf(QuizSummaryOf(score, total).percent);
      && (t == Mastery <==> total > 0 && 100 * score >= 85 * total)
      && (t == Acceptable <==> total > 0 && 60 * total <= 100 * score < 85 * total)
      && (t == Recalibration <==> total == 0 || 100 * score < 60 * total)
  {
    if total > 0 {
      PercentAtLeast(score, total, 85);
      PercentAtLeast(score, total, 60);
    }
  }

  /** The PDA tier, characterised exactly in integers. */
  lemma PdaTierExact(score: nat, total: nat)
    requires total > 0
    ensures var t := PdaTierOf(PdaSummaryOf(score, total).percent);
      && (t == Readiness <==> 100 * score >= 80 * total)
      && (t == Potential <==> 60 * total <= 100 * score < 80 * total)
      && (t == Reflection <==> 100 * score < 60 * total)
  {
    PercentAtLeast(score, total, 80);
    PercentAtLeast(score, total, 60);
  }

  /** More correct answers never give a worse general tier. */
  lemma QuizTierMonotone(s1: nat, s2: nat, total: nat)
    requires s1 <= s2
    ensures QuizRank(QuizTierOf(QuizSummaryOf(s1, total).percent))
         <= QuizRank(QuizTierOf(QuizSummaryOf(s2, total).percent))
  {
    QuizTierExact(s1, total);
    QuizTierExact(s2, total);
  }

  /** More correct answers never give a worse PDA tier. */
  lemma PdaTierMonotone(s1: nat, s2: nat, total: nat)
    requires s1 <= s2 && total > 0
    ensures PdaRank(PdaTierOf(PdaSummaryOf(s1, total).percent))
         <= PdaRank(PdaTierOf(PdaSummaryOf(s2, total).percent))
  {
    PdaTierExact(s1, total);
    PdaTierExact(s2, total);
  }

  /** A general session of 3 questions answered all correctly: 100%, mastery. */
  lemma AllCorrectIsMastery()
    ensures QuizSummaryOf(3, 3) == Summary(3, 3, 100.0)
    ensures QuizTierOf(QuizSummaryOf(3, 3).percent) == Mastery
  {
  }

  /** A PDA deck of 20 with 16 correct: exactly 80%, the readiness tier. */
  lemma SixteenOfTwentyIsReadiness()
    ensures PdaSummaryOf(16, 20).percent == 80.0
    ensures PdaTierOf(PdaSummaryOf(16, 20).percent) == Readiness
  {
  }
}
