/**
 * The heuristic band scorer of the scoring worker: a fluency score from the
 * mean words-per-minute and the hesitation ratio of the recorded turns, three
 * constant placeholder sub-scores, and an overall score rounded to the nearest
 * half band. Overall scores are represented in half bands (15 is band 7.5).
 */
module Scoring {
  import opened Wrappers
  import opened Metadata
  import Summary

  // ---------------------------------------------------------------------------
  // JavaScript division of non-negative integers

  /** The value of `a / b` for non-negative integers: a ratio when b > 0, and
      otherwise Infinity (a > 0) or NaN (a == 0). */
  datatype Quotient = Ratio(num: nat, den: nat) | Infinity | NaN

  predicate Valid(q: Quotient) {
    q.Ratio? ==> q.den > 0
  }

  function Divide(a: nat, b: nat): (q: Quotient)
    ensures Valid(q)
    ensures q.NaN? <==> a == 0 && b == 0
    ensures q.Infinity? <==> a > 0 && b == 0
    ensures q.Ratio? ==> q.num * b == a * q.den
  {
    if b > 0 then Ratio(a, b) else if a > 0 then Infinity else NaN
  }

  /** `q < k`: false for NaN and for Infinity. */
  predicate Below(q: Quotient, k: nat) {
    q.Ratio? && q.num < k * q.den
  }

  /** `q > p / d`: true for Infinity, false for NaN. */
  predicate Above(q: Quotient, p: nat, d: nat) {
    q.Infinity? || (q.Ratio? && d * q.num > p * q.den)
  }

  /** `x <= y` between two numbers neither of which is NaN. */
  predicate AtMost(x: Quotient, y: Quotient) {
    !x.NaN? && !y.NaN? && (y.Infinity? || (x.Ratio? && y.Ratio? && x.num * y.den <= y.num * x.den))
  }

  lemma MulStrict(k: nat, x: int, y: int)
    requires k > 0 && x < y
    ensures k * x < k * y
  {
  }

  /** Whatever is below a number below k is below k too. */
  lemma BelowDown(x: Quotient, y: Quotient, k: nat)
    requires Valid(x) && Valid(y) && AtMost(x, y) && Below(y, k)
    ensures Below(x, k)
  {
    if x.num >= k * x.den {
      MulMonotone(y.den, k * x.den, x.num);
      MulStrict(x.den, y.num, k * y.den);
      assert false;
    }
  }

  /** Whatever is above a number above p/d is above p/d too. */
  lemma AboveUp(x: Quotient, y: Quotient, p: nat, d: nat)
    requires Valid(x) && Valid(y) && AtMost(x, y) && Above(x, p, d)
    ensures Above(y, p, d)
  {
    if y.Ratio? && d * y.num <= p * y.den {
      MulMonotone(x.den, d * y.num, p * y.den);
      MulStrict(y.den, p * x.den, d * x.num);
      MulMonotone(d, x.num * y.den, y.num * x.den);
      assert false;
    }
  }

  // ---------------------------------------------------------------------------
  // Mean rate and hesitation ratio

  function SumWpm(rs: seq<SpeechRecord>): nat {
    if rs == [] then 0 else SumWpm(rs[..|rs| - 1]) + rs[|rs| - 1].wordsPerMinute
  }

  /** `calculateAverageWPM`: the arithmetic mean of the per-turn rates; NaN for no turns. */
  function AverageWpm(rs: seq<SpeechRecord>): (q: Quotient)
    ensures Valid(q)
    ensures q.NaN? <==> rs == []
    ensures rs != [] ==> q == Ratio(SumWpm(rs), |rs|)
  {
    Divide(SumWpm(rs), |rs|)
  }

  /** `calculateHesitationRatio`: total hesitation markers over total words. */
  function HesitationRatio(rs: seq<SpeechRecord>): (q: Quotient)
    ensures Valid(q)
    ensures q.Ratio? <==> Summary.TotalsOf(rs).words > 0
    ensures q.Ratio? ==> q.num == Summary.TotalsOf(rs).hesitations && q.den == Summary.TotalsOf(rs).words
  {
    var t := Summary.TotalsOf(rs);
    Divide(t.hesitations, t.words)
  }

  lemma SumWpmOfPair(r0: SpeechRecord, r1: SpeechRecord)
    ensures SumWpm([r0, r1]) == r0.wordsPerMinute + r1.wordsPerMinute
  {
    assert [r0, r1][..1] == [r0];
    assert [r0][..0] == [];
    assert SumWpm([r0]) == r0.wordsPerMinute;
  }

  /** The scorer's mean of rates is not the summary's totals-based rate: for the
      two turns of 10 words in 5 s and 20 words in 20 s it is 90, against 72. */
  lemma MeanOfRatesDiffersFromSummary()
    ensures AverageWpm(Summary.TwoTurns) == Ratio(180, 2)
    ensures Summary.AverageRate(Summary.TotalsOf(Summary.TwoTurns)) == Summary.Finite(72)
  {
    SumWpmOfPair(Summary.TwoTurns[0], Summary.TwoTurns[1]);
    Summary.TotalsBasedAverage();
  }

  // ---------------------------------------------------------------------------
  // Fluency

  function Max(a: int, b: int): int {
    if a >= b then a else b
  }

  /** The body of `analyzeFluency`: one band off per condition met. The three
      conditions are nested, so the score is 9, 8, 7 or 6 and the final
      `Math.max(score, 5)` never changes it. NaN meets no condition. */
  function FluencyScore(avgWpm: Quotient, ratio: Quotient): (score: int)
    ensures 6 <= score <= 9
    ensures score <= 8 <==> Below(avgWpm, 100) || Above(ratio, 1, 5)
    ensures score <= 7 <==> Below(avgWpm, 80) || Above(ratio, 3, 10)
    ensures score <= 6 <==> Below(avgWpm, 60) || Above(ratio, 2, 5)
  {
    var score := 9;
    var score := if Below(avgWpm, 100) || Above(ratio, 1, 5) then score - 1 else score;
    var score := if Below(avgWpm, 80) || Above(ratio, 3, 10) then score - 1 else score;
    var score := if Below(avgWpm, 60) || Above(ratio, 2, 5) then score - 1 else score;
    Max(score, 5)
  }

  /** `analyzeFluency`; the coherence score it computes is never used. */
  function AnalyzeFluency(rs: seq<SpeechRecord>): (score: int)
    ensures 6 <= score <= 9
  {
    FluencyScore(AverageWpm(rs), HesitationRatio(rs))
  }

  /** Speaking faster, or hesitating less, never lowers the fluency score. */
  lemma FluencyMonotone(slow: Quotient, fast: Quotient, calm: Quotient, hesitant: Quotient)
    requires Valid(slow) && Valid(fast) && Valid(calm) && Valid(hesitant)
    requires AtMost(slow, fast) && AtMost(calm, hesitant)
    ensures FluencyScore(slow, hesitant) <= FluencyScore(fast, calm)
  {
    var s, f := FluencyScore(slow, hesitant), FluencyScore(fast, calm);
    if Below(fast, 100) { BelowDown(slow, fast, 100); }
    if Below(fast, 80) { BelowDown(slow, fast, 80); }
    if Below(fast, 60) { BelowDown(slow, fast, 60); }
    if Above(calm, 1, 5) { AboveUp(calm, hesitant, 1, 5); }
    if Above(calm, 3, 10) { AboveUp(calm, hesitant, 3, 10); }
    if Above(calm, 2, 5) { AboveUp(calm, hesitant, 2, 5); }
  }

  /** With no recorded turns both figures are NaN and no band is taken off. */
  lemma NoMetadataScoresNine()
    ensures AnalyzeFluency([]) == 9
  {
  }

  // ---------------------------------------------------------------------------
  // Overall band

  function Sum(scores: seq<int>): int {
    if scores == [] then 0 else Sum(scores[..|scores| - 1]) + scores[|scores| - 1]
  }

  /** `calculateOverallScore`, in half bands: the mean rounded to the nearest
      half, that is within a quarter band of the mean (ties round up). The empty
      list yields NaN, here None. */
  function OverallHalves(scores: seq<int>): (h: Option<int>)
    ensures h.None? <==> scores == []
    ensures h.Some? ==> 4 * Sum(scores) - |scores| < 2 * |scores| * h.value <= 4 * Sum(scores) + |scores|
  {
    if scores == [] then None else Some(RoundDiv(2 * Sum(scores), |scores|))
  }

  lemma {:induction false} SumBounds(scores: seq<int>, lo: int, hi: int)
    requires forall i :: 0 <= i < |scores| ==> lo <= scores[i] <= hi
    ensures |scores| * lo <= Sum(scores) <= |scores| * hi
    decreases |scores|
  {
    if scores != [] {
      var n := |scores|;
      SumBounds(scores[..n - 1], lo, hi);
      assert n * lo == (n - 1) * lo + lo;
      assert n * hi == (n - 1) * hi + hi;
    }
  }

  /** The overall band lies between the lowest and the highest sub-score. */
  lemma OverallWithinRange(scores: seq<int>, lo: int, hi: int)
    requires scores != []
    requires forall i :: 0 <= i < |scores| ==> lo <= scores[i] <= hi
    ensures 2 * lo <= OverallHalves(scores).value <= 2 * hi
  {
    var n, h := |scores|, OverallHalves(scores).value;
    SumBounds(scores, lo, hi);
    if h < 2 * lo {
      MulMonotone(2 * n, h, 2 * lo - 1);
      assert false;
    }
    if h > 2 * hi {
      MulMonotone(2 * n, 2 * hi + 1, h);
      assert false;
    }
  }

  /** The four scores `processScoring` reports, the overall one in half bands. */
  datatype Report = Report(fluency: int, lexical: int, grammatical: int, pronunciation: int, overallHalves: int)

  /** The lexical, grammatical and pronunciation analyses are placeholders. */
  const PlaceholderScore := 7

  lemma SumOfFour(a: int, b: int, c: int, d: int)
    ensures Sum([a, b, c, d]) == a + b + c + d
  {
    assert [a, b, c, d][..3] == [a, b, c];
    assert [a, b, c][..2] == [a, b];
    assert [a, b][..1] == [a];
    assert [a][..0] == [];
    assert Sum([a]) == a;
    assert Sum([a, b]) == a + b;
    assert Sum([a, b, c]) == a + b + c;
  }

  /** `processScoring` without the constant feedback. */
  function ProcessScoring(rs: seq<SpeechRecord>): (r: Report)
    ensures r.fluency == AnalyzeFluency(rs)
    ensures r.lexical == r.grammatical == r.pronunciation == PlaceholderScore
  {
    var fluency := AnalyzeFluency(rs);
    var overall := OverallHalves([fluency, PlaceholderScore, PlaceholderScore, PlaceholderScore]);
    Report(fluency, PlaceholderScore, PlaceholderScore, PlaceholderScore, overall.value)
  }

  /** With three sub-scores fixed at 7, the overall band is 7 when fluency is 6
      or 7, and 7.5 when it is 8 or 9. */
  lemma OverallIsSevenOrSevenAndAHalf(rs: seq<SpeechRecord>)
    ensures ProcessScoring(rs).overallHalves == if AnalyzeFluency(rs) <= 7 then 14 else 15
  {
    var f := AnalyzeFluency(rs);
    SumOfFour(f, 7, 7, 7);
    if f <= 7 {
      RoundDivUnique(2 * (f + 21), 4, 14);
    } else {
      RoundDivUnique(2 * (f + 21), 4, 15);
    }
  }

}
