/**
 * The metadata summary that accompanies a scoring request
 * (`generateMetadataSummary` and `getSpeakingFluidity` in testManager.js, and
 * the identical `generateMetadataSummary` of app.js with the label inlined).
 * The average speaking rate is computed from the totals over all records, not
 * as the mean of the per-record rates.
 */
module Summary {
  import opened Wrappers
  import opened Text
  import opened Metadata

  /** Sums over the records. `centis` is the summed `parseFloat(durationSeconds)`, in hundredths of a second. */
  datatype Totals = Totals(words: nat, centis: nat, hesitations: nat, repeated: nat)

  function Plus(a: Totals, b: Totals): Totals {
    Totals(a.words + b.words, a.centis + b.centis, a.hesitations + b.hesitations, a.repeated + b.repeated)
  }

  function Of(r: SpeechRecord): Totals {
    Totals(r.wordCount, r.durationCentis, r.hesitationMarkers, r.repeatedWords)
  }

  /** The totals the `forEach` accumulates, one record at a time. */
  function TotalsOf(rs: seq<SpeechRecord>): Totals {
    if rs == [] then Totals(0, 0, 0, 0) else Plus(TotalsOf(rs[..|rs| - 1]), Of(rs[|rs| - 1]))
  }

  /** Totals are additive over concatenation ... */
  lemma {:induction false} TotalsOfAppend(a: seq<SpeechRecord>, b: seq<SpeechRecord>)
    ensures TotalsOf(a + b) == Plus(TotalsOf(a), TotalsOf(b))
    decreases |b|
  {
    if b == [] {
      assert a + b == a;
    } else {
      assert (a + b)[..|a + b| - 1] == a + b[..|b| - 1];
      TotalsOfAppend(a, b[..|b| - 1]);
    }
  }

  /** ... so the summary does not depend on the order in which the turns were recorded. */
  lemma TotalsIgnoreOrder(a: seq<SpeechRecord>, b: seq<SpeechRecord>)
    ensures TotalsOf(a + b) == TotalsOf(b + a)
  {
    TotalsOfAppend(a, b);
    TotalsOfAppend(b, a);
  }

  /** The `forEach` accumulation of testManager.js:93-98 and app.js:408-413. */
  method AccumulateTotals(rs: seq<SpeechRecord>) returns (t: Totals)
    ensures t == TotalsOf(rs)
  {
    var totalWords: nat, totalDuration: nat, totalHesitations: nat, totalRepeatedWords: nat := 0, 0, 0, 0;
    for i := 0 to |rs|
      invariant Totals(totalWords, totalDuration, totalHesitations, totalRepeatedWords) == TotalsOf(rs[..i])
    {
      totalWords := totalWords + rs[i].wordCount;
      totalDuration := totalDuration + rs[i].durationCentis;
      totalHesitations := totalHesitations + rs[i].hesitationMarkers;
      totalRepeatedWords := totalRepeatedWords + rs[i].repeatedWords;
      assert rs[..i + 1][..i] == rs[..i];
    }
    assert rs[..|rs|] == rs;
    t := Totals(totalWords, totalDuration, totalHesitations, totalRepeatedWords);
  }

  // ---------------------------------------------------------------------------
  // Fluidity label

  const VeryFluid := "Very fluid"
  const ModeratelyFluid := "Moderately fluid"
  const LessFluid := "Less fluid with noticeable hesitations"

  /** `getSpeakingFluidity`: three tiers of the total hesitation count. */
  function Fluidity(hesitations: nat): (level: string)
    ensures level == VeryFluid <==> hesitations <= 5
    ensures level == ModeratelyFluid <==> 6 <= hesitations <= 15
    ensures level == LessFluid <==> hesitations > 15
  {
    if hesitations <= 5 then VeryFluid
    else if hesitations <= 15 then ModeratelyFluid
    else LessFluid
  }

  /** 0 for the best label, 2 for the worst. */
  function Tier(level: string): nat {
    if level == VeryFluid then 0 else if level == ModeratelyFluid then 1 else 2
  }

  /** More hesitations never earn a better label. */
  lemma FluidityMonotone(h1: nat, h2: nat)
    requires h1 <= h2
    ensures Tier(Fluidity(h1)) <= Tier(Fluidity(h2))
  {
  }

  // ---------------------------------------------------------------------------
  // Average rate and the summary text

  /** A JavaScript number as the template literal prints it. */
  datatype Rate = Finite(value: nat) | Infinity | NaN

  /** `Math.round((totalWords / totalDuration) * 60)`; with no recorded duration
      JavaScript yields Infinity, or NaN when there are no words either. */
  function AverageRate(t: Totals): (r: Rate)
    ensures r.Finite? <==> t.centis > 0
    ensures r.Finite? ==> 2 * t.words * 6000 - t.centis < 2 * t.centis * r.value <= 2 * t.words * 6000 + t.centis
  {
    if t.centis > 0 then Finite(RoundDiv(t.words * 6000, t.centis))
    else if t.words > 0 then Infinity
    else NaN
  }

  function RateText(r: Rate): string {
    match r
    case Finite(n) => DecimalString(n)
    case Infinity => "Infinity"
    case NaN => "NaN"
  }

  const NoMetadataText := "No speech metadata available."

  /** What the summary reports, before it is rendered. */
  datatype MetadataSummary =
    | NoMetadata
    | Summary(responses: nat, averageRate: Rate, hesitations: nat, repeated: nat, fluidity: string)

  function Summarize(rs: seq<SpeechRecord>): (s: MetadataSummary)
    ensures s.NoMetadata? <==> rs == []
    ensures s.Summary? ==> s.responses == |rs| && s.hesitations == TotalsOf(rs).hesitations
                           && s.repeated == TotalsOf(rs).repeated
                           && s.averageRate == AverageRate(TotalsOf(rs))
                           && s.fluidity == Fluidity(s.hesitations)
  {
    if rs == [] then NoMetadata
    else
      var t := TotalsOf(rs);
      Summary(|rs|, AverageRate(t), t.hesitations, t.repeated, Fluidity(t.hesitations))
  }

  /** The text of the template literal. */
  function Render(s: MetadataSummary): string {
    match s
    case NoMetadata => NoMetadataText
    case Summary(n, rate, h, rep, fluidity) =>
      "Speech Metadata Summary:\n- Total responses: " + DecimalString(n)
      + "\n- Average speaking rate: " + RateText(rate) + " words per minute"
      + "\n- Total hesitation markers: " + DecimalString(h)
      + "\n- Repeated words: " + DecimalString(rep)
      + "\n- Speaking fluidity: " + fluidity
  }

  /** `generateMetadataSummary` over a list of records. */
  method GenerateMetadataSummary(rs: seq<SpeechRecord>) returns (text: string)
    ensures text == Render(Summarize(rs))
    ensures rs == [] <==> text == NoMetadataText
  {
    if |rs| == 0 {
      return NoMetadataText;
    }
    var t := AccumulateTotals(rs);
    var avgWPM := AverageRate(t);
    text := "Speech Metadata Summary:\n- Total responses: " + DecimalString(|rs|)
      + "\n- Average speaking rate: " + RateText(avgWPM) + " words per minute"
      + "\n- Total hesitation markers: " + DecimalString(t.hesitations)
      + "\n- Repeated words: " + DecimalString(t.repeated)
      + "\n- Speaking fluidity: " + Fluidity(t.hesitations);
    assert |text| > |NoMetadataText|;
  }

  /** Two turns: 10 words in 5 s and 20 words in 20 s. */
  const TwoTurns := [SpeechRecord(0, 500, 10, 120, 0, 0, None), SpeechRecord(0, 2000, 20, 60, 0, 0, None)]

  /** 30 words in 25 s is 72 words per minute, although the two turns' own
      rates are 120 and 60. */
  lemma TotalsOfPair(r0: SpeechRecord, r1: SpeechRecord)
    ensures TotalsOf([r0, r1]) == Plus(Of(r0), Of(r1))
  {
    assert [r0, r1][..1] == [r0];
    assert [r0][..0] == [];
    assert TotalsOf([r0]) == Plus(Totals(0, 0, 0, 0), Of(r0)) == Of(r0);
  }

  lemma TwoTurnsTotals()
    ensures TotalsOf(TwoTurns) == Totals(30, 2500, 0, 0)
  {
    TotalsOfPair(TwoTurns[0], TwoTurns[1]);
  }

  lemma TotalsBasedAverage()
    ensures AverageRate(TotalsOf(TwoTurns)) == Finite(72)
  {
    TwoTurnsTotals();
    SeventyTwo();
  }

  lemma SeventyTwo()
    ensures AverageRate(Totals(30, 2500, 0, 0)) == Finite(72)
  {
    RoundDivUnique(30 * 6000, 2500, 72);
  }

  /** The label boundaries: 5 and 6, 15 and 16 hesitations. */
  lemma FluidityBoundaries()
    ensures Fluidity(5) == VeryFluid && Fluidity(6) == ModeratelyFluid
    ensures Fluidity(15) == ModeratelyFluid && Fluidity(16) == LessFluid
  {
  }

}
