/**
 * The test manager: the examiner's opening line for the selected part, the
 * `mm:ss` test clock, starting a test, and the metadata summary attached to a
 * scoring request. `Math.random()` becomes the index it selects, passed in.
 */
module TestSession {
  import opened Wrappers
  import opened Text
  import opened Configuration
  import Summary

  // ---------------------------------------------------------------------------
  // Opening line

  /** `xs[k]` as a string concatenation sees it: "undefined" past the end. */
  function Pick(xs: seq<string>, k: nat): string {
    if k < |xs| then xs[k] else "undefined"
  }

  /** The indices `Math.floor(Math.random() * n)` can produce. */
  predicate RandomIndex(k: nat, n: nat) {
    k < n || k == 0
  }

  /** `getIntroMessage`: part 2 adds a topic and part 3 the first question of a
      topic group to the part's introduction; part 1 and every other part get
      the part 1 introduction. `k2` and `k3` are the random indices. With no
      part 3 topic groups at all, `topics[undefined][0]` throws a TypeError,
      modelled as None. */
  function GetIntroMessage(p: TestPrompts, part: int, k2: nat, k3: nat): (intro: Option<string>)
    requires RandomIndex(k2, |p.part2Topics|) && RandomIndex(k3, |p.part3Topics|)
    ensures intro.None? <==> part == 3 && p.part3Topics == []
    ensures part != 2 && part != 3 ==> intro == Some(p.part1Intro)
    ensures part == 2 && p.part2Topics != [] ==>
      p.part2Intro + " " <= intro.value && intro.value[|p.part2Intro| + 1..] in p.part2Topics
    ensures part == 2 && p.part2Topics == [] ==> intro == Some(p.part2Intro + " undefined")
    ensures part == 3 && p.part3Topics != [] ==>
      exists g :: g in p.part3Topics && intro == Some(p.part3Intro + " " + Pick(g, 0))
  {
    match part
    case 2 =>
      var intro := p.part2Intro + " " + Pick(p.part2Topics, k2);
      assert intro[|p.part2Intro| + 1..] == Pick(p.part2Topics, k2);
      assert p.part2Topics == [] ==> intro == p.part2Intro + " undefined";
      Some(intro)
    case 3 =>
      if p.part3Topics == [] then None
      else
        var group := p.part3Topics[k3];
        Some(p.part3Intro + " " + Pick(group, 0))
    case _ => Some(p.part1Intro)
  }

  /** Part 3 opens with the first question of a group whenever every group has
      one; an empty group shows "undefined" instead. */
  lemma {:induction false} Part3OpensWithFirstQuestion(p: TestPrompts, k3: nat)
    requires RandomIndex(k3, |p.part3Topics|) && p.part3Topics != []
    requires forall g :: g in p.part3Topics ==> g != []
    ensures exists g :: g in p.part3Topics && GetIntroMessage(p, 3, 0, k3) == Some(p.part3Intro + " " + g[0])
  {
    var g := p.part3Topics[k3];
    assert g in p.part3Topics;
    assert GetIntroMessage(p, 3, 0, k3) == Some(p.part3Intro + " " + g[0]);
  }

  // ---------------------------------------------------------------------------
  // The test clock

  /** The `mm:ss` text of `updateTimerDisplay`: whole minutes and the remaining
      seconds, each `padStart(2, '0')`. Minutes beyond 99 take more digits. */
  function FormatTimer(seconds: nat): (text: string)
    ensures |text| >= 5 && text[|text| - 3] == ':'
    ensures AllDigits(text[..|text| - 3]) && AllDigits(text[|text| - 2..])
  {
    var mm := PadStart2(DecimalString(seconds / 60));
    var ss := PadStart2(DecimalString(seconds % 60));
    DecimalStringShort(seconds % 60);
    PadKeepsValue(DecimalString(seconds / 60));
    PadKeepsValue(DecimalString(seconds % 60));
    ClockText(mm, ss);
    mm + ":" + ss
  }

  /** Where the parts of a clock text sit. */
  lemma ClockText(mm: string, ss: string)
    requires |ss| == 2
    ensures var text := mm + ":" + ss;
            |text| == |mm| + 3 && text[|text| - 3] == ':' && text[..|text| - 3] == mm && text[|text| - 2..] == ss
  {
    var text := mm + ":" + ss;
    assert text[..|text| - 3] == mm;
    assert text[|text| - 2..] == ss;
  }

  /** Reads a clock text back: minutes before the colon, seconds after it. */
  function ParseTimer(text: string): nat
    requires |text| >= 3 && AllDigits(text[..|text| - 3]) && AllDigits(text[|text| - 2..])
  {
    60 * ParseDecimal(text[..|text| - 3]) + ParseDecimal(text[|text| - 2..])
  }

  lemma DecimalStringShort(n: nat)
    requires n < 100
    ensures |DecimalString(n)| <= 2
  {
    if n >= 10 {
      assert DecimalString(n / 10) == [DigitChar(n / 10)];
    }
  }

  /** Zero-padding neither adds non-digits nor changes the value. */
  lemma PadKeepsValue(s: string)
    requires AllDigits(s)
    ensures AllDigits(PadStart2(s)) && ParseDecimal(PadStart2(s)) == ParseDecimal(s)
  {
    var r := PadStart2(s);
    var z := r[..|r| - |s|];
    assert r == z + s;
    ParseDecimalLeadingZeros(z, s);
  }

  lemma FormatTimerParts(seconds: nat)
    ensures var text := FormatTimer(seconds);
            text[..|text| - 3] == PadStart2(DecimalString(seconds / 60))
            && text[|text| - 2..] == PadStart2(DecimalString(seconds % 60))
  {
    DecimalStringShort(seconds % 60);
    ClockText(PadStart2(DecimalString(seconds / 60)), PadStart2(DecimalString(seconds % 60)));
  }

  lemma MinutesValue(seconds: nat)
    ensures var text := FormatTimer(seconds);
            ParseDecimal(text[..|text| - 3]) == seconds / 60
  {
    FormatTimerParts(seconds);
    PadKeepsValue(DecimalString(seconds / 60));
    ParseDecimalString(seconds / 60);
  }

  lemma SecondsValue(seconds: nat)
    ensures var text := FormatTimer(seconds);
            |text[|text| - 2..]| == 2 && ParseDecimal(text[|text| - 2..]) == seconds % 60
  {
    FormatTimerParts(seconds);
    DecimalStringShort(seconds % 60);
    PadKeepsValue(DecimalString(seconds % 60));
    ParseDecimalString(seconds % 60);
  }

  /** The clock text always shows two seconds digits between 00 and 59, and it
      determines the elapsed seconds. */
  lemma FormatTimerRoundTrip(seconds: nat, text: string)
    requires text == FormatTimer(seconds)
    ensures |text[|text| - 2..]| == 2 && ParseDecimal(text[|text| - 2..]) < 60
    ensures ParseTimer(text) == seconds
  {
    MinutesValue(seconds);
    SecondsValue(seconds);
    MinutesAndSeconds(seconds);
  }

  lemma MinutesAndSeconds(seconds: nat)
    ensures 60 * (seconds / 60) + seconds % 60 == seconds && seconds % 60 < 60
  {
  }

  // ---------------------------------------------------------------------------
  // The manager

  class TestManager {
    const config: Config
    /** The text of the timer element. */
    var display: string
    /** The examiner messages announced with `newMessage` events, in order. */
    var announcements: seq<string>
    /** The prompts sent out with `requestScoring` events, in order. */
    var scoringRequests: seq<string>

    constructor(config: Config)
      ensures this.config == config && display == "" && announcements == [] && scoringRequests == []
    {
      this.config := config;
      display := "";
      announcements := [];
      scoringRequests := [];
    }

    /** `startTest`: a fresh test with no metadata and the flag cleared, the
        clock restarted, and the opening line announced; when choosing the
        opening line throws, nothing is announced, but the resets stand. */
    method StartTest(k2: nat, k3: nat)
      requires RandomIndex(k2, |config.testPrompts.part2Topics|) && RandomIndex(k3, |config.testPrompts.part3Topics|)
      modifies config`testActive, config`speechMetadata, config`messageSent
      modifies config`timerSeconds, config`runningIntervals, this`display, this`announcements
      ensures config.testActive && config.speechMetadata == [] && !config.messageSent
      ensures config.timerSeconds == 0 && display == FormatTimer(0)
      ensures config.runningIntervals == old(config.runningIntervals) + 1
      ensures announcements == old(announcements) + AsSeq(GetIntroMessage(config.testPrompts, config.currentTestPart, k2, k3))
    {
      config.testActive := true;
      config.speechMetadata := [];
      config.messageSent := false;
      StartTimer();
      var introMessage := GetIntroMessage(config.testPrompts, config.currentTestPart, k2, k3);
      if introMessage.Some? {
        announcements := announcements + [introMessage.value];
      }
    }

    /** `startTimer`: the clock restarts at zero and a new one-second interval
        begins; an interval started earlier is not stopped. */
    method StartTimer()
      modifies config`timerSeconds, config`runningIntervals, this`display
      ensures config.timerSeconds == 0 && display == FormatTimer(0)
      ensures config.runningIntervals == old(config.runningIntervals) + 1
    {
      config.timerSeconds := 0;
      UpdateTimerDisplay();
      config.runningIntervals := config.runningIntervals + 1;
    }

    /** One run of a running interval's callback: one more second on the clock. */
    method Tick()
      requires config.runningIntervals > 0
      modifies config`timerSeconds, this`display
      ensures config.timerSeconds == old(config.timerSeconds) + 1
      ensures display == FormatTimer(config.timerSeconds)
    {
      config.timerSeconds := config.timerSeconds + 1;
      UpdateTimerDisplay();
    }

    method UpdateTimerDisplay()
      modifies this`display
      ensures display == FormatTimer(config.timerSeconds)
    {
      var minutes := config.timerSeconds / 60;
      var seconds := config.timerSeconds % 60;
      display := PadStart2(DecimalString(minutes)) + ":" + PadStart2(DecimalString(seconds));
    }

    /** `generateMetadataSummary` over the collected records. */
    method GenerateMetadataSummary() returns (text: string)
      ensures text == Summary.Render(Summary.Summarize(config.speechMetadata))
    {
      text := Summary.GenerateMetadataSummary(config.speechMetadata);
    }

    /** `requestScoring`: the scoring prompt followed by the metadata summary. */
    method RequestScoring()
      modifies this`scoringRequests
      ensures scoringRequests == old(scoringRequests)
        + [config.testPrompts.scoringPrompt + "\n\n" + Summary.Render(Summary.Summarize(config.speechMetadata))]
    {
      var metadataSummary := GenerateMetadataSummary();
      scoringRequests := scoringRequests + [config.testPrompts.scoringPrompt + "\n\n" + metadataSummary];
    }
  }

}
