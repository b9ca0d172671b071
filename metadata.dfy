/**
 * The speech-metadata collector: word count, words per minute, hesitation
 * markers and adjacent repeated words of one finished utterance, as computed by
 * `analyzeSpeechMetadata` in the speech worker and by `collectSpeechMetadata`
 * in app.js. Durations are integer milliseconds; `Math.round` of a non-negative
 * rational a/b is floor(a/b + 1/2).
 */
module Metadata {
  import opened Wrappers
  import opened Text

  // ---------------------------------------------------------------------------
  // Rounding

  /** `Math.round(a / b)` for b > 0: the integer r with r - 1/2 <= a/b < r + 1/2. */
  function RoundDiv(a: int, b: nat): (r: int)
    requires b > 0
    ensures 2 * a - b < 2 * b * r <= 2 * a + b
    ensures a >= 0 ==> r >= 0
  {
    var q := (2 * a + b) / (2 * b);
    assert 2 * b * q <= 2 * a + b < 2 * b * q + 2 * b;
    q
  }

  /** RoundDiv's contract leaves no choice: only one integer lies within 1/2 of a/b (rounding up at the tie). */
  lemma RoundDivUnique(a: int, b: nat, r: int)
    requires b > 0 && 2 * a - b < 2 * b * r <= 2 * a + b
    ensures r == RoundDiv(a, b)
  {
    var q := RoundDiv(a, b);
    if r < q {
      MulMonotone(2 * b, r + 1, q);
    } else if q < r {
      MulMonotone(2 * b, q + 1, r);
    }
  }

  lemma MulMonotone(k: nat, x: int, y: int)
    requires x <= y
    ensures k * x <= k * y
  {
  }

  // ---------------------------------------------------------------------------
  // Words

  /** `transcript.trim().split(/\s+/)` */
  function Words(transcript: string): (ws: seq<string>)
    ensures |ws| >= 1
  {
    SplitOnWhite(Trim(transcript))
  }

  /** An empty or whitespace-only transcript still counts as one (empty) word,
      because `"".split(/\s+/)` is `[""]`. */
  lemma BlankTranscriptIsOneWord(transcript: string)
    requires forall i :: 0 <= i < |transcript| ==> IsWhite(transcript[i])
    ensures Words(transcript) == [""]
  {
    assert Trim(transcript) == "";
  }

  /** Any other transcript splits into non-empty, whitespace-free words. */
  lemma WordsOfSpokenTranscript(transcript: string)
    requires exists i :: 0 <= i < |transcript| && !IsWhite(transcript[i])
    ensures forall k :: 0 <= k < |Words(transcript)| ==> IsWord(Words(transcript)[k])
  {
    SplitTrimmedIntoWords(Trim(transcript));
  }

  lemma {:induction false} SplitTrimmedIntoWords(s: string)
    requires s != [] && IsTrimmed(s)
    ensures forall k :: 0 <= k < |SplitOnWhite(s)| ==> IsWord(SplitOnWhite(s)[k])
    decreases |s|
  {
    var i := FirstWhite(s);
    if i < |s| {
      var tail := s[i + 1..];
      assert tail[|tail| - 1] == s[|s| - 1];
      var rest := TrimStart(tail);
      assert rest != [] && rest[|rest| - 1] == s[|s| - 1];
      SplitTrimmedIntoWords(rest);
    }
  }

  // ---------------------------------------------------------------------------
  // Repeated words

  /** Number of positions i in 1..|ws|-1 whose word equals the previous one, ignoring case. */
  function RepeatCount(ws: seq<string>): nat {
    if |ws| < 2 then 0
    else RepeatCount(ws[..|ws| - 1]) + (if SameIgnoringCase(ws[|ws| - 1], ws[|ws| - 2]) then 1 else 0)
  }

  /** Reference definition: the set of positions that repeat the word before them. */
  function RepeatPositions(ws: seq<string>): set<nat> {
    set i: nat | i < |ws| && RepeatsAt(ws, i)
  }

  predicate RepeatsAt(ws: seq<string>, i: nat) {
    1 <= i < |ws| && SameIgnoringCase(ws[i], ws[i - 1])
  }

  /** The counter equals the number of repeating positions, hence at most |ws| - 1. */
  lemma {:induction false} RepeatCountIsPositions(ws: seq<string>)
    ensures RepeatCount(ws) == |RepeatPositions(ws)|
    ensures |ws| >= 1 ==> RepeatCount(ws) <= |ws| - 1
    decreases |ws|
  {
    if |ws| < 2 {
      assert RepeatPositions(ws) == {};
    } else {
      var n := |ws|;
      var init := ws[..n - 1];
      RepeatCountIsPositions(init);
      PositionsGrow(ws);
    }
  }

  /** A longer list keeps the earlier repeating positions and may add its last one. */
  lemma PositionsGrow(ws: seq<string>)
    requires |ws| >= 2
    ensures var n := |ws|;
            |RepeatPositions(ws)| == |RepeatPositions(ws[..n - 1])| + if SameIgnoringCase(ws[n - 1], ws[n - 2]) then 1 else 0
  {
    var n := |ws|;
    var init := RepeatPositions(ws[..n - 1]);
    PositionsOfLonger(ws);
    if SameIgnoringCase(ws[n - 1], ws[n - 2]) {
      assert n - 1 !in init;
      assert RepeatPositions(ws) == init + {n - 1};
    } else {
      assert RepeatPositions(ws) == init;
    }
  }

  lemma PositionsOfLonger(ws: seq<string>)
    requires |ws| >= 2
    ensures var n := |ws|;
            RepeatPositions(ws) == RepeatPositions(ws[..n - 1])
              + (if SameIgnoringCase(ws[n - 1], ws[n - 2]) then {n - 1} else {})
  {
    var n := |ws|;
    var init := ws[..n - 1];
    var extra: set<nat> := if SameIgnoringCase(ws[n - 1], ws[n - 2]) then {n - 1} else {};
    forall i: nat ensures i in RepeatPositions(ws) <==> i in RepeatPositions(init) || i in extra {
      if i < n - 1 {
        assert ws[i] == init[i];
        assert 1 <= i ==> ws[i - 1] == init[i - 1];
      }
    }
  }

  /** The counting loop of speechWorker.js:38-43 and app.js:303-308. */
  method CountRepeatedWords(ws: seq<string>) returns (n: nat)
    ensures n == RepeatCount(ws)
  {
    n := 0;
    var i := 1;
    while i < |ws|
      invariant 1 <= i && (i <= |ws| || |ws| == 0)
      invariant |ws| >= 1 ==> n == RepeatCount(ws[..i])
      invariant |ws| == 0 ==> n == 0
    {
      if Lower(ws[i]) == Lower(ws[i - 1]) {
        n := n + 1;
      }
      assert ws[..i + 1][..i] == ws[..i];
      i := i + 1;
    }
    if |ws| >= 1 {
      assert ws[..i] == ws;
    }
  }

  // ---------------------------------------------------------------------------
  // Hesitation markers: transcript.match(/um|uh|er|hmm|like|you know/gi)

  /** The regular expression's alternatives, in the order it tries them. */
  const Markers: seq<string> := ["um", "uh", "er", "hmm", "like", "you know"]

  predicate StartsWithIgnoringCase(s: string, p: string) {
    |p| <= |s| && Lower(s[..|p|]) == p
  }

  /** Length of the first alternative from index k on that matches at the start of `s`; 0 if none does. */
  function MatchFrom(s: string, k: nat): (m: nat)
    requires k <= |Markers|
    ensures m == 0 || 2 <= m <= |s|
    decreases |Markers| - k
  {
    if k == |Markers| then 0
    else if StartsWithIgnoringCase(s, Markers[k]) then |Markers[k]|
    else MatchFrom(s, k + 1)
  }

  /** Length of the match of the regular expression at the start of `s`, 0 if there is none. */
  function MarkerAt(s: string): nat {
    MatchFrom(s, 0)
  }

  /** Number of global matches: scanning left to right, a match consumes its
      characters and the scan resumes after it; otherwise the scan moves one
      character on. Matches are substrings, not whole words ("her" contains "er"). */
  function HesitationCount(s: string): nat
    decreases |s|
  {
    if s == [] then 0
    else
      var m := MarkerAt(s);
      if m > 0 then 1 + HesitationCount(s[m..]) else HesitationCount(s[1..])
  }

  /** Matches do not overlap and each is at least two characters long. */
  lemma {:induction false} HesitationBound(s: string)
    ensures 2 * HesitationCount(s) <= |s|
    decreases |s|
  {
    if s != [] {
      var m := MarkerAt(s);
      if m > 0 {
        HesitationBound(s[m..]);
      } else {
        HesitationBound(s[1..]);
      }
    }
  }

  lemma LowerIdempotent(s: string)
    ensures Lower(Lower(s)) == Lower(s)
  {
  }

  lemma {:induction false} MatchFromIgnoresCase(s: string, k: nat)
    requires k <= |Markers|
    ensures MatchFrom(Lower(s), k) == MatchFrom(s, k)
    decreases |Markers| - k
  {
    if k < |Markers| {
      var p := Markers[k];
      if |p| <= |s| {
        assert Lower(s)[..|p|] == Lower(s[..|p|]);
        LowerIdempotent(s[..|p|]);
      }
      MatchFromIgnoresCase(s, k + 1);
    }
  }

  /** The count is case-insensitive: upper-case letters match as their lower-case forms. */
  lemma {:induction false} HesitationIgnoresCase(s: string)
    ensures HesitationCount(Lower(s)) == HesitationCount(s)
    decreases |s|
  {
    if s != [] {
      MatchFromIgnoresCase(s, 0);
      var m := MarkerAt(s);
      if m > 0 {
        assert Lower(s)[m..] == Lower(s[m..]);
        HesitationIgnoresCase(s[m..]);
      } else {
        assert Lower(s)[1..] == Lower(s[1..]);
        HesitationIgnoresCase(s[1..]);
      }
    }
  }

  // ---------------------------------------------------------------------------
  // The record

  /** One metadata record. `timestamp` is the clock reading (ms) when it was made
      (the source stores its ISO rendering); `durationCentis` is
      `durationSeconds.toFixed(2)` in hundredths of a second; `silencesCount` is
      present only in the records app.js collects. */
  datatype SpeechRecord = SpeechRecord(
    timestamp: int,
    durationCentis: nat,
    wordCount: nat,
    wordsPerMinute: nat,
    hesitationMarkers: nat,
    repeatedWords: nat,
    silencesCount: Option<nat>)

  /** `Math.round((wordCount / (elapsedMs / 1000)) * 60)`. */
  function WordsPerMinute(wordCount: nat, elapsedMs: nat): (wpm: nat)
    requires elapsedMs > 0
    ensures 2 * wordCount * 60000 - elapsedMs < 2 * elapsedMs * wpm <= 2 * wordCount * 60000 + elapsedMs
  {
    RoundDiv(wordCount * 60000, elapsedMs)
  }

  /** `(elapsedMs / 1000).toFixed(2)` read back in hundredths of a second. */
  function Centiseconds(elapsedMs: nat): (c: nat)
    ensures 2 * elapsedMs - 10 < 20 * c <= 2 * elapsedMs + 10
  {
    RoundDiv(elapsedMs, 10)
  }

  /** The record of one utterance, as both collectors compute it. */
  function Analysis(transcript: string, elapsedMs: nat, timestamp: int, silences: Option<nat>): SpeechRecord
    requires elapsedMs > 0
  {
    var ws := Words(transcript);
    SpeechRecord(timestamp, Centiseconds(elapsedMs), |ws|, WordsPerMinute(|ws|, elapsedMs),
                 HesitationCount(transcript), RepeatCount(ws), silences)
  }

  /** `analyzeSpeechMetadata` of the speech worker; `now` is the clock reading for the timestamp. */
  method AnalyzeSpeechMetadata(transcript: string, startTime: int, endTime: int, now: int) returns (rec: SpeechRecord)
    requires endTime > startTime
    ensures rec == Analysis(transcript, endTime - startTime, now, None)
    ensures rec.wordCount >= 1 && rec.repeatedWords < rec.wordCount
    ensures 2 * rec.hesitationMarkers <= |transcript|
    ensures rec.silencesCount.None?
  {
    var elapsedMs := endTime - startTime;
    var words := Words(transcript);
    var wordCount := |words|;
    var wordsPerMinute := WordsPerMinute(wordCount, elapsedMs);
    var hesitationMarkers := HesitationCount(transcript);
    var repeatedWords := CountRepeatedWords(words);
    RepeatCountIsPositions(words);
    HesitationBound(transcript);
    rec := SpeechRecord(now, Centiseconds(elapsedMs), wordCount, wordsPerMinute,
                        hesitationMarkers, repeatedWords, None);
  }

  /** The same words spoken over a longer time never give a higher rate. */
  lemma {:induction false} RateFallsWithDuration(transcript: string, shorterMs: nat, longerMs: nat, now: int)
    requires 0 < shorterMs <= longerMs
    ensures Analysis(transcript, longerMs, now, None).wordsPerMinute
         <= Analysis(transcript, shorterMs, now, None).wordsPerMinute
  {
    RoundDivAntitone(|Words(transcript)| * 60000, shorterMs, longerMs);
  }

  /** For a non-negative numerator, rounding a/b does not grow as b grows. */
  lemma RoundDivAntitone(a: nat, b1: nat, b2: nat)
    requires 0 < b1 <= b2
    ensures RoundDiv(a, b2) <= RoundDiv(a, b1)
  {
    var q1 := RoundDiv(a, b1);
    var q2 := RoundDiv(a, b2);
    if q2 > q1 {
      // b2 * (2 * q2 - 1) <= 2 * a < b1 * (2 * q1 + 1) <= b1 * (2 * q2 - 1) <= b2 * (2 * q2 - 1)
      assert b2 * (2 * q2 - 1) <= 2 * a;
      assert 2 * a < b1 * (2 * q1 + 1);
      MulMonotone(b1, 2 * q1 + 1, 2 * q2 - 1);
      MulMonotoneLeft(b1, b2, 2 * q2 - 1);
      assert false;
    }
  }

  lemma MulMonotoneLeft(x: nat, y: nat, k: nat)
    requires x <= y
    ensures x * k <= y * k
  {
  }

  /** "um I think it is good good" spoken over 6 s: 7 words, 70 words per minute,
      one hesitation marker ("um") and one repeat ("good good"). */
  lemma WorkedExample(now: int)
    ensures var r := Analysis("um I think it is good good", 6000, now, None);
      r.wordCount == 7 && r.wordsPerMinute == 70 && r.hesitationMarkers == 1 && r.repeatedWords == 1
      && r.durationCentis == 600
  {
    WorkedExampleWords();
    WorkedExampleRepeats();
    WorkedExampleMarkers();
    RoundDivUnique(7 * 60000, 6000, 70);
    RoundDivUnique(6000, 10, 600);
  }

  lemma WorkedExampleWords()
    ensures Words("um I think it is good good") == ["um", "I", "think", "it", "is", "good", "good"]
  {
    var ws := ["um", "I", "think", "it", "is", "good", "good"];
    var t := "um I think it is good good";
    ExampleWordsAreWords();
    ExampleJoin();
    JoinOfWordsIsTrimmed(ws);
    TrimOfTrimmed(t);
    SplitJoin(ws);
  }

  lemma ExampleJoin()
    ensures JoinWithSpace(["um", "I", "think", "it", "is", "good", "good"]) == "um I think it is good good"
  {
    ExampleJoinTail();
    var rest: seq<string> := ["I", "think", "it", "is", "good", "good"];
    JoinCons("um", rest, "I think it is good good", "um I think it is good good");
    assert ["um"] + rest == ["um", "I", "think", "it", "is", "good", "good"];
  }

  lemma ExampleJoinTail()
    ensures JoinWithSpace(["I", "think", "it", "is", "good", "good"]) == "I think it is good good"
  {
    ExampleJoinShort();
    var rest: seq<string> := ["it", "is", "good", "good"];
    JoinCons("think", rest, "it is good good", "think it is good good");
    assert ["think"] + rest == ["think", "it", "is", "good", "good"];
    JoinCons("I", ["think"] + rest, "think it is good good", "I think it is good good");
    assert ["I"] + (["think"] + rest) == ["I", "think", "it", "is", "good", "good"];
  }

  lemma ExampleJoinShort()
    ensures JoinWithSpace(["it", "is", "good", "good"]) == "it is good good"
  {
    var rest: seq<string> := ["good"];
    JoinCons("good", rest, "good", "good good");
    JoinCons("is", ["good"] + rest, "good good", "is good good");
    JoinCons("it", ["is"] + (["good"] + rest), "is good good", "it is good good");
    assert ["it"] + (["is"] + (["good"] + rest)) == ["it", "is", "good", "good"];
  }

  /** One unrolling of JoinWithSpace, for the worked example. */
  lemma JoinCons(w: string, rest: seq<string>, restJoined: string, joined: string)
    requires |rest| >= 1 && JoinWithSpace(rest) == restJoined && joined == w + " " + restJoined
    ensures JoinWithSpace([w] + rest) == joined
  {
    assert ([w] + rest)[1..] == rest;
  }

  lemma ExampleWordsAreWords()
    ensures var ws := ["um", "I", "think", "it", "is", "good", "good"];
            forall k :: 0 <= k < |ws| ==> IsWord(ws[k])
  {
    LettersAreWord("um");
    LettersAreWord("I");
    LettersAreWord("think");
    LettersAreWord("it");
    LettersAreWord("is");
    LettersAreWord("good");
  }

  /** No character between 'A' and 'z' is whitespace. */
  lemma LettersAreWord(w: string)
    requires w != [] && forall i :: 0 <= i < |w| ==> 'A' <= w[i] <= 'z'
    ensures IsWord(w)
  {
  }

  lemma WorkedExampleRepeats()
    ensures RepeatCount(["um", "I", "think", "it", "is", "good", "good"]) == 1
  {
    assert RepeatCount(["um"]) == 0;
    assert ["um", "I"][..1] == ["um"];
    assert !SameIgnoringCase("I", "um") by { assert |Lower("I")| != |Lower("um")|; }
    RepeatStep(["um", "I"]);
    assert ["um", "I", "think"][..2] == ["um", "I"];
    assert !SameIgnoringCase("think", "I") by { assert |Lower("think")| != |Lower("I")|; }
    RepeatStep(["um", "I", "think"]);
    assert ["um", "I", "think", "it"][..3] == ["um", "I", "think"];
    assert !SameIgnoringCase("it", "think") by { assert |Lower("it")| != |Lower("think")|; }
    RepeatStep(["um", "I", "think", "it"]);
    assert ["um", "I", "think", "it", "is"][..4] == ["um", "I", "think", "it"];
    assert !SameIgnoringCase("is", "it") by { assert Lower("is")[1] != Lower("it")[1]; }
    RepeatStep(["um", "I", "think", "it", "is"]);
    assert ["um", "I", "think", "it", "is", "good"][..5] == ["um", "I", "think", "it", "is"];
    assert !SameIgnoringCase("good", "is") by { assert |Lower("good")| != |Lower("is")|; }
    RepeatStep(["um", "I", "think", "it", "is", "good"]);
    assert ["um", "I", "think", "it", "is", "good", "good"][..6] == ["um", "I", "think", "it", "is", "good"];
    RepeatStep(["um", "I", "think", "it", "is", "good", "good"]);
  }

  lemma RepeatStep(ws: seq<string>)
    requires |ws| >= 2
    ensures RepeatCount(ws) == RepeatCount(ws[..|ws| - 1]) + if SameIgnoringCase(ws[|ws| - 1], ws[|ws| - 2]) then 1 else 0
  {
  }

  lemma WorkedExampleMarkers()
    ensures HesitationCount("um I think it is good good") == 1
  {
    var t := "um I think it is good good";
    assert StartsWithIgnoringCase(t, "um") by {
      assert t[..2] == "um";
    }
    assert MarkerAt(t) == 2;
    assert t[2..] == " I think it is good good";
    ExampleScan0a();
    ExampleScan0b();
    ExampleScan1a();
    ExampleScan1b();
    ExampleScan2a();
    ExampleScan2b();
    ExampleScan3a();
    ExampleScan3b();
  }

  lemma ExampleScan0a()
    ensures HesitationCount(" I think it is good good") == HesitationCount("think it is good good")
  {
    NoMarkerStep(" I think it is good good");
    NoMarkerStep("I think it is good good");
    NoMarkerStep(" think it is good good");
  }

  lemma ExampleScan0b()
    ensures HesitationCount("think it is good good") == HesitationCount("nk it is good good")
  {
    NoMarkerStep("think it is good good");
    NoMarkerStep("hink it is good good");
    NoMarkerStep("ink it is good good");
  }

  lemma ExampleScan1a()
    ensures HesitationCount("nk it is good good") == HesitationCount("it is good good")
  {
    NoMarkerStep("nk it is good good");
    NoMarkerStep("k it is good good");
    NoMarkerStep(" it is good good");
  }

  lemma ExampleScan1b()
    ensures HesitationCount("it is good good") == HesitationCount("is good good")
  {
    NoMarkerStep("it is good good");
    NoMarkerStep("t is good good");
    NoMarkerStep(" is good good");
  }

  lemma ExampleScan2a()
    ensures HesitationCount("is good good") == HesitationCount("good good")
  {
    NoMarkerStep("is good good");
    NoMarkerStep("s good good");
    NoMarkerStep(" good good");
  }

  lemma ExampleScan2b()
    ensures HesitationCount("good good") == HesitationCount("d good")
  {
    NoMarkerStep("good good");
    NoMarkerStep("ood good");
    NoMarkerStep("od good");
  }

  lemma ExampleScan3a()
    ensures HesitationCount("d good") == HesitationCount("ood")
  {
    NoMarkerStep("d good");
    NoMarkerStep(" good");
    NoMarkerStep("good");
  }

  lemma ExampleScan3b()
    ensures HesitationCount("ood") == HesitationCount("")
  {
    NoMarkerStep("ood");
    NoMarkerStep("od");
    NoMarkerStep("d");
  }

  /** A position where the scan finds no marker: its letter cannot begin one. */
  lemma NoMarkerStep(s: string)
    requires s != []
    requires LowerChar(s[0]) != 'u' && LowerChar(s[0]) != 'e' && LowerChar(s[0]) != 'l' && LowerChar(s[0]) != 'y'
    requires LowerChar(s[0]) == 'h' ==> |s| >= 2 && s[1] != 'm' && s[1] != 'M'
    ensures HesitationCount(s) == HesitationCount(s[1..])
  {
    NoMarkerHere(s, "um");
    NoMarkerHere(s, "uh");
    NoMarkerHere(s, "er");
    NoMarkerHere(s, "hmm");
    NoMarkerHere(s, "like");
    NoMarkerHere(s, "you know");
    NoMarkerAt(s);
    ScanSkips(s);
  }

  lemma NoMarkerAt(s: string)
    requires !StartsWithIgnoringCase(s, "um") && !StartsWithIgnoringCase(s, "uh") && !StartsWithIgnoringCase(s, "er")
    requires !StartsWithIgnoringCase(s, "hmm") && !StartsWithIgnoringCase(s, "like") && !StartsWithIgnoringCase(s, "you know")
    ensures MarkerAt(s) == 0
  {
    NoMatchFrom(s, 0);
  }

  /** Where no marker matches, the scan moves on by one character. */
  lemma ScanSkips(s: string)
    requires s != [] && MarkerAt(s) == 0
    ensures HesitationCount(s) == HesitationCount(s[1..])
  {
  }

  /** An alternative does not match where the first or the second letter differs. */
  lemma NoMarkerHere(s: string, p: string)
    requires 2 <= |p|
    requires |s| < |p| || LowerChar(s[0]) != p[0] || LowerChar(s[1]) != p[1]
    ensures !StartsWithIgnoringCase(s, p)
  {
    if |p| <= |s| {
      assert Lower(s[..|p|])[0] == LowerChar(s[0]);
      assert Lower(s[..|p|])[1] == LowerChar(s[1]);
    }
  }

  lemma {:induction false} NoMatchFrom(s: string, k: nat)
    requires k <= |Markers|
    requires forall j :: k <= j < |Markers| ==> !StartsWithIgnoringCase(s, Markers[j])
    ensures MatchFrom(s, k) == 0
    decreases |Markers| - k
  {
    if k < |Markers| {
      NoMatchFrom(s, k + 1);
    }
  }

  /** Markers are found inside words: "her" holds one. */
  lemma MarkerInsideWord()
    ensures HesitationCount("her") == 1
  {
    NoMarkerStep("her");
    assert "her"[1..] == "er";
    assert StartsWithIgnoringCase("er", "er") by {
      assert "er"[..2] == "er";
    }
    assert MarkerAt("er") == 2;
  }

}
