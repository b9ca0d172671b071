/**
 * The transcript accumulator of the recognition `result` handler: on every
 * result event the whole transcript is rebuilt from the full result list the
 * platform delivers, taking each result's first (best) alternative followed by a
 * space, and trimming at the end. Interim and final results are treated alike.
 */
module Transcript {
  import opened Text

  /** A result always carries at least one alternative; the first is the best. */
  type Alternatives = a: seq<string> | |a| > 0 witness [""]

  /** One SpeechRecognitionResult: its alternatives' transcripts and the platform's `isFinal` flag. */
  datatype RecognitionResult = RecognitionResult(alternatives: Alternatives, isFinal: bool)

  function Best(r: RecognitionResult): string {
    r.alternatives[0]
  }

  function Bests(rs: seq<RecognitionResult>): (ws: seq<string>)
    ensures |ws| == |rs| && forall i :: 0 <= i < |rs| ==> ws[i] == Best(rs[i])
  {
    seq(|rs|, i requires 0 <= i < |rs| => Best(rs[i]))
  }

  /** What the loop has built after visiting `rs`, before trimming. */
  function Concat(rs: seq<RecognitionResult>): string {
    if rs == [] then "" else Concat(rs[..|rs| - 1]) + Best(rs[|rs| - 1]) + " "
  }

  /** The transcript after a result event carrying the list `rs`. */
  function Accumulate(rs: seq<RecognitionResult>): (t: string)
    ensures IsTrimmed(t)
    ensures rs == [] ==> t == ""
  {
    Trim(Concat(rs))
  }

  /** The loop of the result handler (recognition.js:58-64, app.js:146-160). */
  method BuildTranscript(rs: seq<RecognitionResult>) returns (t: string)
    ensures t == Accumulate(rs)
  {
    var full := "";
    for i := 0 to |rs|
      invariant full == Concat(rs[..i])
    {
      full := full + rs[i].alternatives[0] + " ";
      assert rs[..i + 1][..i] == rs[..i];
    }
    assert rs[..|rs|] == rs;
    t := Trim(full);
  }

  lemma {:induction false} ConcatIgnoresFinality(a: seq<RecognitionResult>, b: seq<RecognitionResult>)
    requires Bests(a) == Bests(b)
    ensures Concat(a) == Concat(b)
    decreases |a|
  {
    if a != [] {
      assert Bests(a[..|a| - 1]) == Bests(b[..|b| - 1]);
      assert Best(a[|a| - 1]) == Bests(a)[|a| - 1];
      ConcatIgnoresFinality(a[..|a| - 1], b[..|b| - 1]);
    }
  }

  /** The transcript depends only on each result's best alternative: `isFinal`
      flags and the other alternatives play no part, and the same list always
      gives the same transcript. */
  lemma AccumulateIgnoresFinality(a: seq<RecognitionResult>, b: seq<RecognitionResult>)
    requires Bests(a) == Bests(b)
    ensures Accumulate(a) == Accumulate(b)
  {
    ConcatIgnoresFinality(a, b);
  }

  lemma {:induction false} ConcatOfWords(rs: seq<RecognitionResult>)
    requires |rs| >= 1
    ensures Concat(rs) == JoinWithSpace(Bests(rs)) + " "
    decreases |rs|
  {
    if |rs| == 1 {
      assert Concat(rs[..0]) == "";
    } else {
      var init := rs[..|rs| - 1];
      ConcatOfWords(init);
      assert Bests(rs) == Bests(init) + [Best(rs[|rs| - 1])];
      JoinWithSpaceSnoc(Bests(init), Best(rs[|rs| - 1]));
    }
  }

  /** When every best alternative is a single word, the transcript is exactly
      those words separated by single spaces. */
  lemma TranscriptOfWords(rs: seq<RecognitionResult>)
    requires |rs| >= 1 && forall i :: 0 <= i < |rs| ==> IsWord(Best(rs[i]))
    ensures Accumulate(rs) == JoinWithSpace(Bests(rs))
  {
    ConcatOfWords(rs);
    JoinOfWordsIsTrimmed(Bests(rs));
    TrimDropsTrailingSpace(JoinWithSpace(Bests(rs)));
  }

}
