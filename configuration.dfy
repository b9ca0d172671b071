/**
 * The shared `config` object that the test manager, the recognition handlers
 * and app.js all read and write: the current test part, the test and timer
 * state, the turn flags shared with the recogniser, the collected speech
 * metadata and the playback handle.
 */
module Configuration {
  import opened Metadata

  /** The examiner's prompts. Part 3's topics are groups of questions, in the
      order their keys were declared. */
  datatype TestPrompts = TestPrompts(
    systemPrompt: string,
    scoringPrompt: string,
    part1Intro: string,
    part1Topics: seq<string>,
    part2Intro: string,
    part2Topics: seq<string>,
    part3Intro: string,
    part3Topics: seq<seq<string>>,
    conclusion: string)

  class Config {
    /** Milliseconds of silence after the latest result before the turn is sent. */
    const silenceThreshold: nat
    const testPrompts: TestPrompts

    var currentTestPart: int
    var testActive: bool
    var timerSeconds: nat
    /** How many intervals are ticking; starting the timer again does not stop the previous one. */
    var runningIntervals: nat
    var lastTimerValue: nat
    var messageSent: bool
    var pauseCount: nat
    var speechMetadata: seq<SpeechRecord>
    /** Whether a playback handle (`currentAudio`) is held. */
    var currentAudio: bool

    /** The object literal of app.js:4-73, with `pauseCount` as the recogniser's setup leaves it. */
    constructor(silenceThreshold: nat, testPrompts: TestPrompts)
      ensures this.silenceThreshold == silenceThreshold && this.testPrompts == testPrompts
      ensures currentTestPart == 1 && !testActive && !messageSent && !currentAudio
      ensures timerSeconds == 0 && runningIntervals == 0 && lastTimerValue == 0
      ensures pauseCount == 0 && speechMetadata == []
    {
      this.silenceThreshold := silenceThreshold;
      this.testPrompts := testPrompts;
      currentTestPart := 1;
      testActive := false;
      timerSeconds := 0;
      runningIntervals := 0;
      lastTimerValue := 0;
      messageSent := false;
      pauseCount := 0;
      speechMetadata := [];
      currentAudio := false;
    }
  }

}
