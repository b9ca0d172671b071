# A verified model of the IELTS speaking-test proctor

The system is a browser front end for a practice IELTS speaking test. An examiner's
prompts are shown and spoken, and the candidate answers by voice. The browser's speech
recogniser streams results. A silence timer or the recogniser's `end` event hands the
finished turn over, and it is sent to a chat model. After each spoken turn the front end
records speech metadata: the words, the rate, hesitation markers, repeated words and
pauses. A textual summary of those records goes out with the final scoring request.
A worker holds heuristic band scores. The model covers the core of that front end:

- `text.dfy`: the JavaScript string operations the core relies on, written out. These
  are `trim`, `split(/\s+/)`, `toLowerCase`, `toString` and `padStart(2, '0')`.
- `transcript.dfy`: how a `result` event rebuilds the whole transcript from the list of
  recognition results.
- `metadata.dfy`: the speech worker's `analyzeSpeechMetadata` and the identical
  computation in app.js.
- `summary.dfy`: `generateMetadataSummary` and `getSpeakingFluidity`, including the
  exact summary text.
- `scoring.dfy`: the scoring worker's fluency heuristic, rate and ratio helpers, and
  overall band.
- `turn.dfy`: the turn-taking protocol as a pure state machine over event traces. These
  are the `start`, `result`, silence-timer, `end` and `error` handlers, with the shared
  `messageSent` flag.
- `configuration.dfy`: the shared mutable `config` object, as a class.
- `recognition.dfy`: the `SpeechRecognitionManager` class. Each of its handlers is
  proved to do one step of the protocol.
- `testmanager.dfy`: the `TestManager` class. It covers intro selection, the `mm:ss`
  clock, starting a test and the scoring request.
- `app.dfy`: app.js. It covers its prompts, its copy of the recognition handlers wired
  to the chat, `sendMessage`, metadata collection, playback control and `startTest`.

Times are integers in milliseconds and are passed in wherever the code reads
`Date.now()`. Every division the code performs on numbers is modelled as an exact
rational value, not as a double, and `Math.round` and `toFixed(2)` round that exact
value half up. Where the code divides by zero, the `Infinity`/`NaN` outcomes are
explicit values.

### Where the code differs from what its comments and structure suggest

The model follows the code.

- An `error` event does not discard the turn. The `end` event that follows still hands
  over the transcript (`Turn.ErrorThenEndStillDispatches`).
- The silence timer hands over the transcript without checking that it is non-empty,
  whereas `end` checks. An empty turn is therefore not sent by `sendMessage`, but its
  metadata is still collected. It is a record of one (empty) word
  (`Turn.TimerDispatchesBlankTranscript`, `Metadata.BlankTranscriptIsOneWord`).
- The summary's average rate divides total words by total duration. The scorer's
  average is the mean of the per-turn rates, and the two differ
  (`Scoring.MeanOfRatesDiffersFromSummary`).
- Starting a test clears `messageSent`. If that lands between the silence timer and the
  `end` event of the same turn, the turn is handed over twice
  (`Turn.ResetBetweenTimerAndEndDispatchesTwice`).
- `startTimer` starts a new interval without stopping the one already running.
- app.js's `startTest` has no default case, so a part other than 1, 2 or 3 opens with
  an empty line. The test manager's `getIntroMessage` falls back to part 1.
- With no part 3 topic groups, both intro selections index `undefined` and throw a
  `TypeError`; the model returns None there, and the test starts without an opening line.
- `sendMessage` reads the history after adding the new bubble, so a typed or spoken
  message appears twice at the end of the request (`Application.ConversationMessageSentTwice`).
- The live-transcript bubble carries the `message user` classes. A manual send while it
  is shown therefore includes its text in the history.

## Model

| member | source | states |
|---|---|---|
| Text.Trim | static/js/speech/recognition.js:64 | the result is the slice of the input left once the whitespace on both sides is cut off; it is trimmed, no longer than the input, and empty exactly when the input is all whitespace |
| Text.TrimOfTrimmed | static/js/speech/recognition.js:113 | trimming a string that is already trimmed changes nothing |
| Text.TrimIdempotent | static/js/speech/recognition.js:64 | trimming twice is trimming once |
| Text.TrimDropsTrailingSpace | static/js/speech/recognition.js:61-64 | the trailing space the accumulation loop appends is removed again by the final trim |
| Text.SplitOnWhite | static/js/speech/speechWorker.js:32 | splitting on whitespace runs yields at least one piece and no piece contains whitespace |
| Text.SplitJoin | static/js/speech/speechWorker.js:32 | splitting words joined by single spaces gives the words back |
| Text.JoinOfWordsIsTrimmed | static/js/speech/recognition.js:58-64 | words joined by single spaces form a non-empty, trimmed string |
| Text.Lower | static/js/speech/speechWorker.js:40 | lower-casing keeps the length and maps each character on its own |
| Text.DecimalString | static/js/test/testManager.js:64 | `toString` of a non-negative integer is a non-empty digit string with no leading zero |
| Text.ParseDecimalString | static/js/test/testManager.js:64 | the decimal text of n reads back as n |
| Text.ParseDecimalLeadingZeros | static/js/test/testManager.js:64 | leading zeros do not change a digit string's value |
| Text.PadStart2 | static/js/test/testManager.js:64 | `padStart(2, '0')` keeps the text as a suffix, pads with zeros only, and yields at least two characters |
| Transcript.Accumulate | static/js/speech/recognition.js:58-64 | the rebuilt transcript is trimmed and is empty for an empty result list |
| Transcript.BuildTranscript | static/js/speech/recognition.js:58-64 | the accumulation loop yields the transcript of the whole result list |
| Transcript.AccumulateIgnoresFinality | static/app.js:149-156 | interim and final results contribute alike: lists with the same best alternatives give the same transcript |
| Transcript.TranscriptOfWords | static/app.js:146-160 | results that are single words give those words joined by single spaces |
| Metadata.RoundDiv | static/js/speech/speechWorker.js:34 | `Math.round(a/b)` is within half a unit of a/b, with halves rounded up |
| Metadata.RoundDivUnique | static/js/speech/speechWorker.js:34 | any integer within half a unit of a/b (halves up) is the rounded value |
| Metadata.Words | static/js/speech/speechWorker.js:32-33 | the word list of any transcript has at least one element |
| Metadata.BlankTranscriptIsOneWord | static/js/speech/speechWorker.js:32-33 | a blank transcript splits into the single empty word, so it counts as one word |
| Metadata.WordsOfSpokenTranscript | static/js/speech/speechWorker.js:32-33 | a transcript with any non-space character splits into non-empty, whitespace-free words |
| Metadata.RepeatCountIsPositions | static/js/speech/speechWorker.js:38-43 | the repeat count is the number of positions whose word equals its predecessor ignoring case, and is below the word count |
| Metadata.CountRepeatedWords | static/js/speech/speechWorker.js:38-43 | the counting loop yields the repeat count |
| Metadata.HesitationBound | static/js/speech/speechWorker.js:36 | every hesitation match takes at least two characters, so twice the count is at most the length |
| Metadata.HesitationIgnoresCase | static/js/speech/speechWorker.js:36 | the `gi` scan counts the same markers in a transcript and in its lower-cased form |
| Metadata.MarkerInsideWord | static/js/speech/speechWorker.js:36 | markers are matched inside words: "her" counts one hesitation |
| Metadata.WordsPerMinute | static/js/speech/speechWorker.js:29-34 | the rate is words per minute rounded to the nearest integer, halves up |
| Metadata.Centiseconds | static/js/speech/speechWorker.js:47 | `toFixed(2)` of the seconds is the duration in hundredths, rounded to the nearest |
| Metadata.AnalyzeSpeechMetadata | static/js/speech/speechWorker.js:27-53 | the record holds the analysis of the transcript; at least one word, fewer repeats than words, hesitations bounded by the length, no silence count |
| Metadata.RateFallsWithDuration | static/js/speech/speechWorker.js:29-34 | the same transcript spoken over a longer time never gets a higher words-per-minute figure |
| Metadata.WorkedExample | static/js/speech/speechWorker.js:27-53 | "um I think it is good good" over 6 s: 7 words, 70 per minute, 1 marker, 1 repeat, "6.00" seconds |
| Summary.TotalsOfAppend | static/js/test/testManager.js:88-98 | the totals of two record lists joined are the sums of their totals |
| Summary.TotalsIgnoreOrder | static/js/test/testManager.js:93-98 | the totals do not depend on the order of the records |
| Summary.AccumulateTotals | static/js/test/testManager.js:88-98 | the `forEach` accumulation yields the totals of all records |
| Summary.Fluidity | static/js/test/testManager.js:110-114 | "Very fluid" exactly for at most 5 hesitations, "Moderately fluid" exactly for 6 to 15, the third label exactly above 15 |
| Summary.FluidityMonotone | static/js/test/testManager.js:110-114 | more hesitations never give a better fluidity label |
| Summary.FluidityBoundaries | static/js/test/testManager.js:111-112 | the label changes between 5 and 6 and between 15 and 16 |
| Summary.AverageRate | static/js/test/testManager.js:100 | the average rate is finite exactly when the total duration is positive, and is then total words per minute rounded to the nearest |
| Summary.Summarize | static/js/test/testManager.js:83-108 | no records give the no-metadata summary; otherwise it reports the number of records and their total hesitations |
| Summary.GenerateMetadataSummary | static/js/test/testManager.js:83-108 | the text is the rendered summary, and is the no-metadata sentence exactly when there are no records |
| Summary.TotalsBasedAverage | static/app.js:404-414 | 10 words in 5 s and 20 words in 20 s average 72 words per minute |
| Scoring.Divide | static/js/test/scoringWorker.js:131 | integer division in doubles: NaN exactly for 0/0, Infinity exactly for a positive over 0, otherwise the exact ratio |
| Scoring.AverageWpm | static/js/test/scoringWorker.js:124-126 | the mean of the per-record rates, NaN exactly when there are no records |
| Scoring.HesitationRatio | static/js/test/scoringWorker.js:128-132 | total hesitations over total words, a ratio exactly when there are words |
| Scoring.MeanOfRatesDiffersFromSummary | static/js/test/scoringWorker.js:124-126 | for the two turns above the scorer's mean rate is 90 while the summary's rate is 72 |
| Scoring.FluencyScore | static/js/test/scoringWorker.js:76-82 | the score is between 6 and 9; it is at most 8, 7, 6 exactly when the rate is below 100, 80, 60 or the ratio above 0.2, 0.3, 0.4 |
| Scoring.AnalyzeFluency | static/js/test/scoringWorker.js:70-83 | the fluency score of any record list is between 6 and 9 |
| Scoring.FluencyMonotone | static/js/test/scoringWorker.js:76-82 | a higher rate or a lower hesitation ratio never lowers the fluency score |
| Scoring.NoMetadataScoresNine | static/js/test/scoringWorker.js:70-83 | with no records both figures are NaN and the score is 9 |
| Scoring.OverallHalves | static/js/test/scoringWorker.js:100-103 | the overall score is the mean rounded to the nearest half band; no scores give NaN |
| Scoring.OverallWithinRange | static/js/test/scoringWorker.js:100-103 | the overall score lies between the lowest and the highest sub-score |
| Scoring.ProcessScoring | static/js/test/scoringWorker.js:37-68 | the report carries the fluency score and 7 for the three placeholder analyses |
| Scoring.OverallIsSevenOrSevenAndAHalf | static/js/test/scoringWorker.js:41-52 | the overall band is 7 when fluency is at most 7 and 7.5 otherwise |
| Turn.OnStart | static/js/speech/recognition.js:38-55 | a start clears speech, pauses, transcript and the flag, stamps the start time and shows the placeholder |
| Turn.OnResult | static/js/speech/recognition.js:57-80 | a result rebuilds the transcript, marks speech, counts a pause exactly when speech was already detected and more than 1500 ms passed, and re-arms the timer |
| Turn.OnTimer | static/js/speech/recognition.js:87-101 | the timer hands over the transcript exactly when it is pending, speech was detected and nothing was sent; a hand-over sets the flag, removes the placeholder and requests a stop; otherwise only the pending timer is cleared and no stop is requested |
| Turn.OnEnd | static/js/speech/recognition.js:104-129 | `end` hands over the transcript exactly when speech was detected, it is not blank and nothing was sent; the timer and placeholder are cleared, the flag is set exactly on a hand-over or when it already was, no stop is requested, and nothing else changes |
| Turn.OnError | static/js/speech/recognition.js:131-141 | an error removes the placeholder and requests a stop, hands nothing over and leaves the flag |
| Turn.RunSplit | static/js/speech/recognition.js:32-35 | running two event sequences one after the other is running their concatenation |
| Turn.SentFlagTracks | static/js/speech/recognition.js:93 | within a turn at most one transcript is handed over, none once the flag is set, and the flag ends set exactly when it started set or a transcript was handed over |
| Turn.AtMostOneDispatchPerTurn | static/js/speech/recognition.js:88-119 | a start followed by any results, timer expiries, errors and end events hands over at most one transcript |
| Turn.ExactlyOneWhenEndSeesSpeech | static/js/speech/recognition.js:113-122 | a turn whose end event finds non-blank speech has handed over exactly one transcript, earlier or at the end |
| Turn.NoResultNoDispatch | static/js/speech/recognition.js:72-73 | with no speech detected and no result event, nothing is handed over and no speech is detected afterwards |
| Turn.PauseCountMonotone | static/js/speech/recognition.js:71-77 | events other than a start never lower the pause count |
| Turn.PausesBoundedByResults | static/js/speech/recognition.js:71-77 | events other than a start add at most one pause per result |
| Turn.ErrorThenEndStillDispatches | static/js/speech/recognition.js:131-141 | an error followed by end still hands over a non-blank, unsent transcript |
| Turn.TimerThenEndDispatchesOnce | static/js/speech/recognition.js:113 | after the timer handed a turn over, the end event hands nothing more |
| Turn.TimerDispatchesBlankTranscript | static/js/speech/recognition.js:88 | the timer hands over a turn whose results are all blank, as the empty transcript |
| Turn.ResetBetweenTimerAndEndDispatchesTwice | static/js/test/testManager.js:19 | a flag reset between the timer and end hands the same turn over twice |
| Recognition.SpeechRecognitionManager.constructor | static/js/speech/recognition.js:4-13 | a fresh manager is in the initial protocol state |
| Recognition.SpeechRecognitionManager.HandleStart | static/js/speech/recognition.js:38-55 | the object's state becomes the protocol's start step and the timer value is recorded |
| Recognition.SpeechRecognitionManager.HandleResult | static/js/speech/recognition.js:57-80 | the object's state becomes the protocol's result step |
| Recognition.SpeechRecognitionManager.HandleSilence | static/js/speech/recognition.js:82-102 | the pending timer is replaced by one that expires a threshold after now |
| Recognition.SpeechRecognitionManager.SilenceTimerFires | static/js/speech/recognition.js:87-101 | the object follows the protocol's timer step, logs a handed-over transcript and counts the stop request |
| Recognition.SpeechRecognitionManager.HandleEnd | static/js/speech/recognition.js:104-129 | the object follows the protocol's end step and logs a handed-over transcript |
| Recognition.SpeechRecognitionManager.HandleError | static/js/speech/recognition.js:131-141 | the object follows the protocol's error step and one stop is requested |
| Recognition.SpeechRecognitionManager.StopRecording | static/js/speech/recognition.js:155-164 | one more stop is requested of the recogniser |
| Recognition.SpeechRecognitionManager.Deliver | static/js/speech/recognition.js:32-35 | delivering an event does the protocol's step for it |
| Recognition.SpeechRecognitionManager.DeliverAll | static/js/speech/recognition.js:32-35 | delivering a sequence of events does the protocol's run of it, with the log of handed-over transcripts |
| Recognition.SpeechRecognitionManager.RecordTurn | static/js/speech/recognition.js:38-129 | one recording turn adds at most one transcript to the log |
| TestSession.GetIntroMessage | static/js/test/testManager.js:29-46 | part 2 opens with its introduction and a listed topic (or "undefined" with no topics), part 3 with its introduction and the first entry of some group, throwing (None) exactly when there are no groups; every other part with the part 1 introduction |
| TestSession.Part3OpensWithFirstQuestion | static/js/test/testManager.js:38-42 | when every part 3 group has a question, part 3 opens with the first question of one of the groups |
| TestSession.FormatTimer | static/js/test/testManager.js:60-65 | the clock text is digits, a colon and two digits |
| TestSession.FormatTimerRoundTrip | static/js/test/testManager.js:60-65 | the seconds shown are below 60 and the text reads back as the elapsed seconds |
| TestSession.TestManager.StartTest | static/js/test/testManager.js:15-27 | the test is active with no metadata and the flag cleared, the clock shows 00:00 with one more interval running, and the opening line is announced unless choosing it throws |
| TestSession.TestManager.StartTimer | static/js/test/testManager.js:48-58 | the clock restarts at zero and one more interval runs |
| TestSession.TestManager.Tick | static/js/test/testManager.js:54-57 | one more second elapses and the clock shows it |
| TestSession.TestManager.UpdateTimerDisplay | static/js/test/testManager.js:60-65 | the clock element shows the formatted elapsed seconds |
| TestSession.TestManager.GenerateMetadataSummary | static/js/test/testManager.js:83-108 | the summary text of the collected records |
| TestSession.TestManager.RequestScoring | static/js/test/testManager.js:74-81 | the scoring prompt followed by a blank line and the summary is requested |
| Application.AppIntro | static/app.js:677-699 | parts 1 to 3 open as `getIntroMessage` does, throwing likewise for part 3 with no groups; any other part opens with an empty line |
| Application.Part3OpensWithAFirstQuestion | static/app.js:692-698 | with the app's prompts, part 3 opens with the first question of the chosen group |
| Application.History | static/app.js:621-635 | every bubble in order: user bubbles as user messages and all others as assistant messages |
| Application.UserMessage | static/app.js:428 | a non-empty custom prompt wins; otherwise the trimmed input, empty exactly when the input is blank |
| Application.SendOf | static/app.js:426-467 | nothing happens exactly when the message is empty; otherwise the input is cleared, the message joins the chat unless it is a scoring request with its own prompt, and the request is the system prompt, the history of that chat and the message, in that order |
| Application.ConversationMessageSentTwice | static/app.js:433-466 | a typed or spoken message joins the chat and ends the request twice, as history and as the message |
| Application.ScoringRequestKeepsChat | static/app.js:432-435 | a scoring request with its prompt adds no bubble and carries the chat unchanged as history |
| Application.TurnSentUnlessEmpty | static/app.js:196-201 | a handed-over transcript is sent exactly when it is not empty, and as it is |
| Application.App.constructor | static/app.js:4-73 | the page starts in the initial protocol state with the app's threshold and prompts and nothing shown or sent |
| Application.App.OnRecognitionStart | static/app.js:122-141 | the protocol's start step, and a live bubble showing "..." is appended |
| Application.App.OnRecognitionResult | static/app.js:143-208 | the protocol's result step, and the input field and the live bubble show the new transcript |
| Application.App.OnSilenceTimeout | static/app.js:187-207 | the protocol's timer step; on a hand-over one stop is requested, the live bubble goes, the transcript is sent and its metadata collection is queued; otherwise nothing else changes |
| Application.App.OnRecognitionEnd | static/app.js:210-248 | the protocol's end step with the live bubble removed; on a hand-over the transcript is sent and queued |
| Application.App.OnRecognitionError | static/app.js:250-261 | the protocol's error step, and the live bubble is removed |
| Application.App.StopRecording | static/app.js:269-285 | one more stop is requested of the recogniser |
| Application.App.SendMessage | static/app.js:426-467 | the chat, the input field and the requests become what `SendOf` says |
| Application.App.RequestScoring | static/app.js:384-395 | one request line joins the chat and the scoring prompt with the summary goes to the scoring model with the whole chat as history |
| Application.App.CollectSpeechMetadata | static/app.js:288-324 | one record is appended: the analysis of the turn with the current pause count |
| Application.App.RunPendingCollection | static/app.js:203-205 | the oldest queued turn's record is appended, timed from the recording start read when the callback runs |
| Application.App.PlaybackStarted | static/app.js:518-543 | while audio plays, recording, sending and typing are disabled and stopping is enabled |
| Application.App.PlaybackEnded | static/app.js:549-569 | when playback ends or fails the controls come back and no audio is held |
| Application.App.StopSpeaking | static/app.js:367-381 | with audio held it is dropped and the controls come back; with none, nothing changes |
| Application.App.StartRecording | static/app.js:347-364 | playback is stopped first and the input field is cleared; with no audio held the buttons stay as they were |
| Application.App.StartTest | static/app.js:667-704 | the test is active with no metadata and the flag cleared and the clock restarts; the chat holds only the opening line, or nothing when choosing it throws |
| Application.App.Tick | static/app.js:647-650 | one more second elapses and the clock shows it |

## Left out

- HTTP requests and their responses are not modelled: the chat and TTS endpoints, the examiner's reply bubble, the 120 s timeout and the error path. A request is recorded as the message list it carries.
- Speech synthesis is reduced to its effect on the controls and on `currentAudio`. The browser-TTS fallback is not modelled; its `onend` does not clear `currentAudio`.
- The DOM, the status line, the settings form and `localStorage` are left out, as are the Flask backend and the worker message plumbing (main.js, messageHandler.js).
- config.js is not part of this model. The recognition manager's threshold and the test manager's prompts are parameters of the `Config` object; app.js's own values are the constants of `app.dfy`.
- Floating point: rates, durations and ratios are exact rationals, so a rounding of a value that is not exact in binary can differ by one unit from what the doubles give.
- Metadata.Centiseconds: rounds the exact milliseconds / 10 half up, whereas `toFixed(2)` rounds the binary double of the seconds; about one duration in twenty shows one hundredth more than the code would (1005 ms is 101 here, "1.00" in the code).
- Metadata.WordsPerMinute: rounds the exact rate, whereas the code rounds a double that can fall just below a half (6 words in 28 800 ms gives 13 here, 12 in the code).
- `timestamp` is an integer clock reading, not an ISO date string.
- `Text.Lower`: only ASCII letters are lower-cased, whereas `toLowerCase` maps all of Unicode. The hesitation scan's `i` flag is ASCII-exact for its letters.
- Metadata.Analysis: a turn must last at least one millisecond. A zero duration would make the rate `Infinity`, which the record's integer field does not hold.
- Application.App.CollectSpeechMetadata: requires a positive elapsed time, for the same reason.
- `lastTimerValue` is recorded but never read by the core.
- `analyzeCoherence`, `analyzeResponse` and `generateFeedback` return constants or unused values and are not modelled.
- The `catch` branches of `startRecording` and `stopRecording` are not modelled; the recogniser is assumed to exist.
- After `startTest` empties the chat during a recording, the detached live bubble is not tracked. The model stops showing it, and later updates to it have no visible effect.
- `stopTimer` is never called by the core and is not modelled.
- Application.App.RunPendingCollection: the two nested 0 ms callbacks of a metadata collection (app.js:203-205 and 290) run as one step, so the recording start time, the clock and the pause count are all read at that step.
