/**
 * `SpeechRecognitionManager`: the turn detector as an object whose handlers
 * update its fields and the shared config in place. Every handler is specified
 * by the corresponding step of the pure protocol in module Turn, so the
 * protocol's lemmas carry over to any sequence of handler calls.
 */
module Recognition {
  import opened Wrappers
  import opened Text
  import opened Transcript
  import opened Turn
  import opened Configuration

  class SpeechRecognitionManager {
    const config: Config
    var hasSpeechDetected: bool
    /** The pending silence timer's deadline; None when none is pending. */
    var silenceDeadline: Option<int>
    var recordingStartTime: int
    var lastSpeechTimestamp: int
    var fullTranscript: string
    /** Whether the live-transcript placeholder element is shown. */
    var placeholder: bool
    /** The transcripts handed over with a `speechComplete` event, in order. */
    var completed: seq<string>
    /** How often `recognition.stop()` was called. */
    var stopRequests: nat

    /** The protocol state this object and the shared config represent. */
    function State(): TurnState
      reads this, config
    {
      TurnState(hasSpeechDetected, config.messageSent, config.pauseCount, recordingStartTime,
                lastSpeechTimestamp, fullTranscript, silenceDeadline, placeholder)
    }

    constructor(config: Config)
      ensures this.config == config && completed == [] && stopRequests == 0
      ensures State() == Initial.(messageSent := config.messageSent, pauseCount := config.pauseCount)
    {
      this.config := config;
      hasSpeechDetected := false;
      silenceDeadline := None;
      recordingStartTime := 0;
      lastSpeechTimestamp := 0;
      fullTranscript := "";
      placeholder := false;
      completed := [];
      stopRequests := 0;
    }

    /** `handleStart`; it also records the test timer's value. */
    method HandleStart(now: int)
      modifies this`hasSpeechDetected, this`recordingStartTime, this`lastSpeechTimestamp
      modifies this`fullTranscript, this`placeholder
      modifies config`pauseCount, config`lastTimerValue, config`messageSent
      ensures State() == OnStart(old(State()), now)
      ensures config.lastTimerValue == config.timerSeconds
    {
      hasSpeechDetected := false;
      recordingStartTime := now;
      lastSpeechTimestamp := recordingStartTime;
      config.pauseCount := 0;
      config.lastTimerValue := config.timerSeconds;
      fullTranscript := "";
      config.messageSent := false;
      placeholder := true;
    }

    /** `handleResult`: rebuild the transcript, track speech and pauses, re-arm the timer. */
    method HandleResult(results: seq<RecognitionResult>, now: int)
      modifies this`fullTranscript, this`hasSpeechDetected, this`lastSpeechTimestamp
      modifies this`silenceDeadline, config`pauseCount
      ensures State() == OnResult(config.silenceThreshold, old(State()), results, now)
    {
      fullTranscript := BuildTranscript(results);
      if !hasSpeechDetected {
        hasSpeechDetected := true;
      } else if now - lastSpeechTimestamp > PauseGap {
        config.pauseCount := config.pauseCount + 1;
      }
      lastSpeechTimestamp := now;
      HandleSilence(now);
    }

    /** `handleSilence`: cancel any pending timer and arm a new one. */
    method HandleSilence(now: int)
      modifies this`silenceDeadline
      ensures silenceDeadline == Some(now + config.silenceThreshold)
    {
      silenceDeadline := Some(now + config.silenceThreshold);
    }

    /** The callback the silence timer runs when it expires. */
    method SilenceTimerFires()
      modifies this`silenceDeadline, this`placeholder, this`completed, this`stopRequests, config`messageSent
      ensures var o := OnTimer(old(State()));
              State() == o.after && completed == old(completed) + AsSeq(o.dispatched)
              && stopRequests == old(stopRequests) + (if o.stopRequested then 1 else 0)
    {
      if silenceDeadline.None? {
        return;
      }
      silenceDeadline := None;
      if hasSpeechDetected && !config.messageSent {
        placeholder := false;
        config.messageSent := true;
        StopRecording();
        completed := completed + [fullTranscript];
      }
    }

    /** `handleEnd`. */
    method HandleEnd()
      modifies this`silenceDeadline, this`placeholder, this`completed, config`messageSent
      ensures var o := OnEnd(old(State()));
              State() == o.after && completed == old(completed) + AsSeq(o.dispatched)
    {
      ghost var before := State();
      var handOver := hasSpeechDetected && Trim(fullTranscript) != "" && !config.messageSent;
      silenceDeadline := None;
      placeholder := false;
      if handOver {
        config.messageSent := true;
        completed := completed + [fullTranscript];
      }
      assert State() == before.(silenceDeadline := None, placeholder := false, messageSent := before.messageSent || handOver);
    }

    /** `handleError`. */
    method HandleError(code: string)
      modifies this`placeholder, this`stopRequests
      ensures State() == OnError(old(State())).after
      ensures stopRequests == old(stopRequests) + 1 && completed == old(completed)
    {
      placeholder := false;
      StopRecording();
    }

    /** `stopRecording`: ask the recogniser to stop; its `end` event follows later. */
    method StopRecording()
      modifies this`stopRequests
      ensures stopRequests == old(stopRequests) + 1
    {
      stopRequests := stopRequests + 1;
    }

    /** The platform delivering one event to its handler; `FlagReset` is the
        test manager clearing the shared flag. */
    method Deliver(e: Event)
      modifies this, config`pauseCount, config`lastTimerValue, config`messageSent
      ensures var o := Step(config.silenceThreshold, old(State()), e);
              State() == o.after && completed == old(completed) + AsSeq(o.dispatched)
              && stopRequests == old(stopRequests) + (if o.stopRequested then 1 else 0)
    {
      match e
      case Start(now) => HandleStart(now);
      case Result(results, now) => HandleResult(results, now);
      case TimerFire => SilenceTimerFires();
      case End => HandleEnd();
      case Error(code) => HandleError(code);
      case FlagReset => config.messageSent := false;
    }

    /** A whole sequence of events, handled one after the other, does what the
        protocol's run of that sequence says. */
    method DeliverAll(es: seq<Event>)
      modifies this, config`pauseCount, config`lastTimerValue, config`messageSent
      ensures var r := Run(config.silenceThreshold, old(State()), es);
              State() == r.final && completed == old(completed) + r.dispatched
              && stopRequests == old(stopRequests) + r.stopRequests
    {
      for i := 0 to |es|
        invariant var r := Run(config.silenceThreshold, old(State()), es[..i]);
                  State() == r.final && completed == old(completed) + r.dispatched
                  && stopRequests == old(stopRequests) + r.stopRequests
      {
        Deliver(es[i]);
        assert es[..i + 1][..i] == es[..i];
      }
      assert es[..|es|] == es;
    }

    /** One recording turn: a start and then any interleaving of results,
        timer expiries, errors and end events hands over at most one transcript. */
    method RecordTurn(now: int, es: seq<Event>)
      requires forall i :: 0 <= i < |es| ==> InTurn(es[i])
      modifies this, config`pauseCount, config`lastTimerValue, config`messageSent
      ensures |old(completed)| <= |completed| <= |old(completed)| + 1
    {
      ghost var s := State();
      DeliverAll([Start(now)] + es);
      AtMostOneDispatchPerTurn(config.silenceThreshold, s, now, es);
    }
  }

}
