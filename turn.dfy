/**
 * The turn-taking protocol of the speech recognition handlers, as a pure state
 * machine. One turn starts with the platform's `start` event; `result` events
 * rebuild the transcript, count pauses and (re)arm the silence timer; the timer
 * firing or the platform's `end` event hands the transcript over ("dispatches"
 * it) at most once, guarded by the shared `messageSent` flag. Time is an
 * explicit event parameter and the timer's expiry an explicit event.
 *
 * Both copies of the handlers (the `SpeechRecognitionManager` class and the
 * inline handlers of app.js) take the same branches; they differ only in the
 * silence threshold and in what a dispatch does, which the callers model.
 */
module Turn {
  import opened Wrappers
  import opened Text
  import opened Transcript

  /** A gap between two results longer than this many milliseconds is a pause. */
  const PauseGap := 1500

  /** The handlers' state: the detector's own fields, the shared `messageSent`
      and `pauseCount`, the pending silence timer's deadline (None once cleared
      or fired) and whether the live-transcript placeholder element is shown. */
  datatype TurnState = TurnState(
    hasSpeechDetected: bool,
    messageSent: bool,
    pauseCount: nat,
    recordingStartTime: int,
    lastSpeechTimestamp: int,
    fullTranscript: string,
    silenceDeadline: Option<int>,
    placeholder: bool)

  /** The state a freshly constructed detector holds. */
  const Initial := TurnState(false, false, 0, 0, 0, "", None, false)

  /** What can happen to the detector. `FlagReset` is a write of
      `messageSent := false` from outside the handlers (starting a test does it). */
  datatype Event =
    | Start(now: int)
    | Result(results: seq<RecognitionResult>, now: int)
    | TimerFire
    | End
    | Error(code: string)
    | FlagReset

  /** The state after one event, the transcript handed over if any, and
      whether the handler asked the recogniser to stop. */
  datatype Outcome = Outcome(after: TurnState, dispatched: Option<string>, stopRequested: bool)

  /** `start`: a new turn with no speech, no pauses, an empty transcript and the
      flag cleared; the placeholder appears. A pending timer is left alone. */
  function OnStart(s: TurnState, now: int): (t: TurnState)
    ensures !t.hasSpeechDetected && !t.messageSent && t.pauseCount == 0 && t.fullTranscript == ""
    ensures t.recordingStartTime == now && t.lastSpeechTimestamp == now
    ensures t.placeholder && t.silenceDeadline == s.silenceDeadline
  {
    s.(hasSpeechDetected := false, recordingStartTime := now, lastSpeechTimestamp := now,
       pauseCount := 0, fullTranscript := "", messageSent := false, placeholder := true)
  }

  /** `result`: the transcript is rebuilt from the whole list; the first result
      of a turn marks speech, a later one counts a pause when more than
      PauseGap ms passed since the previous one; the timer is re-armed. */
  function OnResult(threshold: nat, s: TurnState, results: seq<RecognitionResult>, now: int): (t: TurnState)
    ensures t.fullTranscript == Accumulate(results) && t.hasSpeechDetected
    ensures t.pauseCount == s.pauseCount + 1 <==> s.hasSpeechDetected && now - s.lastSpeechTimestamp > PauseGap
    ensures t.pauseCount == s.pauseCount || t.pauseCount == s.pauseCount + 1
    ensures t.lastSpeechTimestamp == now && t.silenceDeadline == Some(now + threshold)
    ensures t.messageSent == s.messageSent && t.recordingStartTime == s.recordingStartTime
    ensures t.placeholder == s.placeholder
  {
    var pauses :=
      if !s.hasSpeechDetected then s.pauseCount
      else if now - s.lastSpeechTimestamp > PauseGap then s.pauseCount + 1
      else s.pauseCount;
    s.(fullTranscript := Accumulate(results), hasSpeechDetected := true, pauseCount := pauses,
       lastSpeechTimestamp := now, silenceDeadline := Some(now + threshold))
  }

  /** The silence timer's callback: when speech was detected and nothing was
      sent yet, it sets the flag, asks the recogniser to stop and dispatches
      the transcript, empty or not. */
  function OnTimer(s: TurnState): (o: Outcome)
    ensures o.dispatched.Some? <==> s.silenceDeadline.Some? && s.hasSpeechDetected && !s.messageSent
    ensures o.dispatched.Some? ==> o.dispatched.value == s.fullTranscript && o.after.messageSent && o.stopRequested
    ensures o.stopRequested <==> o.dispatched.Some?
    ensures o.after == if o.dispatched.Some? then s.(silenceDeadline := None, placeholder := false, messageSent := true)
                       else s.(silenceDeadline := None)
  {
    if s.silenceDeadline.None? then Outcome(s, None, false)
    else
      var s := s.(silenceDeadline := None);
      if s.hasSpeechDetected && !s.messageSent then
        Outcome(s.(placeholder := false, messageSent := true), Some(s.fullTranscript), true)
      else
        Outcome(s, None, false)
  }

  /** `end`: the timer is cleared and the placeholder removed; the transcript is
      dispatched when speech was detected, it is not blank and nothing was sent yet. */
  function OnEnd(s: TurnState): (o: Outcome)
    ensures o.dispatched.Some? <==> s.hasSpeechDetected && Trim(s.fullTranscript) != "" && !s.messageSent
    ensures o.dispatched.Some? ==> o.dispatched.value == s.fullTranscript && o.after.messageSent
    ensures !o.stopRequested
    ensures o.after == s.(silenceDeadline := None, placeholder := false, messageSent := s.messageSent || o.dispatched.Some?)
  {
    var s := s.(silenceDeadline := None, placeholder := false);
    if s.hasSpeechDetected && Trim(s.fullTranscript) != "" && !s.messageSent then
      Outcome(s.(messageSent := true), Some(s.fullTranscript), false)
    else
      Outcome(s, None, false)
  }

  /** `error`: the placeholder goes and a stop is requested; nothing is
      dispatched and the flag is untouched. */
  function OnError(s: TurnState): (o: Outcome)
    ensures o.after == s.(placeholder := false) && o.dispatched.None? && o.stopRequested
  {
    Outcome(s.(placeholder := false), None, true)
  }

  function Step(threshold: nat, s: TurnState, e: Event): Outcome {
    match e
    case Start(now) => Outcome(OnStart(s, now), None, false)
    case Result(results, now) => Outcome(OnResult(threshold, s, results, now), None, false)
    case TimerFire => OnTimer(s)
    case End => OnEnd(s)
    case Error(_) => OnError(s)
    case FlagReset => Outcome(s.(messageSent := false), None, false)
  }

  // ---------------------------------------------------------------------------
  // Traces

  /** The result of a sequence of events: the final state, every transcript
      dispatched in order (the dispatch log) and the number of stop requests. */
  datatype Trace = Trace(final: TurnState, dispatched: seq<string>, stopRequests: nat)

  /** A trace followed by one more step. */
  function Extend(r: Trace, o: Outcome): Trace {
    Trace(o.after, r.dispatched + AsSeq(o.dispatched), r.stopRequests + if o.stopRequested then 1 else 0)
  }

  /** A trace followed by a second one that starts where the first ended. */
  function Chain(ra: Trace, rb: Trace): Trace {
    Trace(rb.final, ra.dispatched + rb.dispatched, ra.stopRequests + rb.stopRequests)
  }

  function Run(threshold: nat, s: TurnState, es: seq<Event>): Trace
    decreases |es|
  {
    if es == [] then Trace(s, [], 0)
    else
      var r := Run(threshold, s, es[..|es| - 1]);
      Extend(r, Step(threshold, r.final, es[|es| - 1]))
  }

  /** Running two traces one after the other is running their concatenation. */
  lemma {:induction false} RunSplit(threshold: nat, s: TurnState, a: seq<Event>, b: seq<Event>)
    ensures var ra := Run(threshold, s, a);
            Run(threshold, s, a + b) == Chain(ra, Run(threshold, ra.final, b))
    decreases |b|
  {
    if b == [] {
      assert a + b == a;
    } else {
      var front, e := b[..|b| - 1], b[|b| - 1];
      assert b == front + [e];
      assert a + b == (a + front) + [e];
      RunSplit(threshold, s, a, front);
      var ra := Run(threshold, s, a);
      var rf := Run(threshold, ra.final, front);
      RunSnoc(threshold, s, a + front, e);
      RunSnoc(threshold, ra.final, front, e);
      ExtendChain(ra, rf, Step(threshold, rf.final, e));
    }
  }

  /** One more event at the end is one more step. */
  lemma RunSnoc(threshold: nat, s: TurnState, es: seq<Event>, e: Event)
    ensures var r := Run(threshold, s, es);
            Run(threshold, s, es + [e]) == Extend(r, Step(threshold, r.final, e))
  {
    assert (es + [e])[..|es|] == es;
  }

  lemma ExtendChain(ra: Trace, rf: Trace, o: Outcome)
    ensures Extend(Chain(ra, rf), o) == Chain(ra, Extend(rf, o))
  {
    assert ra.dispatched + (rf.dispatched + AsSeq(o.dispatched)) == (ra.dispatched + rf.dispatched) + AsSeq(o.dispatched);
  }

  /** An event of the turn itself: neither a new start nor an outside reset of the flag. */
  predicate InTurn(e: Event) {
    !e.Start? && !e.FlagReset?
  }

  /** Within a turn the flag records exactly whether something was dispatched,
      and once it is set nothing more is. */
  lemma {:induction false} SentFlagTracks(threshold: nat, s: TurnState, es: seq<Event>)
    requires forall i :: 0 <= i < |es| ==> InTurn(es[i])
    ensures var r := Run(threshold, s, es);
            |r.dispatched| <= (if s.messageSent then 0 else 1)
            && (r.final.messageSent <==> s.messageSent || |r.dispatched| == 1)
    decreases |es|
  {
    if es != [] {
      SentFlagTracks(threshold, s, es[..|es| - 1]);
    }
  }

  /** The run of one event is one step from the initial trace. */
  lemma RunOne(threshold: nat, s: TurnState, e: Event)
    ensures Run(threshold, s, [e]) == Extend(Trace(s, [], 0), Step(threshold, s, e))
  {
    assert [e][..0] == [];
  }

  /** However TimerFire, End, Error and Result interleave after a Start, at most
      one transcript is dispatched. */
  lemma AtMostOneDispatchPerTurn(threshold: nat, s: TurnState, now: int, es: seq<Event>)
    requires forall i :: 0 <= i < |es| ==> InTurn(es[i])
    ensures |Run(threshold, s, [Start(now)] + es).dispatched| <= 1
  {
    RunSplit(threshold, s, [Start(now)], es);
    RunOne(threshold, s, Start(now));
    SentFlagTracks(threshold, OnStart(s, now), es);
  }

  /** If the `end` event finds speech and a non-blank transcript, the turn
      dispatches exactly once: by the timer earlier, or by `end` itself. */
  lemma ExactlyOneWhenEndSeesSpeech(threshold: nat, s: TurnState, now: int, es: seq<Event>)
    requires forall i :: 0 <= i < |es| ==> InTurn(es[i])
    requires var f := Run(threshold, s, [Start(now)] + es).final;
             f.hasSpeechDetected && Trim(f.fullTranscript) != ""
    ensures |Run(threshold, s, [Start(now)] + es + [End]).dispatched| == 1
  {
    var before := [Start(now)] + es;
    var rb := Run(threshold, s, before);
    TurnSoFar(threshold, s, now, es);
    RunSnoc(threshold, s, before, End);
    assert Step(threshold, rb.final, End) == OnEnd(rb.final);
    EndCompletesTurn(rb);
  }

  /** `end` seeing non-blank speech adds the one dispatch a turn still lacks. */
  lemma EndCompletesTurn(r: Trace)
    requires |r.dispatched| <= 1 && (r.final.messageSent <==> |r.dispatched| == 1)
    requires r.final.hasSpeechDetected && Trim(r.final.fullTranscript) != ""
    ensures |Extend(r, OnEnd(r.final)).dispatched| == 1
  {
  }

  /** After a start and events of the turn, at most one transcript was
      dispatched, and the flag says whether one was. */
  lemma TurnSoFar(threshold: nat, s: TurnState, now: int, es: seq<Event>)
    requires forall i :: 0 <= i < |es| ==> InTurn(es[i])
    ensures var r := Run(threshold, s, [Start(now)] + es);
            |r.dispatched| <= 1 && (r.final.messageSent <==> |r.dispatched| == 1)
  {
    RunSplit(threshold, s, [Start(now)], es);
    RunOne(threshold, s, Start(now));
    SentFlagTracks(threshold, OnStart(s, now), es);
  }

  /** Without a result event nothing is ever dispatched. */
  lemma {:induction false} NoResultNoDispatch(threshold: nat, s: TurnState, es: seq<Event>)
    requires !s.hasSpeechDetected
    requires forall i :: 0 <= i < |es| ==> !es[i].Result?
    ensures Run(threshold, s, es).dispatched == [] && !Run(threshold, s, es).final.hasSpeechDetected
    decreases |es|
  {
    if es != [] {
      NoResultNoDispatch(threshold, s, es[..|es| - 1]);
    }
  }

  /** Pauses are only ever added within a turn; only `start` resets the count. */
  lemma {:induction false} PauseCountMonotone(threshold: nat, s: TurnState, es: seq<Event>)
    requires forall i :: 0 <= i < |es| ==> !es[i].Start?
    ensures Run(threshold, s, es).final.pauseCount >= s.pauseCount
    decreases |es|
  {
    if es != [] {
      PauseCountMonotone(threshold, s, es[..|es| - 1]);
    }
  }

  /** Each result adds at most one pause, so a turn never has more pauses than results. */
  function ResultCount(es: seq<Event>): nat {
    if es == [] then 0 else ResultCount(es[..|es| - 1]) + if es[|es| - 1].Result? then 1 else 0
  }

  lemma {:induction false} PausesBoundedByResults(threshold: nat, s: TurnState, es: seq<Event>)
    requires forall i :: 0 <= i < |es| ==> !es[i].Start?
    ensures Run(threshold, s, es).final.pauseCount <= s.pauseCount + ResultCount(es)
    decreases |es|
  {
    if es != [] {
      PausesBoundedByResults(threshold, s, es[..|es| - 1]);
    }
  }

  /** The run of two events is two steps from the initial trace. */
  lemma RunTwo(threshold: nat, s: TurnState, e1: Event, e2: Event)
    ensures var o1 := Step(threshold, s, e1);
            Run(threshold, s, [e1, e2]) == Extend(Extend(Trace(s, [], 0), o1), Step(threshold, o1.after, e2))
  {
    assert [e1, e2] == [e1] + [e2];
    RunOne(threshold, s, e1);
    RunSnoc(threshold, s, [e1], e2);
  }

  /** An error does not end the turn by itself: it only requests a stop, and
      the `end` event that follows still dispatches a pending transcript. */
  lemma ErrorThenEndStillDispatches(threshold: nat, s: TurnState, code: string)
    requires s.hasSpeechDetected && Trim(s.fullTranscript) != "" && !s.messageSent
    ensures Run(threshold, s, [Error(code), End]).dispatched == [s.fullTranscript]
    ensures Run(threshold, s, [Error(code), End]).stopRequests == 1
  {
    ErrorThenEndSteps(threshold, s, code);
    RunTwo(threshold, s, Error(code), End);
  }

  lemma ErrorThenEndSteps(threshold: nat, s: TurnState, code: string)
    requires s.hasSpeechDetected && Trim(s.fullTranscript) != "" && !s.messageSent
    ensures var o1 := Step(threshold, s, Error(code));
            var o2 := Step(threshold, o1.after, End);
            o1.dispatched.None? && o1.stopRequested && o2.dispatched == Some(s.fullTranscript) && !o2.stopRequested
  {
  }

  /** The timer dispatches and asks for a stop; the `end` event that follows
      sees the flag and does not dispatch again. */
  lemma TimerThenEndDispatchesOnce(threshold: nat, s: TurnState)
    requires s.silenceDeadline.Some? && s.hasSpeechDetected && !s.messageSent
    ensures Run(threshold, s, [TimerFire, End]).dispatched == [s.fullTranscript]
  {
    TimerThenEndSteps(threshold, s);
    RunTwo(threshold, s, TimerFire, End);
  }

  lemma TimerThenEndSteps(threshold: nat, s: TurnState)
    requires s.silenceDeadline.Some? && s.hasSpeechDetected && !s.messageSent
    ensures var o1 := Step(threshold, s, TimerFire);
            o1.dispatched == Some(s.fullTranscript) && Step(threshold, o1.after, End).dispatched.None?
  {
  }

  /** The timer does not look at the transcript: a turn whose results carried
      only blank text still dispatches the empty transcript. */
  lemma TimerDispatchesBlankTranscript(threshold: nat, s: TurnState, rs: seq<RecognitionResult>, now: int)
    requires !s.messageSent
    requires forall i :: 0 <= i < |rs| ==> Best(rs[i]) == ""
    ensures Run(threshold, s, [Result(rs, now), TimerFire]).dispatched == [""]
  {
    BlankResultThenTimer(threshold, s, rs, now);
    RunTwo(threshold, s, Result(rs, now), TimerFire);
  }

  lemma BlankResultThenTimer(threshold: nat, s: TurnState, rs: seq<RecognitionResult>, now: int)
    requires !s.messageSent
    requires forall i :: 0 <= i < |rs| ==> Best(rs[i]) == ""
    ensures var o1 := Step(threshold, s, Result(rs, now));
            o1.dispatched.None? && Step(threshold, o1.after, TimerFire).dispatched == Some("")
  {
    BlankConcat(rs);
  }

  lemma {:induction false} BlankConcat(rs: seq<RecognitionResult>)
    requires forall i :: 0 <= i < |rs| ==> Best(rs[i]) == ""
    ensures Accumulate(rs) == ""
    ensures forall i :: 0 <= i < |Concat(rs)| ==> IsWhite(Concat(rs)[i])
    decreases |rs|
  {
    if rs != [] {
      BlankConcat(rs[..|rs| - 1]);
    }
  }

  /** Clearing the flag from outside between the timer's dispatch and the `end`
      event lets the same transcript be dispatched twice. */
  lemma ResetBetweenTimerAndEndDispatchesTwice(threshold: nat, s: TurnState)
    requires s.silenceDeadline.Some? && s.hasSpeechDetected && !s.messageSent
    requires Trim(s.fullTranscript) != ""
    ensures Run(threshold, s, [TimerFire, FlagReset, End]).dispatched == [s.fullTranscript, s.fullTranscript]
  {
    ResetBetweenSteps(threshold, s);
    RunThree(threshold, s, TimerFire, FlagReset, End);
  }

  lemma ResetBetweenSteps(threshold: nat, s: TurnState)
    requires s.silenceDeadline.Some? && s.hasSpeechDetected && !s.messageSent
    requires Trim(s.fullTranscript) != ""
    ensures var o1 := Step(threshold, s, TimerFire);
            var o2 := Step(threshold, o1.after, FlagReset);
            o1.dispatched == Some(s.fullTranscript) && o2.dispatched.None?
            && Step(threshold, o2.after, End).dispatched == Some(s.fullTranscript)
  {
    assert OnTimer(s).after == s.(silenceDeadline := None, placeholder := false, messageSent := true);
  }

  /** The run of three events is three steps from the initial trace. */
  lemma RunThree(threshold: nat, s: TurnState, e1: Event, e2: Event, e3: Event)
    ensures var o1 := Step(threshold, s, e1);
            var o2 := Step(threshold, o1.after, e2);
            Run(threshold, s, [e1, e2, e3]) == Extend(Extend(Extend(Trace(s, [], 0), o1), o2), Step(threshold, o2.after, e3))
  {
    assert [e1, e2, e3] == [e1, e2] + [e3];
    RunTwo(threshold, s, e1, e2);
    RunSnoc(threshold, s, [e1, e2], e3);
  }

}
