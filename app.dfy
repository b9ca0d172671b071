/**
 * The single-page front end: its own copy of the recognition handlers (the
 * protocol of module Turn with a one-minute threshold, here delegated to a
 * SpeechRecognitionManager), the chat it shows, the chat requests it sends,
 * the speech metadata it collects after each spoken turn, stopping playback,
 * starting a test and asking for scores. The HTTP calls themselves, speech
 * synthesis and the settings form are not modelled: a request is recorded as
 * the message list it would carry.
 */
module Application {
  import opened Wrappers
  import opened Text
  import opened Turn
  import Transcript
  import opened Metadata
  import opened Configuration
  import opened Recognition
  import opened TestSession
  import Summary

  // ---------------------------------------------------------------------------
  // The front end's constants

  /** One minute of silence after the latest result sends the turn. */
  const SilenceThreshold := 60000

  const SystemPrompt := "You are an IELTS speaking examiner. You should evaluate the student's English speaking ability \n                      according to the IELTS criteria: Fluency and Coherence, Lexical Resource, Grammatical Range \n                      and Accuracy, and Pronunciation. Keep your responses concise and natural like a real examiner. \n                      Do not provide scores during the test, only at the end when explicitly asked."

  const ScoringPrompt := "Please analyze my complete speaking performance throughout this conversation and provide IELTS scores for:\n                      1. Fluency and Coherence: Evaluate logical flow, topic development, and coherence of ideas.\n                      2. Lexical Resource: Assess vocabulary range, appropriateness, and accuracy.\n                      3. Grammatical Range and Accuracy: Judge grammatical structures and correctness.\n                      4. Pronunciation: While you cannot hear my pronunciation directly, try to evaluate based on my choice of words and any metadata about my speech.\n                      \n                      Provide a score out of 9 for each category and an overall band score, with detailed feedback."

  const Part1Intro := "Good morning/afternoon. My name is Aditi. Can you tell me your full name, please? Now, I'd like to ask you some questions about yourself."

  const Part1Topics := [
    "Can you describe your hometown?",
    "Do you work or are you a student?",
    "What do you enjoy doing in your free time?",
    "Do you prefer indoor or outdoor activities?",
    "What kind of music do you like to listen to?",
    "Do you enjoy cooking?"]

  const Part2Intro := "I'm going to give you a topic and I'd like you to talk about it for 1 to 2 minutes. Before you start, you'll have one minute to prepare. Here's some paper and a pencil for making notes, and here's your topic:"

  const Part2Topics := [
    "Describe a book you have recently read. You should say: what kind of book it is, what it is about, why you decided to read it, and explain why you liked or disliked it.",
    "Describe a place you have visited that made a strong impression on you. You should say: where it is, when you went there, what you did there, and explain why it made such a strong impression on you.",
    "Describe a skill you would like to learn. You should say: what the skill is, how you would learn it, how long it would take to learn, and explain why you want to learn this skill."]

  const Part3Intro := "Now let's discuss some more general questions related to this topic."

  /** The question groups "books", "places" and "skills", in that order. */
  const Part3Topics := [
    ["How have reading habits changed in your country in recent years?",
     "Do you think digital books will eventually replace printed books?",
     "What kinds of books are most popular in your country?",
     "How important is reading for a child's development?"],
    ["What types of places do people from your country like to visit on vacation?",
     "How has tourism changed in your country over the last few decades?",
     "Do you think it's better to travel independently or as part of a tour group?",
     "How might tourism affect local communities?"],
    ["Why do you think some people are reluctant to learn new skills?",
     "How has technology changed the way people learn new skills?",
     "What skills do you think will be most important in the future?",
     "Should schools focus more on practical skills rather than academic knowledge?"]]

  const Conclusion := "Thank you. That's the end of the speaking test."

  const AppPrompts := TestPrompts(SystemPrompt, ScoringPrompt, Part1Intro, Part1Topics, Part2Intro, Part2Topics,
                                  Part3Intro, Part3Topics, Conclusion)

  /** The chat line added when scores are requested. */
  const EvaluationRequest := "Please evaluate my speaking test performance and provide scores."

  /** The text of the live-transcript bubble before the first result. */
  const LivePlaceholder := "..."

  // ---------------------------------------------------------------------------
  // The opening line

  /** The switch of `startTest`: parts 1 to 3 open as the test manager's
      `getIntroMessage` does (throwing, as None, for part 3 without topic
      groups), but there is no default case, so any other part opens with an
      empty line. */
  function AppIntro(p: TestPrompts, part: int, k2: nat, k3: nat): (intro: Option<string>)
    requires RandomIndex(k2, |p.part2Topics|) && RandomIndex(k3, |p.part3Topics|)
    ensures 1 <= part <= 3 ==> intro == GetIntroMessage(p, part, k2, k3)
    ensures !(1 <= part <= 3) ==> intro == Some("")
  {
    match part
    case 1 => Some(p.part1Intro)
    case 2 => Some(p.part2Intro + " " + Pick(p.part2Topics, k2))
    case 3 =>
      if p.part3Topics == [] then None
      else Some(p.part3Intro + " " + Pick(p.part3Topics[k3], 0))
    case _ => Some("")
  }

  /** With the front end's prompts, part 3 always opens with the first question
      of one of its three groups, never with "undefined". */
  lemma Part3OpensWithAFirstQuestion(k3: nat)
    requires RandomIndex(k3, 3)
    ensures AppIntro(AppPrompts, 3, 0, k3) == Some(Part3Intro + " " + Part3Topics[k3][0])
  {
    assert k3 < |AppPrompts.part3Topics|;
  }

  // ---------------------------------------------------------------------------
  // The chat and the requests

  datatype Sender = UserSender | Examiner

  /** A bubble of the chat container, by its sender class and its text. */
  datatype Bubble = Bubble(sender: Sender, text: string)

  datatype Role = SystemRole | UserRole | AssistantRole

  datatype ChatMessage = ChatMessage(role: Role, content: string)

  /** A request to the chat endpoint: which model (the scoring one or the
      conversation one) and the messages it carries. */
  datatype ChatRequest = ChatRequest(scoring: bool, messages: seq<ChatMessage>)

  /** `getConversationHistory`: every bubble in order, user bubbles as user
      messages and every other bubble as an assistant message. */
  function History(chat: seq<Bubble>): (h: seq<ChatMessage>)
    ensures |h| == |chat|
    ensures forall i :: 0 <= i < |chat| ==>
      h[i].content == chat[i].text && h[i].role != SystemRole && (h[i].role == UserRole <==> chat[i].sender == UserSender)
  {
    seq(|chat|, i requires 0 <= i < |chat| =>
      ChatMessage(if chat[i].sender == UserSender then UserRole else AssistantRole, chat[i].text))
  }

  /** `customPrompt || userInput.value.trim()`: a non-empty custom prompt wins. */
  function UserMessage(input: string, customPrompt: Option<string>): (m: string)
    ensures m == "" <==> (customPrompt.None? || customPrompt.value == "") && forall i :: 0 <= i < |input| ==> IsWhite(input[i])
    ensures customPrompt.Some? && customPrompt.value != "" ==> m == customPrompt.value
    ensures customPrompt.None? || customPrompt.value == "" ==> m == Trim(input)
  {
    if customPrompt.Some? && customPrompt.value != "" then customPrompt.value else Trim(input)
  }

  /** The chat, the input field and the request a `sendMessage` call leaves. */
  datatype Sent = Sent(chat: seq<Bubble>, input: string, request: Option<ChatRequest>)

  function Requests(r: Option<ChatRequest>): seq<ChatRequest> {
    if r.Some? then [r.value] else []
  }

  /** `sendMessage(isScoring, customPrompt)` up to the request: nothing at all
      happens when the message is empty; otherwise the message joins the chat
      (unless it is a scoring request with its own prompt), the input field is
      cleared, and the request carries the system prompt, the history of the
      chat as it now is, and the message. */
  function SendOf(chat: seq<Bubble>, input: string, isScoring: bool, customPrompt: Option<string>, systemPrompt: string): (r: Sent)
    ensures r.request.None? <==> UserMessage(input, customPrompt) == ""
    ensures r.request.None? ==> r.chat == chat && r.input == input
    ensures r.request.Some? ==> r.input == "" && r.request.value.scoring == isScoring
    ensures r.request.Some? ==>
              r.request.value.messages == [ChatMessage(SystemRole, systemPrompt)] + History(r.chat) + [ChatMessage(UserRole, UserMessage(input, customPrompt))]
    ensures r.request.Some? && (!isScoring || customPrompt.None? || customPrompt.value == "") ==>
      r.chat == chat + [Bubble(UserSender, UserMessage(input, customPrompt))]
    ensures r.request.Some? && isScoring && customPrompt.Some? && customPrompt.value != "" ==> r.chat == chat
  {
    var m := UserMessage(input, customPrompt);
    if m == "" then Sent(chat, input, None)
    else
      var shown := if !isScoring || customPrompt.None? || customPrompt.value == "" then chat + [Bubble(UserSender, m)] else chat;
      Sent(shown, "", Some(ChatRequest(isScoring, [ChatMessage(SystemRole, systemPrompt)] + History(shown) + [ChatMessage(UserRole, m)])))
  }

  /** A typed or spoken message is sent twice over: the history already holds
      the bubble just added, and the message is appended after it again. */
  lemma ConversationMessageSentTwice(chat: seq<Bubble>, input: string, systemPrompt: string)
    requires Trim(input) != ""
    ensures var r := SendOf(chat, input, false, None, systemPrompt);
            r.request.Some? && r.chat == chat + [Bubble(UserSender, Trim(input))]
            && var ms := r.request.value.messages;
               ms[|ms| - 2] == ms[|ms| - 1] == ChatMessage(UserRole, Trim(input))
  {
    var r := SendOf(chat, input, false, None, systemPrompt);
    var ms := r.request.value.messages;
    assert ms[1..|ms| - 1] == History(r.chat);
    assert ms[|ms| - 2] == History(r.chat)[|chat|];
  }

  /** A scoring request with its prompt leaves the chat alone, and its history
      is exactly the chat's. */
  lemma ScoringRequestKeepsChat(chat: seq<Bubble>, input: string, prompt: string, systemPrompt: string)
    requires prompt != ""
    ensures var r := SendOf(chat, input, true, Some(prompt), systemPrompt);
            r.request.Some? && r.chat == chat && r.input == ""
            && r.request.value.messages == [ChatMessage(SystemRole, systemPrompt)] + History(chat) + [ChatMessage(UserRole, prompt)]
  {
  }

  /** A spoken turn is sent exactly when its transcript is not empty, and then
      as it is: the handed-over transcript is already trimmed. */
  lemma TurnSentUnlessEmpty(chat: seq<Bubble>, t: string, systemPrompt: string)
    requires IsTrimmed(t)
    ensures var r := SendOf(chat, t, false, None, systemPrompt);
            (r.request.Some? <==> t != "")
            && (t != "" ==> r.chat == chat + [Bubble(UserSender, t)] && r.request.value.messages[|chat| + 2] == ChatMessage(UserRole, t))
  {
    TrimOfTrimmed(t);
  }

  /** The chat without the live-transcript bubble at `live`, if it is attached. */
  function Dropped(chat: seq<Bubble>, live: Option<nat>): (r: seq<Bubble>)
    requires live.Some? ==> live.value < |chat|
    ensures live.None? ==> r == chat
    ensures live.Some? ==> |r| == |chat| - 1 && r[..live.value] == chat[..live.value] && r[live.value..] == chat[live.value + 1..]
  {
    if live.Some? then chat[..live.value] + chat[live.value + 1..] else chat
  }

  // ---------------------------------------------------------------------------
  // The page

  class App {
    const config: Config
    const recognizer: SpeechRecognitionManager
    /** Owns the test clock and the metadata summary, shared with the test manager. */
    const tests: TestManager
    /** The text input's value. */
    var userInput: string
    /** The chat container's bubbles, in order. */
    var chat: seq<Bubble>
    /** Where the live-transcript bubble sits in `chat`, while it is attached. */
    var live: Option<nat>
    /** Every request sent to the chat endpoint, in order. */
    var requests: seq<ChatRequest>
    /** The transcripts of handed-over turns whose metadata collection is
        scheduled and has not run yet, in order. */
    var pendingCollections: seq<string>
    var startEnabled: bool
    var stopRecordingEnabled: bool
    var sendEnabled: bool
    var inputEnabled: bool
    var stopSpeakingEnabled: bool
    var scoreEnabled: bool

    predicate Valid()
      reads this, recognizer, tests
    {
      recognizer.config == config && tests.config == config
      && (live.Some? ==> live.value < |chat|)
      && IsTrimmed(recognizer.fullTranscript)
    }

    /** The page as loaded: the shared config with the front end's prompts and
        a recogniser wired to it. Which buttons start enabled is up to the
        page's markup, which is not part of this model. */
    constructor()
      ensures Valid() && fresh(config) && fresh(recognizer) && fresh(tests)
      ensures config.silenceThreshold == SilenceThreshold && config.testPrompts == AppPrompts
      ensures recognizer.State() == Initial && recognizer.completed == []
      ensures userInput == "" && chat == [] && live.None? && requests == [] && pendingCollections == []
    {
      var c := new Config(SilenceThreshold, AppPrompts);
      config := c;
      recognizer := new SpeechRecognitionManager(c);
      tests := new TestManager(c);
      userInput := "";
      chat := [];
      live := None;
      requests := [];
      pendingCollections := [];
      startEnabled := true;
      stopRecordingEnabled := false;
      sendEnabled := true;
      inputEnabled := true;
      stopSpeakingEnabled := false;
      scoreEnabled := false;
    }

    // -------------------------------------------------------------------------
    // Recognition handlers

    /** `onstart`: a new turn, and a live bubble showing "..." joins the chat. */
    method OnRecognitionStart(now: int)
      requires Valid()
      modifies recognizer, config`pauseCount, config`lastTimerValue, config`messageSent
      modifies this`chat, this`live, this`startEnabled, this`stopRecordingEnabled
      ensures Valid()
      ensures recognizer.State() == OnStart(old(recognizer.State()), now)
      ensures recognizer.completed == old(recognizer.completed)
      ensures chat == old(chat) + [Bubble(UserSender, LivePlaceholder)] && live == Some(|old(chat)|)
      ensures !startEnabled && stopRecordingEnabled
    {
      recognizer.HandleStart(now);
      startEnabled := false;
      stopRecordingEnabled := true;
      live := Some(|chat|);
      chat := chat + [Bubble(UserSender, LivePlaceholder)];
    }

    /** `onresult`: the transcript is rebuilt, shown in the input field and in
        the live bubble, and the silence timer re-armed. */
    method OnRecognitionResult(results: seq<Transcript.RecognitionResult>, now: int)
      requires Valid()
      modifies recognizer, config`pauseCount, this`userInput, this`chat
      ensures Valid()
      ensures recognizer.State() == OnResult(config.silenceThreshold, old(recognizer.State()), results, now)
      ensures recognizer.completed == old(recognizer.completed)
      ensures userInput == Transcript.Accumulate(results)
      ensures live.None? ==> chat == old(chat)
      ensures live.Some? ==> chat == old(chat)[live.value := Bubble(UserSender, userInput)]
    {
      ghost var s := OnResult(config.silenceThreshold, recognizer.State(), results, now);
      recognizer.HandleResult(results, now);
      var transcript := recognizer.fullTranscript;
      assert transcript == s.fullTranscript;
      userInput := transcript;
      ShowLive(transcript);
      assert recognizer.State() == s;
    }

    /** The live bubble, while attached, shows `text`. */
    method ShowLive(text: string)
      requires Valid()
      modifies this`chat
      ensures Valid()
      ensures live.None? ==> chat == old(chat)
      ensures live.Some? ==> chat == old(chat)[live.value := Bubble(UserSender, text)]
    {
      if live.Some? {
        chat := chat[live.value := Bubble(UserSender, text)];
      }
    }

    /** The silence timer of the front end expiring: when the protocol hands
        the transcript over, the live bubble goes and the transcript is sent
        and queued for metadata collection. */
    method OnSilenceTimeout()
      requires Valid()
      modifies recognizer, config`messageSent
      modifies this`userInput, this`chat, this`live, this`requests, this`pendingCollections
      ensures Valid()
      ensures var o := OnTimer(old(recognizer.State()));
              recognizer.State() == o.after && recognizer.completed == old(recognizer.completed) + AsSeq(o.dispatched)
              && recognizer.stopRequests == old(recognizer.stopRequests) + (if o.stopRequested then 1 else 0)
              && (o.dispatched.None? ==> Unchanged(old(userInput), old(chat), old(live), old(requests), old(pendingCollections)))
              && (o.dispatched.Some? ==> HandedOver(o.dispatched.value, Dropped(old(chat), old(live)), old(requests), old(pendingCollections)))
    {
      var n := |recognizer.completed|;
      recognizer.SilenceTimerFires();
      if |recognizer.completed| > n {
        RemoveLive();
        HandOver(recognizer.completed[n]);
      }
    }

    /** `onend`: the buttons flip back, the live bubble goes, and the transcript
        is sent when the protocol hands it over. */
    method OnRecognitionEnd()
      requires Valid()
      modifies recognizer, config`messageSent, this`startEnabled, this`stopRecordingEnabled
      modifies this`userInput, this`chat, this`live, this`requests, this`pendingCollections
      ensures Valid()
      ensures startEnabled && !stopRecordingEnabled
      ensures var o := OnEnd(old(recognizer.State()));
              recognizer.State() == o.after && recognizer.completed == old(recognizer.completed) + AsSeq(o.dispatched)
              && (o.dispatched.None? ==> Unchanged(old(userInput), Dropped(old(chat), old(live)), None, old(requests), old(pendingCollections)))
              && (o.dispatched.Some? ==> HandedOver(o.dispatched.value, Dropped(old(chat), old(live)), old(requests), old(pendingCollections)))
    {
      startEnabled := true;
      stopRecordingEnabled := false;
      var n := |recognizer.completed|;
      recognizer.HandleEnd();
      RemoveLive();
      if |recognizer.completed| > n {
        HandOver(recognizer.completed[n]);
      }
    }

    /** `onerror`: the live bubble goes and a stop is requested. */
    method OnRecognitionError(code: string)
      requires Valid()
      modifies recognizer, this`chat, this`live
      ensures Valid()
      ensures recognizer.State() == OnError(old(recognizer.State())).after
      ensures recognizer.completed == old(recognizer.completed) && recognizer.stopRequests == old(recognizer.stopRequests) + 1
      ensures chat == Dropped(old(chat), old(live)) && live.None?
    {
      recognizer.HandleError(code);
      RemoveLive();
    }

    /** The stop-recording button: ask the recogniser to stop. */
    method StopRecording()
      requires Valid()
      modifies recognizer`stopRequests
      ensures Valid()
      ensures recognizer.stopRequests == old(recognizer.stopRequests) + 1
    {
      recognizer.StopRecording();
    }

    /** Nothing the page shows or sends changed. */
    predicate Unchanged(input: string, chat0: seq<Bubble>, live0: Option<nat>, requests0: seq<ChatRequest>, pending0: seq<string>)
      reads this
    {
      userInput == input && chat == chat0 && live == live0 && requests == requests0 && pendingCollections == pending0
    }

    /** What handing transcript `t` over does: the input field takes it, it is
        sent (or not, when empty), and its metadata collection is queued. */
    predicate HandedOver(t: string, chat0: seq<Bubble>, requests0: seq<ChatRequest>, pending0: seq<string>)
      reads this, config
    {
      var r := SendOf(chat0, t, false, None, config.testPrompts.systemPrompt);
      chat == r.chat && userInput == r.input && requests == requests0 + Requests(r.request) && live.None?
      && pendingCollections == pending0 + [t]
    }

    method RemoveLive()
      requires Valid()
      modifies this`chat, this`live
      ensures Valid()
      ensures chat == Dropped(old(chat), old(live)) && live.None?
    {
      if live.Some? {
        chat := chat[..live.value] + chat[live.value + 1..];
        live := None;
      }
    }

    method HandOver(t: string)
      requires Valid() && live.None?
      modifies this`userInput, this`chat, this`requests, this`pendingCollections
      ensures Valid()
      ensures HandedOver(t, old(chat), old(requests), old(pendingCollections))
    {
      userInput := t;
      SendMessage(false, None);
      pendingCollections := pendingCollections + [t];
    }

    // -------------------------------------------------------------------------
    // Sending

    /** `sendMessage` up to the request it sends. */
    method SendMessage(isScoring: bool, customPrompt: Option<string>)
      requires Valid()
      modifies this`chat, this`userInput, this`requests
      ensures Valid()
      ensures var r := SendOf(old(chat), old(userInput), isScoring, customPrompt, config.testPrompts.systemPrompt);
              chat == r.chat && userInput == r.input && requests == old(requests) + Requests(r.request)
    {
      var userMessage := UserMessage(userInput, customPrompt);
      if userMessage == "" {
        return;
      }
      if !isScoring || customPrompt.None? || customPrompt.value == "" {
        chat := chat + [Bubble(UserSender, userMessage)];
      }
      userInput := "";
      var history := History(chat);
      var systemPrompt := config.testPrompts.systemPrompt;
      requests := requests + [ChatRequest(isScoring, [ChatMessage(SystemRole, systemPrompt)] + history + [ChatMessage(UserRole, userMessage)])];
    }

    /** `requestScoring`: the request line joins the chat and the scoring
        prompt, followed by the metadata summary, goes to the scoring model
        with the whole chat as history. */
    method RequestScoring()
      requires Valid()
      modifies this`chat, this`userInput, this`requests
      ensures Valid()
      ensures chat == old(chat) + [Bubble(UserSender, EvaluationRequest)] && userInput == ""
      ensures requests == old(requests) + [ChatRequest(true,
                [ChatMessage(SystemRole, config.testPrompts.systemPrompt)] + History(chat)
                + [ChatMessage(UserRole, config.testPrompts.scoringPrompt + "\n\n" + Summary.Render(Summary.Summarize(config.speechMetadata)))])]
    {
      var metadataSummary := tests.GenerateMetadataSummary();
      var scoringPrompt := config.testPrompts.scoringPrompt + "\n\n" + metadataSummary;
      chat := chat + [Bubble(UserSender, EvaluationRequest)];
      ScoringRequestKeepsChat(chat, userInput, scoringPrompt, config.testPrompts.systemPrompt);
      SendMessage(true, Some(scoringPrompt));
    }

    // -------------------------------------------------------------------------
    // Metadata

    /** `collectSpeechMetadata`: the speech worker's analysis of the turn, with
        the turn's pause count as its silences. `now` is the clock when the
        scheduled collection runs. */
    method CollectSpeechMetadata(transcript: string, startTime: int, now: int)
      requires now > startTime
      modifies config`speechMetadata
      ensures config.speechMetadata == old(config.speechMetadata) + [Analysis(transcript, now - startTime, now, Some(config.pauseCount))]
    {
      var metadata := AnalyzeSpeechMetadata(transcript, startTime, now, now);
      config.speechMetadata := config.speechMetadata + [metadata.(silencesCount := Some(config.pauseCount))];
    }

    /** The oldest scheduled collection runs: the turn's start time is read
        when the callback runs, not when it was scheduled. */
    method RunPendingCollection(now: int)
      requires pendingCollections != [] && now > recognizer.recordingStartTime
      modifies this`pendingCollections, config`speechMetadata
      ensures pendingCollections == old(pendingCollections)[1..]
      ensures config.speechMetadata == old(config.speechMetadata)
        + [Analysis(old(pendingCollections)[0], now - recognizer.recordingStartTime, now, Some(config.pauseCount))]
    {
      var transcript := pendingCollections[0];
      pendingCollections := pendingCollections[1..];
      CollectSpeechMetadata(transcript, recognizer.recordingStartTime, now);
    }

    // -------------------------------------------------------------------------
    // Playback

    /** `speakText` once audio is playing: recording, sending and typing are
        disabled and stopping playback is enabled. */
    method PlaybackStarted()
      modifies config`currentAudio, this`startEnabled, this`sendEnabled, this`inputEnabled, this`stopSpeakingEnabled
      ensures config.currentAudio && !startEnabled && !sendEnabled && !inputEnabled && stopSpeakingEnabled
    {
      startEnabled := false;
      sendEnabled := false;
      inputEnabled := false;
      stopSpeakingEnabled := true;
      config.currentAudio := true;
    }

    /** The audio's `onended` and `onerror`: the controls come back. */
    method PlaybackEnded()
      modifies config`currentAudio, this`startEnabled, this`sendEnabled, this`inputEnabled, this`stopSpeakingEnabled
      ensures !config.currentAudio && startEnabled && sendEnabled && inputEnabled && !stopSpeakingEnabled
    {
      stopSpeakingEnabled := false;
      config.currentAudio := false;
      startEnabled := true;
      sendEnabled := true;
      inputEnabled := true;
    }

    /** `stopSpeaking`: with audio held, it is dropped and the controls come back
        as when playback ends; with none, nothing changes. Calling it twice is
        calling it once. */
    method StopSpeaking()
      modifies config`currentAudio, this`startEnabled, this`sendEnabled, this`inputEnabled, this`stopSpeakingEnabled
      ensures !config.currentAudio
      ensures old(config.currentAudio) ==> startEnabled && sendEnabled && inputEnabled && !stopSpeakingEnabled
      ensures !old(config.currentAudio) ==>
        (startEnabled == old(startEnabled) && sendEnabled == old(sendEnabled)
         && inputEnabled == old(inputEnabled) && stopSpeakingEnabled == old(stopSpeakingEnabled))
    {
      if config.currentAudio {
        config.currentAudio := false;
        stopSpeakingEnabled := false;
        startEnabled := true;
        sendEnabled := true;
        inputEnabled := true;
      }
    }

    /** `startRecording`: playback is stopped first and the input field cleared;
        the recogniser's `start` event follows. */
    method StartRecording()
      modifies config`currentAudio, this`startEnabled, this`sendEnabled, this`inputEnabled, this`stopSpeakingEnabled
      modifies this`userInput
      ensures userInput == "" && !config.currentAudio
      ensures old(config.currentAudio) ==> startEnabled && sendEnabled && inputEnabled && !stopSpeakingEnabled
      ensures !old(config.currentAudio) ==>
        (startEnabled == old(startEnabled) && sendEnabled == old(sendEnabled)
         && inputEnabled == old(inputEnabled) && stopSpeakingEnabled == old(stopSpeakingEnabled))
    {
      if config.currentAudio {
        StopSpeaking();
      }
      userInput := "";
    }

    // -------------------------------------------------------------------------
    // The test

    /** `startTest`: the chat is emptied (a live bubble with it), the test is
        active with no metadata and the flag cleared, the clock restarts, and
        the examiner's opening line is the only bubble; when choosing it
        throws, the chat stays empty and the score button is left alone. */
    method StartTest(k2: nat, k3: nat)
      requires Valid()
      requires RandomIndex(k2, |config.testPrompts.part2Topics|) && RandomIndex(k3, |config.testPrompts.part3Topics|)
      modifies this`chat, this`live, this`scoreEnabled, tests`display
      modifies config`testActive, config`speechMetadata, config`messageSent, config`timerSeconds, config`runningIntervals
      ensures Valid()
      ensures live.None? && config.testActive && config.speechMetadata == [] && !config.messageSent
      ensures var intro := AppIntro(config.testPrompts, config.currentTestPart, k2, k3);
              if intro.Some? then chat == [Bubble(Examiner, intro.value)] && scoreEnabled
              else chat == [] && scoreEnabled == old(scoreEnabled)
      ensures config.timerSeconds == 0 && tests.display == FormatTimer(0)
      ensures config.runningIntervals == old(config.runningIntervals) + 1
    {
      chat := [];
      live := None;
      config.testActive := true;
      config.speechMetadata := [];
      config.messageSent := false;
      tests.StartTimer();
      var introMessage := AppIntro(config.testPrompts, config.currentTestPart, k2, k3);
      if introMessage.Some? {
        chat := chat + [Bubble(Examiner, introMessage.value)];
        scoreEnabled := true;
      }
    }

    /** One second of a running clock interval. */
    method Tick()
      requires Valid() && config.runningIntervals > 0
      modifies config`timerSeconds, tests`display
      ensures Valid()
      ensures config.timerSeconds == old(config.timerSeconds) + 1 && tests.display == FormatTimer(config.timerSeconds)
    {
      tests.Tick();
    }
  }

}
