/** The conversation view (`NarrativeDisplay`): an append-only chat log whose
    AI messages are revealed one character per timer tick, follow-up
    questions typed or spoken by the user, and the speech-capture toggle.

    The reveal is specified on values: `RevealTick` is one tick of the typing
    animation on the pair (displayed prefixes, active message id), and the
    class's `Tick` method is proved to perform exactly that step. The timer,
    the speech recognizer and the scroll container are not modelled; a tick,
    a recognizer event and the viewport's measurements are inputs. */
module Display {
  import opened Prelude
  import opened Actions

  datatype Sender = User | Ai

  /** Message ids are `<kind>-<timestamp>`; only the kind prefix is ever
      inspected, and a per-view counter stands in for the timestamp. */
  datatype IdKind = AiInitial | AiFollowUp | UserTurn
  datatype MessageId = MessageId(kind: IdKind, serial: nat)

  datatype ChatMessage = ChatMessage(id: MessageId, sender: Sender, text: string, audioDataUri: Option<string>)

  /** The scroll container's measurements at a tick. */
  datatype Viewport = Viewport(scrollHeight: real, scrollTop: real, clientHeight: real)

  const ScrollThreshold: real := 50.0

  /** Whether a tick that has just shown `index` characters scrolls to the end:
      always without a viewport, otherwise when the view is within the
      threshold of the bottom or the message has just begun. */
  predicate ShouldAutoScroll(viewport: Option<Viewport>, index: nat) {
    || viewport.None?
    || viewport.value.scrollHeight - viewport.value.scrollTop - viewport.value.clientHeight <= ScrollThreshold
    || index <= 2
  }

  // ---------------------------------------------------------------------
  // The chat log
  // ---------------------------------------------------------------------

  /** `chatHistory.find(msg => msg.id === id && msg.sender === 'ai')`. */
  function FindAi(history: seq<ChatMessage>, id: MessageId): (r: Option<ChatMessage>)
    ensures r.Some? ==> r.value in history && r.value.id == id && r.value.sender == Ai
    ensures r.None? ==> forall m :: m in history ==> !(m.id == id && m.sender == Ai)
  {
    if history == [] then None
    else if history[0].id == id && history[0].sender == Ai then Some(history[0])
    else FindAi(history[1..], id)
  }

  /** Appending to the log never changes which message an id already finds. */
  lemma {:induction false} FindAiAppend(history: seq<ChatMessage>, m: ChatMessage, id: MessageId)
    ensures FindAi(history + [m], id) ==
              if FindAi(history, id).Some? then FindAi(history, id)
              else if m.id == id && m.sender == Ai then Some(m)
              else None
  {
    if history == [] {
      assert [] + [m] == [m];
      assert [m][1..] == [];
    } else {
      assert (history + [m])[0] == history[0];
      assert (history + [m])[1..] == history[1..] + [m];
      FindAiAppend(history[1..], m, id);
    }
  }

  /** The follow-up context: the text of the first message whose id starts
      with "ai-initial", or the narrative prop when there is none. */
  function InitialContext(history: seq<ChatMessage>, fallback: string): (r: string)
    ensures (exists m :: m in history && m.id.kind == AiInitial) ==>
              exists i :: && 0 <= i < |history| && history[i].id.kind == AiInitial && r == history[i].text
                          && forall j :: 0 <= j < i ==> history[j].id.kind != AiInitial
    ensures (forall m :: m in history ==> m.id.kind != AiInitial) ==> r == fallback
  {
    if history == [] then fallback
    else if history[0].id.kind == AiInitial then history[0].text
    else InitialContext(history[1..], fallback)
  }

  /** Follow-up turns never change the context later questions are sent with. */
  lemma {:induction false} InitialContextAppend(history: seq<ChatMessage>, m: ChatMessage, fallback: string)
    requires m.id.kind != AiInitial
    ensures InitialContext(history + [m], fallback) == InitialContext(history, fallback)
  {
    if history == [] {
      assert [] + [m] == [m];
      assert [m][1..] == [];
    } else {
      assert (history + [m])[0] == history[0];
      assert (history + [m])[1..] == history[1..] + [m];
      InitialContextAppend(history[1..], m, fallback);
    }
  }

  // ---------------------------------------------------------------------
  // The typing reveal
  // ---------------------------------------------------------------------

  /** `currentDisplayedText` and `activeTypingMessageId`. */
  datatype Reveal = Reveal(displayed: map<MessageId, string>, active: Option<MessageId>)

  /** `currentDisplayedText[id] || ""`. */
  function Shown(r: Reveal, id: MessageId): string {
    if id in r.displayed then r.displayed[id] else ""
  }

  /** Every displayed text belongs to an AI message of the log and is a
      prefix of its text. */
  predicate Consistent(history: seq<ChatMessage>, r: Reveal) {
    forall id :: id in r.displayed ==>
      && FindAi(history, id).Some?
      && |r.displayed[id]| <= |FindAi(history, id).value.text|
      && r.displayed[id] == FindAi(history, id).value.text[..|r.displayed[id]|]
  }

  /** One tick's outcome, with the number of characters shown after it when a
      character was added. */
  datatype TickOutcome = TickOutcome(after: Reveal, appendedAt: Option<nat>)

  /** One tick of the typing animation: with an active id whose AI message
      exists, is non-empty and is not yet fully shown, the next character is
      appended to its displayed text, and the id is cleared once the text is
      complete; otherwise the active id is cleared and nothing is added. The
      reveal stays consistent with the log. */
  function RevealTick(history: seq<ChatMessage>, r: Reveal): (out: TickOutcome)
    requires Consistent(history, r)
    ensures Consistent(history, out.after)
  {
    match r.active
    case None => TickOutcome(r, None)
    case Some(id) =>
      match FindAi(history, id)
      case None => TickOutcome(r.(active := None), None)
      case Some(m) =>
        var shown := Shown(r, id);
        if m.text == "" || |shown| == |m.text| then
          TickOutcome(r.(active := None), None)
        else
          assert shown <= m.text;
          var next := shown + [m.text[|shown|]];
          assert next == m.text[..|next|];
          TickOutcome(Reveal(r.displayed[id := next], if |next| >= |m.text| then None else Some(id)), Some(|next|))
  }

  /** A tick appends exactly when the active message has characters left to
      show; it then adds the next character of the text, and clears the id
      once the text is complete. */
  lemma TickAppendsNextCharacter(history: seq<ChatMessage>, r: Reveal)
    requires Consistent(history, r)
    ensures var out := RevealTick(history, r);
            out.appendedAt.Some? <==>
              r.active.Some? && FindAi(history, r.active.value).Some?
              && |Shown(r, r.active.value)| < |FindAi(history, r.active.value).value.text|
    ensures var out := RevealTick(history, r);
            out.appendedAt.Some? ==>
              var id := r.active.value;
              var text := FindAi(history, id).value.text;
              && out.appendedAt.value == |Shown(r, id)| + 1
              && Shown(out.after, id) == text[..out.appendedAt.value]
              && out.after.active == (if out.appendedAt.value == |text| then None else Some(id))
  {
  }

  /** A tick that appends nothing only clears the active id: with no active
      id, a missing or empty message, or a fully shown one. */
  lemma TickWithoutAppendStops(history: seq<ChatMessage>, r: Reveal)
    requires Consistent(history, r)
    requires RevealTick(history, r).appendedAt.None?
    ensures RevealTick(history, r).after == Reveal(r.displayed, None)
  {
  }

  /** A tick never touches the displayed text of any other message. */
  lemma TickLeavesOthers(history: seq<ChatMessage>, r: Reveal, other: MessageId)
    requires Consistent(history, r)
    requires r.active != Some(other)
    ensures Shown(RevealTick(history, r).after, other) == Shown(r, other)
    ensures other in RevealTick(history, r).after.displayed <==> other in r.displayed
  {
  }

  /** `n` ticks in a row. */
  function RevealTicks(history: seq<ChatMessage>, r: Reveal, n: nat): (out: Reveal)
    requires Consistent(history, r)
    ensures Consistent(history, out)
    decreases n
  {
    if n == 0 then r else RevealTicks(history, RevealTick(history, r).after, n - 1)
  }

  /** A message being typed is fully shown, and typing stops, after exactly as
      many ticks as it has characters left. */
  lemma {:induction false} RevealFinishes(history: seq<ChatMessage>, r: Reveal, m: ChatMessage, n: nat)
    requires Consistent(history, r)
    requires r.active == Some(m.id) && FindAi(history, m.id) == Some(m)
    requires |Shown(r, m.id)| < |m.text| && n == |m.text| - |Shown(r, m.id)|
    ensures Shown(RevealTicks(history, r, n), m.id) == m.text && RevealTicks(history, r, n).active.None?
    decreases n
  {
    var out := RevealTick(history, r);
    TickAppendsNextCharacter(history, r);
    var k := |Shown(r, m.id)| + 1;
    assert Shown(out.after, m.id) == m.text[..k];
    assert RevealTicks(history, r, n) == RevealTicks(history, out.after, n - 1);
    if n == 1 {
      assert m.text[..k] == m.text;
      assert out.after.active == None;
      assert RevealTicks(history, out.after, 0) == out.after;
    } else {
      assert out.after.active == Some(m.id);
      RevealFinishes(history, out.after, m, n - 1);
    }
  }

  /** The initial narrative, when not blank, is revealed in full in as many
      ticks as it has characters. */
  lemma NarrativeRevealedInFull(text: string, audio: string, serial: nat)
    requires !IsBlank(text)
    ensures var id := MessageId(AiInitial, serial);
            var history := [ChatMessage(id, Ai, text, Some(audio))];
            var done := RevealTicks(history, Reveal(map[], Some(id)), |text|);
            Shown(done, id) == text && done.active.None?
  {
    var id := MessageId(AiInitial, serial);
    var history := [ChatMessage(id, Ai, text, Some(audio))];
    assert FindAi(history, id) == Some(history[0]);
    RevealFinishes(history, Reveal(map[], Some(id)), history[0], |text|);
  }

  /** What a message's bubble shows: the typed prefix while it is being
      typed, its full text otherwise. */
  function BubbleText(m: ChatMessage, r: Reveal): string {
    if r.active == Some(m.id) then Shown(r, m.id) else m.text
  }

  /** A bubble never shows more than, nor anything other than the start of,
      its message. */
  lemma BubbleIsPrefix(history: seq<ChatMessage>, r: Reveal, m: ChatMessage)
    requires Consistent(history, r)
    requires m in history && FindAi(history, m.id) == Some(m)
    ensures BubbleText(m, r) <= m.text
  {
    if r.active == Some(m.id) && m.id in r.displayed {
      assert r.displayed[m.id] <= FindAi(history, m.id).value.text;
    }
  }

  /** The per-message audio player guard. */
  predicate ShowsAudioPlayer(m: ChatMessage, active: Option<MessageId>) {
    m.sender == Ai && Truthy(m.audioDataUri) && active != Some(m.id) && !IsBlank(m.text)
  }

  /** The initial-audio player guard: some initial message carries audio. */
  predicate ShowsInitialAudio(history: seq<ChatMessage>) {
    exists m :: m in history && m.id.kind == AiInitial && Truthy(m.audioDataUri)
  }

  /** Right after the reset, the initial-audio player shows exactly when the
      narrative came with audio. */
  lemma InitialAudioShown(text: string, audio: string, serial: nat)
    ensures ShowsInitialAudio([ChatMessage(MessageId(AiInitial, serial), Ai, text, Some(audio))]) <==> audio != ""
  {
  }

  /** Follow-up turns never show or hide the initial-audio player. */
  lemma InitialAudioKept(history: seq<ChatMessage>, m: ChatMessage)
    requires m.id.kind != AiInitial
    ensures ShowsInitialAudio(history + [m]) <==> ShowsInitialAudio(history)
  {
  }

  /** A message's player is hidden while it is typing and appears once the
      reveal is finished, if it has audio and non-blank text. */
  lemma AudioAfterTyping(history: seq<ChatMessage>, r: Reveal, m: ChatMessage)
    requires Consistent(history, r)
    requires r.active == Some(m.id) && FindAi(history, m.id) == Some(m)
    requires |Shown(r, m.id)| < |m.text|
    ensures !ShowsAudioPlayer(m, r.active)
    ensures ShowsAudioPlayer(m, RevealTicks(history, r, |m.text| - |Shown(r, m.id)|).active)
            <==> Truthy(m.audioDataUri) && !IsBlank(m.text)
  {
    var n := |m.text| - |Shown(r, m.id)|;
    assert RevealTicks(history, r, n).active == None by {
      RevealFinishes(history, r, m, n);
    }
    assert m.sender == Ai;
  }

  // ---------------------------------------------------------------------
  // The view's state
  // ---------------------------------------------------------------------

  /** The toasts the view raises (wording not modelled). */
  datatype DisplayToast =
    | EmptyQuestionToast
    | UserIdMissingToast
    | VoiceInputNotReadyToast
    | CouldNotStartRecordingToast
    | MicDeniedToast
    | SpeechErrorToast(code: string)
    | FollowUpFailedToast(error: ErrorKind)
    | AnswerReadyToast

  /** Why voice input is unavailable. */
  datatype MicIssue = RecognitionUnavailable | PermissionDenied

  /** What the view asks of the speech recognizer. */
  datatype RecognizerCommand = StartListening(lang: string) | StopListening

  /** `currentGlobalLanguage || 'en-US'`. */
  function RecognitionLanguage(globalLanguage: string): string {
    if globalLanguage == "" then "en-US" else globalLanguage
  }

  /** The error codes that mean microphone access was refused. */
  predicate PermissionRefused(error: string) {
    error == "not-allowed" || error == "service-not-allowed"
  }

  class NarrativeDisplay {
    // Props.
    var narrativeText: string
    var audioDataUri: string
    var locationDescription: string
    var outputLanguage: string
    var informationStyle: string
    var userId: string
    var latitude: Option<Coord>
    var longitude: Option<Coord>

    // State.
    var history: seq<ChatMessage>
    var displayed: map<MessageId, string>
    var active: Option<MessageId>
    var isRecording: bool
    var transcribedQuestion: string
    var isGeneratingFollowUp: bool
    var hasRecognizer: bool
    var recognitionLang: string
    var micPermissionError: Option<MicIssue>
    var toasts: seq<DisplayToast>
    var commands: seq<RecognizerCommand>
    var nextSerial: nat

    /** Message ids are distinct and below the counter; the reveal is
        consistent with the log. */
    predicate Valid()
      reads this
    {
      && (forall i, j :: 0 <= i < j < |history| ==> history[i].id != history[j].id)
      && (forall i :: 0 <= i < |history| ==> history[i].id.serial < nextSerial)
      && Consistent(history, Reveal(displayed, active))
    }

    /** Mounting: the recognizer is set up when the browser has one (otherwise
        the mic error records that it is unavailable), and the initial
        narrative becomes the only message. */
    constructor (narrativeText: string, audioDataUri: string, locationDescription: string, outputLanguage: string,
                 informationStyle: string, userId: string, latitude: Option<Coord>, longitude: Option<Coord>,
                 hasRecognitionApi: bool, globalLanguage: string)
      ensures Valid()
      ensures this.narrativeText == narrativeText && this.audioDataUri == audioDataUri
      ensures this.locationDescription == locationDescription && this.outputLanguage == outputLanguage
      ensures this.informationStyle == informationStyle && this.userId == userId
      ensures this.latitude == latitude && this.longitude == longitude
      ensures history == (if narrativeText == "" then [] else [ChatMessage(MessageId(AiInitial, 0), Ai, narrativeText, Some(audioDataUri))])
      ensures displayed == map[]
      ensures active == (if IsBlank(narrativeText) then None else Some(MessageId(AiInitial, 0)))
      ensures hasRecognizer == hasRecognitionApi && recognitionLang == RecognitionLanguage(globalLanguage)
      ensures micPermissionError == (if hasRecognitionApi then None else Some(RecognitionUnavailable))
      ensures !isRecording && !isGeneratingFollowUp && transcribedQuestion == "" && toasts == [] && commands == []
    {
      this.narrativeText := narrativeText;
      this.audioDataUri := audioDataUri;
      this.locationDescription := locationDescription;
      this.outputLanguage := outputLanguage;
      this.informationStyle := informationStyle;
      this.userId := userId;
      this.latitude := latitude;
      this.longitude := longitude;
      isRecording := false;
      transcribedQuestion := "";
      isGeneratingFollowUp := false;
      hasRecognizer := hasRecognitionApi;
      recognitionLang := RecognitionLanguage(globalLanguage);
      micPermissionError := if hasRecognitionApi then None else Some(RecognitionUnavailable);
      toasts := [];
      commands := [];
      displayed := map[];
      active := None;
      if narrativeText != "" {
        history := [ChatMessage(MessageId(AiInitial, 0), Ai, narrativeText, Some(audioDataUri))];
        if !IsBlank(narrativeText) {
          active := Some(MessageId(AiInitial, 0));
        }
      } else {
        history := [];
      }
      nextSerial := 1;
    }

    /** The reset effect on a new narrative: the log, the displayed texts and
        the active id are cleared, then one initial message is inserted if the
        text is non-empty, and typing starts only if it is not blank. The
        effect depends on the narrative text alone, so it runs only when that
        text changes; its run on mount is the constructor. */
    method OnNarrative(text: string, audio: string)
      requires Valid()
      requires text != narrativeText
      modifies this`narrativeText, this`audioDataUri, this`history, this`displayed, this`active, this`nextSerial
      ensures Valid()
      ensures narrativeText == text && audioDataUri == audio
      ensures history == (if text == "" then [] else [ChatMessage(MessageId(AiInitial, old(nextSerial)), Ai, text, Some(audio))])
      ensures displayed == map[]
      ensures active == (if IsBlank(text) then None else Some(MessageId(AiInitial, old(nextSerial))))
      ensures nextSerial == old(nextSerial) + 1
    {
      narrativeText := text;
      audioDataUri := audio;
      history := [];
      displayed := map[];
      active := None;
      var initialMessageId := MessageId(AiInitial, nextSerial);
      nextSerial := nextSerial + 1;
      if text != "" {
        history := [ChatMessage(initialMessageId, Ai, text, Some(audio))];
        if !IsBlank(text) {
          active := Some(initialMessageId);
        }
      }
    }

    /** One firing of the typing interval: performs `RevealTick` and reports
        whether the view scrolls to the end. */
    method Tick(viewport: Option<Viewport>) returns (scrolled: bool)
      requires Valid()
      modifies this`displayed, this`active
      ensures Valid()
      ensures var out := RevealTick(history, old(Reveal(displayed, active)));
              && Reveal(displayed, active) == out.after
              && scrolled == (out.appendedAt.Some? && ShouldAutoScroll(viewport, out.appendedAt.value))
    {
      ghost var before := Reveal(displayed, active);
      ghost var out := RevealTick(history, before);
      scrolled := false;
      if active.None? {
        return;
      }
      var id := active.value;
      var message := FindAi(history, id);
      if message.None? || message.value.text == "" {
        active := None;
        assert Reveal(displayed, active) == out.after;
        return;
      }
      var text := message.value.text;
      if id !in displayed {
        displayed := displayed[id := ""];
      }
      var index := |displayed[id]|;
      assert displayed[id] == Shown(before, id);
      if index == |text| {
        active := None;
        assert Reveal(displayed, active) == out.after;
        return;
      }
      displayed := displayed[id := displayed[id] + [text[index]]];
      index := index + 1;
      scrolled := ShouldAutoScroll(viewport, index);
      if index >= |text| {
        active := None;
      }
      assert Reveal(displayed, active) == out.after;
    }

    /** The first half of `handleFollowUpSubmit`, up to the action call: a
        blank question or a missing user id only raises a toast; otherwise
        the trimmed question is appended as a user message, the input is
        cleared, and the request for the action is returned. */
    method SubmitFollowUp(question: string) returns (request: Option<FollowUpServerInput>)
      requires Valid()
      modifies this`history, this`nextSerial, this`isGeneratingFollowUp, this`transcribedQuestion, this`toasts
      ensures Valid()
      ensures request.None? ==>
                && toasts == old(toasts) + [if IsBlank(question) then EmptyQuestionToast else UserIdMissingToast]
                && history == old(history) && isGeneratingFollowUp == old(isGeneratingFollowUp)
                && transcribedQuestion == old(transcribedQuestion) && nextSerial == old(nextSerial)
      ensures request.Some? <==> !IsBlank(question) && userId != ""
      ensures request.Some? ==>
                && history == old(history) + [ChatMessage(MessageId(UserTurn, old(nextSerial)), User, Trim(question), None)]
                && isGeneratingFollowUp && transcribedQuestion == "" && toasts == old(toasts)
                && nextSerial == old(nextSerial) + 1
                && request.value == FollowUpServerInput(InitialContext(old(history), narrativeText), locationDescription,
                                                        Trim(question), outputLanguage, informationStyle, userId,
                                                        latitude, longitude)
    {
      var trimmedQuestion := Trim(question);
      if trimmedQuestion == "" {
        toasts := toasts + [EmptyQuestionToast];
        return None;
      }
      if userId == "" {
        toasts := toasts + [UserIdMissingToast];
        return None;
      }
      var actionInput := StartFollowUp(trimmedQuestion);
      request := Some(actionInput);
    }

    /** The accepted path of `handleFollowUpSubmit` before the await: the
        user message is appended, the input cleared, and the action input
        built with the context read from the log as it was. */
    method StartFollowUp(trimmedQuestion: string) returns (actionInput: FollowUpServerInput)
      requires Valid()
      modifies this`history, this`nextSerial, this`isGeneratingFollowUp, this`transcribedQuestion
      ensures Valid()
      ensures history == old(history) + [ChatMessage(MessageId(UserTurn, old(nextSerial)), User, trimmedQuestion, None)]
      ensures isGeneratingFollowUp && transcribedQuestion == "" && nextSerial == old(nextSerial) + 1
      ensures actionInput == FollowUpServerInput(InitialContext(old(history), narrativeText), locationDescription,
                                                 trimmedQuestion, outputLanguage, informationStyle, userId,
                                                 latitude, longitude)
    {
      isGeneratingFollowUp := true;
      var userMessage := ChatMessage(MessageId(UserTurn, nextSerial), User, trimmedQuestion, None);
      var contextNarrative := InitialContext(history, narrativeText);
      AppendKeepsReveal(history, Reveal(displayed, active), userMessage);
      history := history + [userMessage];
      nextSerial := nextSerial + 1;
      transcribedQuestion := "";
      actionInput := FollowUpServerInput(contextNarrative, locationDescription, trimmedQuestion, outputLanguage,
                                         informationStyle, userId, latitude, longitude);
    }

    /** The second half of `handleFollowUpSubmit`, when the action returns:
        an error only raises a toast; an answer is appended as one AI message,
        typed out if it is not blank. */
    method CompleteFollowUp(result: Result<FollowUpResult, ErrorKind>)
      requires Valid()
      modifies this`isGeneratingFollowUp, this`toasts, this`history, this`nextSerial, this`active
      ensures Valid()
      ensures !isGeneratingFollowUp
      ensures result.Failure? ==>
                && history == old(history) && active == old(active)
                && toasts == old(toasts) + [FollowUpFailedToast(result.error)]
      ensures result.Success? ==>
                var id := MessageId(AiFollowUp, old(nextSerial));
                && history == old(history) + [ChatMessage(id, Ai, result.value.answerText, Some(result.value.answerAudioDataUri))]
                && active == (if IsBlank(result.value.answerText) then old(active) else Some(id))
                && toasts == old(toasts) + [AnswerReadyToast]
    {
      isGeneratingFollowUp := false;
      match result {
        case Failure(e) =>
          toasts := toasts + [FollowUpFailedToast(e)];
        case Success(answer) =>
          var aiResponseMessageId := MessageId(AiFollowUp, nextSerial);
          var aiResponseMessage := ChatMessage(aiResponseMessageId, Ai, answer.answerText, Some(answer.answerAudioDataUri));
          AppendKeepsReveal(history, Reveal(displayed, active), aiResponseMessage);
          history := history + [aiResponseMessage];
          nextSerial := nextSerial + 1;
          if !IsBlank(answer.answerText) {
            active := Some(aiResponseMessageId);
          }
          toasts := toasts + [AnswerReadyToast];
      }
    }

    /** `handleToggleRecording`. */
    method ToggleRecording(globalLanguage: string, startThrows: bool)
      requires Valid()
      modifies this`toasts, this`commands, this`isRecording, this`micPermissionError, this`transcribedQuestion, this`recognitionLang
      ensures Valid()
      ensures !old(hasRecognizer) ==>
                && toasts == old(toasts) + [VoiceInputNotReadyToast]
                && isRecording == old(isRecording) && commands == old(commands)
                && micPermissionError == old(micPermissionError) && transcribedQuestion == old(transcribedQuestion)
      ensures old(hasRecognizer) && old(isRecording) ==>
                && !isRecording && commands == old(commands) + [StopListening]
                && toasts == old(toasts) && micPermissionError == old(micPermissionError)
                && transcribedQuestion == old(transcribedQuestion)
      ensures old(hasRecognizer) && !old(isRecording) ==>
                && micPermissionError == None && transcribedQuestion == ""
                && recognitionLang == RecognitionLanguage(globalLanguage)
                && isRecording == !startThrows
                && commands == old(commands) + (if startThrows then [] else [StartListening(recognitionLang)])
                && toasts == old(toasts) + (if startThrows then [CouldNotStartRecordingToast] else [])
    {
      if !hasRecognizer {
        toasts := toasts + [VoiceInputNotReadyToast];
        return;
      }
      if isRecording {
        commands := commands + [StopListening];
        isRecording := false;
      } else {
        micPermissionError := None;
        transcribedQuestion := "";
        if recognitionLang != RecognitionLanguage(globalLanguage) {
          recognitionLang := RecognitionLanguage(globalLanguage);
        }
        if startThrows {
          toasts := toasts + [CouldNotStartRecordingToast];
          isRecording := false;
        } else {
          commands := commands + [StartListening(recognitionLang)];
          isRecording := true;
        }
      }
    }

    /** The recognizer's `onresult`: the trimmed transcript fills the input,
        recording stops, and a non-empty transcript is submitted at once. */
    method OnRecognitionResult(transcript: string) returns (request: Option<FollowUpServerInput>)
      requires Valid()
      modifies this`history, this`nextSerial, this`isGeneratingFollowUp, this`transcribedQuestion, this`toasts, this`isRecording
      ensures Valid()
      ensures !isRecording
      ensures IsBlank(transcript) ==>
                && request.None? && transcribedQuestion == "" && history == old(history) && toasts == old(toasts)
                && isGeneratingFollowUp == old(isGeneratingFollowUp) && nextSerial == old(nextSerial)
      ensures request.Some? <==> !IsBlank(transcript) && userId != ""
      ensures !IsBlank(transcript) && userId == "" ==>
                && transcribedQuestion == Trim(transcript) && history == old(history)
                && toasts == old(toasts) + [UserIdMissingToast]
                && isGeneratingFollowUp == old(isGeneratingFollowUp) && nextSerial == old(nextSerial)
      ensures request.Some? ==>
                && request.value == FollowUpServerInput(InitialContext(old(history), narrativeText), locationDescription,
                                                        Trim(transcript), outputLanguage, informationStyle, userId,
                                                        latitude, longitude)
                && history == old(history) + [ChatMessage(MessageId(UserTurn, old(nextSerial)), User, Trim(transcript), None)]
                && isGeneratingFollowUp && transcribedQuestion == "" && toasts == old(toasts)
                && nextSerial == old(nextSerial) + 1
    {
      var trimmed := Trim(transcript);
      transcribedQuestion := trimmed;
      isRecording := false;
      request := None;
      if trimmed != "" {
        TrimIdempotent(transcript);
        assert Trim(trimmed) == trimmed && !IsBlank(trimmed) && !IsBlank(transcript);
        request := SubmitFollowUp(trimmed);
      }
    }

    /** The recognizer's `onerror`: a refused permission is remembered as the
        mic error; any other error only raises a toast. Recording stops. */
    method OnRecognitionError(error: string)
      requires Valid()
      modifies this`micPermissionError, this`toasts, this`isRecording
      ensures Valid()
      ensures !isRecording
      ensures PermissionRefused(error) ==>
                micPermissionError == Some(PermissionDenied) && toasts == old(toasts) + [MicDeniedToast]
      ensures !PermissionRefused(error) ==>
                micPermissionError == old(micPermissionError) && toasts == old(toasts) + [SpeechErrorToast(error)]
    {
      if PermissionRefused(error) {
        micPermissionError := Some(PermissionDenied);
        toasts := toasts + [MicDeniedToast];
      } else {
        toasts := toasts + [SpeechErrorToast(error)];
      }
      isRecording := false;
    }

    /** The recognizer's `onend`. */
    method OnRecognitionEnd()
      requires Valid()
      modifies this`isRecording
      ensures Valid() && !isRecording
    {
      isRecording := false;
    }

    /** Typing in the question box. */
    method EditQuestion(text: string)
      requires Valid()
      modifies this`transcribedQuestion
      ensures Valid() && transcribedQuestion == text
    {
      transcribedQuestion := text;
    }

    /** Whether Enter in the question box submits. */
    predicate EnterSubmits(shift: bool)
      reads this
    {
      !shift && !isGeneratingFollowUp && !isRecording && !IsBlank(transcribedQuestion)
    }

    /** Whether the send button is enabled. */
    predicate SendEnabled()
      reads this
    {
      !isGeneratingFollowUp && !isRecording && !IsBlank(transcribedQuestion) && userId != ""
    }

    /** Enter without shift, while idle, submits the typed question. */
    method PressEnter(shift: bool) returns (request: Option<FollowUpServerInput>)
      requires Valid()
      modifies this`history, this`nextSerial, this`isGeneratingFollowUp, this`transcribedQuestion, this`toasts
      ensures Valid()
      ensures !old(EnterSubmits(shift)) ==>
                && request.None? && history == old(history) && toasts == old(toasts)
                && transcribedQuestion == old(transcribedQuestion) && isGeneratingFollowUp == old(isGeneratingFollowUp)
                && nextSerial == old(nextSerial)
      ensures old(EnterSubmits(shift)) && userId == "" ==>
                && request.None? && toasts == old(toasts) + [UserIdMissingToast] && history == old(history)
                && transcribedQuestion == old(transcribedQuestion) && isGeneratingFollowUp == old(isGeneratingFollowUp)
                && nextSerial == old(nextSerial)
      ensures request.Some? <==> old(EnterSubmits(shift)) && userId != ""
      ensures request.Some? ==>
                && request.value == FollowUpServerInput(InitialContext(old(history), narrativeText), locationDescription,
                                                        Trim(old(transcribedQuestion)), outputLanguage, informationStyle, userId,
                                                        latitude, longitude)
                && history == old(history) + [ChatMessage(MessageId(UserTurn, old(nextSerial)), User, Trim(old(transcribedQuestion)), None)]
                && isGeneratingFollowUp && transcribedQuestion == "" && toasts == old(toasts)
                && nextSerial == old(nextSerial) + 1
    {
      request := None;
      if EnterSubmits(shift) {
        request := SubmitFollowUp(transcribedQuestion);
      }
    }

    /** The send button: when enabled, it submits the typed question, and
        then a request is always made. */
    method ClickSend() returns (request: Option<FollowUpServerInput>)
      requires Valid()
      modifies this`history, this`nextSerial, this`isGeneratingFollowUp, this`transcribedQuestion, this`toasts
      ensures Valid()
      ensures !old(SendEnabled()) ==>
                && request.None? && history == old(history) && toasts == old(toasts)
                && transcribedQuestion == old(transcribedQuestion) && isGeneratingFollowUp == old(isGeneratingFollowUp)
                && nextSerial == old(nextSerial)
      ensures request.Some? <==> old(SendEnabled())
      ensures request.Some? ==>
                && request.value == FollowUpServerInput(InitialContext(old(history), narrativeText), locationDescription,
                                                        Trim(old(transcribedQuestion)), outputLanguage, informationStyle, userId,
                                                        latitude, longitude)
                && history == old(history) + [ChatMessage(MessageId(UserTurn, old(nextSerial)), User, Trim(old(transcribedQuestion)), None)]
                && isGeneratingFollowUp && transcribedQuestion == "" && toasts == old(toasts)
                && nextSerial == old(nextSerial) + 1
    {
      request := None;
      if SendEnabled() {
        request := SubmitFollowUp(transcribedQuestion);
      }
    }
  }

  /** Appending any message keeps the reveal consistent. */
  lemma AppendKeepsReveal(history: seq<ChatMessage>, r: Reveal, m: ChatMessage)
    requires Consistent(history, r)
    ensures Consistent(history + [m], r)
  {
    forall id | id in r.displayed
      ensures FindAi(history + [m], id) == FindAi(history, id)
    {
      FindAiAppend(history, m, id);
    }
  }
}
