/** The two server actions: `generateTravelNarrativeAction` (validate, check
    the user id, pick the location source, call the narrative agent, then the
    speech flow) and `generateFollowUpAnswerAction` (the same chain for a
    question, without location resolution).

    Every collaborator is an oracle: the image describer's reply, the agent
    webhook's reply and the speech service's reply are inputs, and each action
    returns the log of calls it made, so "no call was made" reads `calls == []`.
    Each action is a method written step by step as the source is, proved equal
    to a specification function (`NarrativeRun`, `FollowUpRun`); the lemmas
    below state what the source promises about those functions. */
module Actions {
  import opened Prelude
  import opened Validators
  import opened Narration

  const CurrentLocationFlag := "[USER_CURRENT_LOCATION_REQUEST]"

  /** A coordinate as the action observes it: its JavaScript truthiness (false
      for 0, as for NaN), its `toString()` and its `toFixed(4)` renderings.
      Numeric formatting is not modelled; the renderings are given. */
  datatype Coord = Coord(nonZero: bool, shown: string, fixed4: string)

  /** `latitude && ...` on an optional number. */
  predicate CoordTruthy(c: Option<Coord>) {
    c.Some? && c.value.nonZero
  }

  /** `latitude?.toString() || ''`: a present coordinate, zero included, is sent. */
  function CoordHeader(c: Option<Coord>): string {
    if c.Some? then c.value.shown else ""
  }

  const CurrentLocationOpening := "Tell me about interesting places or hidden gems near my current location (Lat: "

  /** The prompt synthesized for the current-location request. */
  function CurrentLocationPrompt(latitude: Coord, longitude: Coord): (r: string)
    ensures r != ""
  {
    CurrentLocationOpening + latitude.fixed4 + ", Lon: " + longitude.fixed4 + ")."
  }

  /** The kinds of `{ error }` the actions return (message wording not modelled). */
  datatype ErrorKind =
    | InvalidInput(issues: seq<FieldIssue>)
    | MissingUserId
    | NoLocationProvided
    | ImageDescriptionFailed
    | ImageServiceError                          // the describer raised; the outer catch reports it
    | AgentRequestFailed(status: int, body: string)
    | AgentEmptyResponse
    | AgentUnreachable                           // fetch raised
    | EmptyQuestion

  /** The image describer's reply: a description, a result without one, or an exception. */
  datatype DescriberReply = Description(text: string) | NoDescription | DescriberThrows

  /** The agent webhook's reply: a response (its `ok`, status and body text) or an exception. */
  datatype WebhookReply = HttpResponse(ok: bool, status: int, body: string) | FetchThrows

  /** One call to a collaborator. */
  datatype Call =
    | DescribeImage(imageDataUri: string)
    | PostWebhook(headers: map<string, string>)
    | Synthesize(request: SynthesizeRequest)

  /** An action's outcome together with the calls it made. */
  datatype Run<T> = Run(result: Result<T, ErrorKind>, calls: seq<Call>)

  datatype TravelNarrativeResult = TravelNarrativeResult(
    narrativeText: string,
    audioDataUri: string,
    locationDescription: string,
    outputLanguage: string,
    informationStyle: string,
    userId: string,
    latitude: Option<Coord>,
    longitude: Option<Coord>)

  // ---------------------------------------------------------------------
  // Location resolution (the priority choice)
  // ---------------------------------------------------------------------

  /** The input that wins the priority choice. */
  datatype LocationSource =
    | TypedQuery(query: string)
    | CurrentLocation(latitude: Coord, longitude: Coord)
    | ImageInput(imageDataUri: string)
    | NoSource

  /** First match wins: a truthy query other than the flag; the flag with two
      truthy coordinates; a truthy image; nothing. */
  function SelectSource(locationQuery: Option<string>, imageDataUri: Option<string>,
                        latitude: Option<Coord>, longitude: Option<Coord>): LocationSource
  {
    if Truthy(locationQuery) && locationQuery.value != CurrentLocationFlag then
      TypedQuery(locationQuery.value)
    else if locationQuery == Some(CurrentLocationFlag) && CoordTruthy(latitude) && CoordTruthy(longitude) then
      CurrentLocation(latitude.value, longitude.value)
    else if Truthy(imageDataUri) then
      ImageInput(imageDataUri.value)
    else
      NoSource
  }

  /** What the describer's reply makes of the image branch. */
  function DescribedLocation(reply: DescriberReply): Result<string, ErrorKind> {
    match reply
    case Description(d) => if d != "" then Success(d) else Failure(ImageDescriptionFailed)
    case NoDescription => Failure(ImageDescriptionFailed)
    case DescriberThrows => Failure(ImageServiceError)
  }

  /** Specification of the resolution step: the describer is consulted exactly
      when the image wins, and a resolved description is never empty. */
  function Resolve(locationQuery: Option<string>, imageDataUri: Option<string>,
                   latitude: Option<Coord>, longitude: Option<Coord>, describer: DescriberReply): (r: Run<string>)
    ensures r.result.Success? ==> r.result.value != ""
    ensures (r.calls != []) <==> SelectSource(locationQuery, imageDataUri, latitude, longitude).ImageInput?
  {
    match SelectSource(locationQuery, imageDataUri, latitude, longitude)
    case TypedQuery(q) => Run(Success(q), [])
    case CurrentLocation(la, lo) => Run(Success(CurrentLocationPrompt(la, lo)), [])
    case ImageInput(uri) => Run(DescribedLocation(describer), [DescribeImage(uri)])
    case NoSource => Run(Failure(NoLocationProvided), [])
  }

  /** Lines 46-83 of the action: the priority choice with its
      `identifiedLocationDescription` / `shouldUseImageFlow` locals. The final
      "could not determine" guard cannot fire: every path reaching it has set
      the description, which `identified.value` below proves. */
  method ResolveLocation(locationQuery: Option<string>, imageDataUri: Option<string>,
                         latitude: Option<Coord>, longitude: Option<Coord>, describer: DescriberReply)
    returns (description: Result<string, ErrorKind>, calls: seq<Call>)
    ensures Run(description, calls) == Resolve(locationQuery, imageDataUri, latitude, longitude, describer)
  {
    var identified: Option<string> := None;
    var shouldUseImageFlow := false;
    calls := [];
    if Truthy(locationQuery) && locationQuery.value != CurrentLocationFlag {
      identified := Some(locationQuery.value);
    } else if locationQuery == Some(CurrentLocationFlag) && CoordTruthy(latitude) && CoordTruthy(longitude) {
      identified := Some(CurrentLocationPrompt(latitude.value, longitude.value));
    } else if Truthy(imageDataUri) {
      shouldUseImageFlow := true;
    } else {
      return Failure(NoLocationProvided), [];
    }

    if shouldUseImageFlow {
      calls := [DescribeImage(imageDataUri.value)];
      match describer {
        case DescriberThrows =>
          return Failure(ImageServiceError), calls;
        case NoDescription =>
          return Failure(ImageDescriptionFailed), calls;
        case Description(d) =>
          if d == "" {
            return Failure(ImageDescriptionFailed), calls;
          }
          identified := Some(d);
      }
    }
    description := Success(identified.value);
  }

  // ---------------------------------------------------------------------
  // Agent webhook and speech
  // ---------------------------------------------------------------------

  /** Headers of the initial agent request. */
  function InitialHeaders(style: string, prompt: string, userId: string, language: string,
                          latitude: Option<Coord>, longitude: Option<Coord>): map<string, string>
  {
    map[
      "Style" := style,
      "Prompt" := prompt,
      "X-User-ID" := userId,
      "X-Output-Language" := language,
      "X-Latitude" := CoordHeader(latitude),
      "X-Longitude" := CoordHeader(longitude),
      "Follow-Up" := "false"]
  }

  /** Headers of a follow-up agent request. The narrative text is not a
      parameter: it is never sent. */
  function FollowUpHeaders(style: string, question: string, userId: string, language: string,
                           latitude: Option<Coord>, longitude: Option<Coord>, locationContext: string): map<string, string>
  {
    map[
      "Style" := style,
      "Prompt" := question,
      "X-User-ID" := userId,
      "X-Output-Language" := language,
      "X-Latitude" := CoordHeader(latitude),
      "X-Longitude" := CoordHeader(longitude),
      "Follow-Up" := "true",
      "X-Location-Context" := locationContext]
  }

  /** The agent reply as narrative text: a non-ok status, an empty body or an
      exception is an error. */
  function AgentText(reply: WebhookReply): (r: Result<string, ErrorKind>)
    ensures r.Success? <==> reply.HttpResponse? && reply.ok && reply.body != ""
    ensures r.Success? ==> r.value == reply.body
  {
    match reply
    case FetchThrows => Failure(AgentUnreachable)
    case HttpResponse(ok, status, body) =>
      if !ok then Failure(AgentRequestFailed(status, body))
      else if body == "" then Failure(AgentEmptyResponse)
      else Success(body)
  }

  /** The speech-client call recorded for a run of the speech flow, if it made one. */
  function SynthesisCalls(audio: NarrationAudio): seq<Call> {
    if audio.request.Some? then [Synthesize(audio.request.value)] else []
  }

  /** The speech step both actions end with: the speech flow runs only for a
      non-blank text, and its empty URI stands when it yields no audio. */
  method Speak(text: string, language: string, tts: SynthesisReply) returns (audioDataUri: string, speechCalls: seq<Call>)
    ensures audioDataUri == NarrationToAudio(text, language, tts).audioDataUri
    ensures speechCalls == SynthesisCalls(NarrationToAudio(text, language, tts))
  {
    audioDataUri := "";
    speechCalls := [];
    if Trim(text) != "" {
      var audioResult := NarrationToAudio(text, language, tts);
      speechCalls := SynthesisCalls(audioResult);
      if audioResult.audioDataUri != "" {
        audioDataUri := audioResult.audioDataUri;
      }
    }
  }

  // ---------------------------------------------------------------------
  // generateTravelNarrativeAction
  // ---------------------------------------------------------------------

  /** Specification of the agent step after a successful resolution (lines
      85-145): one webhook request carrying the description as its prompt,
      then the speech flow when the agent answered. */
  function AgentTurn(style: string, description: string, language: string, userId: string,
                     latitude: Option<Coord>, longitude: Option<Coord>,
                     webhook: WebhookReply, tts: SynthesisReply): (r: Run<TravelNarrativeResult>)
    ensures |r.calls| >= 1
    ensures r.calls[0] == PostWebhook(InitialHeaders(style, description, userId, language, latitude, longitude))
    ensures forall i :: 1 <= i < |r.calls| ==> r.calls[i].Synthesize?
    ensures r.result.Success? <==> AgentText(webhook).Success?
    ensures r.result.Failure? ==> r.result.error == AgentText(webhook).error && |r.calls| == 1
    ensures r.result.Success? ==>
              && r.result.value.narrativeText == AgentText(webhook).value
              && r.result.value.locationDescription == description
    ensures r.result.Success? && IsBlank(webhook.body) ==> |r.calls| == 1 && r.result.value.audioDataUri == ""
    ensures r.result.Success? && !IsBlank(webhook.body) ==>
              r.calls == [r.calls[0], Synthesize(SynthesizeRequest(webhook.body, GetVoiceSelection(language), "MP3"))]
    ensures r.result.Success? ==>
              r.result.value.audioDataUri == (if !IsBlank(webhook.body) && tts.AudioContent? then AudioUriPrefix + tts.base64 else "")
  {
    var sent := [PostWebhook(InitialHeaders(style, description, userId, language, latitude, longitude))];
    match AgentText(webhook)
    case Failure(e) => Run(Failure(e), sent)
    case Success(text) =>
      var audio := NarrationToAudio(text, language, tts);
      Run(Success(TravelNarrativeResult(text, audio.audioDataUri, description, language, style, userId, latitude, longitude)),
          sent + SynthesisCalls(audio))
  }

  /** Specification of the chain after validation (lines 42-145), given the
      value the action reads as `locationQuery`. */
  function InitialTurn(form: ParsedForm, locationQuery: Option<string>, language: string, userId: string,
                       latitude: Option<Coord>, longitude: Option<Coord>,
                       describer: DescriberReply, webhook: WebhookReply, tts: SynthesisReply): Run<TravelNarrativeResult>
  {
    if userId == "" then
      Run(Failure(MissingUserId), [])
    else
      var resolved := Resolve(locationQuery, Some(form.imageDataUri), latitude, longitude, describer);
      match resolved.result
      case Failure(e) => Run(Failure(e), resolved.calls)
      case Success(description) =>
        var turn := AgentTurn(StyleName(form.informationStyle), description, language, userId, latitude, longitude, webhook, tts);
        Run(turn.result, resolved.calls + turn.calls)
  }

  /** Specification of the whole action, given the value read as `locationQuery`. */
  function NarrativeRun(raw: RawForm, locationQuery: Option<string>, language: string, userId: string,
                        latitude: Option<Coord>, longitude: Option<Coord>,
                        describer: DescriberReply, webhook: WebhookReply, tts: SynthesisReply): Run<TravelNarrativeResult>
  {
    match Validate(raw)
    case Failure(issues) => Run(Failure(InvalidInput(issues)), [])
    case Success(form) => InitialTurn(form, locationQuery, language, userId, latitude, longitude, describer, webhook, tts)
  }

  /** Lines 42-145: user-id check, resolution, then the agent step. */
  method NarrateLocation(form: ParsedForm, locationQuery: Option<string>, language: string, userId: string,
                         latitude: Option<Coord>, longitude: Option<Coord>,
                         describer: DescriberReply, webhook: WebhookReply, tts: SynthesisReply)
    returns (result: Result<TravelNarrativeResult, ErrorKind>, calls: seq<Call>)
    ensures Run(result, calls) == InitialTurn(form, locationQuery, language, userId, latitude, longitude, describer, webhook, tts)
  {
    if userId == "" {
      return Failure(MissingUserId), [];
    }
    var resolved;
    resolved, calls := ResolveLocation(locationQuery, Some(form.imageDataUri), latitude, longitude, describer);
    if resolved.Failure? {
      return Failure(resolved.error), calls;
    }
    var agentCalls;
    result, agentCalls := CallAgent(StyleName(form.informationStyle), resolved.value, language, userId,
                                    latitude, longitude, webhook, tts);
    calls := calls + agentCalls;
  }

  /** Lines 85-145 of the action: the webhook request, its reply checks, and
      the speech step. */
  method CallAgent(informationStyle: string, identifiedLocationDescription: string, language: string, userId: string,
                   latitude: Option<Coord>, longitude: Option<Coord>, webhook: WebhookReply, tts: SynthesisReply)
    returns (result: Result<TravelNarrativeResult, ErrorKind>, calls: seq<Call>)
    ensures Run(result, calls) == AgentTurn(informationStyle, identifiedLocationDescription, language, userId,
                                            latitude, longitude, webhook, tts)
  {
    var headers := InitialHeaders(informationStyle, identifiedLocationDescription, userId, language, latitude, longitude);
    calls := [PostWebhook(headers)];
    var narrativeTextFromWebhook: string;
    match webhook {
      case FetchThrows =>
        return Failure(AgentUnreachable), calls;
      case HttpResponse(ok, status, body) =>
        if !ok {
          return Failure(AgentRequestFailed(status, body)), calls;
        }
        narrativeTextFromWebhook := body;
        if narrativeTextFromWebhook == "" {
          return Failure(AgentEmptyResponse), calls;
        }
    }

    var audioDataUriForResult, speechCalls := Speak(narrativeTextFromWebhook, language, tts);
    calls := calls + speechCalls;

    result := Success(TravelNarrativeResult(
      narrativeTextFromWebhook, audioDataUriForResult, identifiedLocationDescription,
      language, informationStyle, userId, latitude, longitude));
  }

  /** `generateTravelNarrativeAction` as written. `validation.data` holds only
      the schema's declared keys, so the `locationQuery` the action reads from
      it is always undefined. */
  method GenerateTravelNarrative(raw: RawForm, language: string, userId: string,
                                 latitude: Option<Coord>, longitude: Option<Coord>,
                                 describer: DescriberReply, webhook: WebhookReply, tts: SynthesisReply)
    returns (result: Result<TravelNarrativeResult, ErrorKind>, calls: seq<Call>)
    ensures Run(result, calls) == NarrativeRun(raw, None, language, userId, latitude, longitude, describer, webhook, tts)
  {
    var validation := Validate(raw);
    if validation.Failure? {
      return Failure(InvalidInput(validation.error)), [];
    }
    result, calls := NarrateLocation(validation.value, None, language, userId, latitude, longitude, describer, webhook, tts);
  }

  /** The action as its priority comments intend: the typed query submitted
      with the form reaches the resolver. */
  method GenerateTravelNarrativeWithQuery(raw: RawForm, language: string, userId: string,
                                          latitude: Option<Coord>, longitude: Option<Coord>,
                                          describer: DescriberReply, webhook: WebhookReply, tts: SynthesisReply)
    returns (result: Result<TravelNarrativeResult, ErrorKind>, calls: seq<Call>)
    ensures Run(result, calls) == NarrativeRun(raw, raw.locationQuery, language, userId, latitude, longitude, describer, webhook, tts)
  {
    var validation := Validate(raw);
    if validation.Failure? {
      return Failure(InvalidInput(validation.error)), [];
    }
    result, calls := NarrateLocation(validation.value, raw.locationQuery, language, userId, latitude, longitude, describer, webhook, tts);
  }

  // ---------------------------------------------------------------------
  // generateFollowUpAnswerAction
  // ---------------------------------------------------------------------

  datatype FollowUpServerInput = FollowUpServerInput(
    currentNarrativeText: string,
    locationDescription: string,
    userQuestion: string,
    language: string,
    informationStyle: string,
    userId: string,
    latitude: Option<Coord>,
    longitude: Option<Coord>)

  datatype FollowUpResult = FollowUpResult(answerText: string, answerAudioDataUri: string)

  /** Specification of the follow-up action. */
  function FollowUpRun(input: FollowUpServerInput, webhook: WebhookReply, tts: SynthesisReply): Run<FollowUpResult> {
    if Trim(input.userQuestion) == "" then
      Run(Failure(EmptyQuestion), [])
    else if input.userId == "" then
      Run(Failure(MissingUserId), [])
    else
      var sent := [PostWebhook(FollowUpHeaders(input.informationStyle, input.userQuestion, input.userId, input.language,
                                               input.latitude, input.longitude, input.locationDescription))];
      match AgentText(webhook)
      case Failure(e) => Run(Failure(e), sent)
      case Success(text) =>
        var audio := NarrationToAudio(text, input.language, tts);
        Run(Success(FollowUpResult(text, audio.audioDataUri)), sent + SynthesisCalls(audio))
  }

  /** `generateFollowUpAnswerAction`. */
  method GenerateFollowUpAnswer(input: FollowUpServerInput, webhook: WebhookReply, tts: SynthesisReply)
    returns (result: Result<FollowUpResult, ErrorKind>, calls: seq<Call>)
    ensures Run(result, calls) == FollowUpRun(input, webhook, tts)
  {
    if Trim(input.userQuestion) == "" {
      return Failure(EmptyQuestion), [];
    }
    if input.userId == "" {
      return Failure(MissingUserId), [];
    }
    var headers := FollowUpHeaders(input.informationStyle, input.userQuestion, input.userId, input.language,
                                   input.latitude, input.longitude, input.locationDescription);
    calls := [PostWebhook(headers)];
    var answerTextFromWebhook: string;
    match webhook {
      case FetchThrows =>
        return Failure(AgentUnreachable), calls;
      case HttpResponse(ok, status, body) =>
        if !ok {
          return Failure(AgentRequestFailed(status, body)), calls;
        }
        answerTextFromWebhook := body;
        if answerTextFromWebhook == "" {
          return Failure(AgentEmptyResponse), calls;
        }
    }

    var audioDataUriForResult, speechCalls := Speak(answerTextFromWebhook, input.language, tts);
    calls := calls + speechCalls;
    result := Success(FollowUpResult(answerTextFromWebhook, audioDataUriForResult));
  }

  // ---------------------------------------------------------------------
  // What the initial action promises
  // ---------------------------------------------------------------------

  /** A form that fails validation is reported before anything else runs. */
  lemma InvalidFormRejectedFirst(raw: RawForm, locationQuery: Option<string>, language: string, userId: string,
                                 latitude: Option<Coord>, longitude: Option<Coord>,
                                 describer: DescriberReply, webhook: WebhookReply, tts: SynthesisReply)
    requires Validate(raw).Failure?
    ensures NarrativeRun(raw, locationQuery, language, userId, latitude, longitude, describer, webhook, tts)
            == Run(Failure(InvalidInput(Validate(raw).error)), [])
  {
  }

  /** A valid form with an empty user id fails before any collaborator is called. */
  lemma MissingUserIdBeforeAnyCall(raw: RawForm, locationQuery: Option<string>, language: string,
                                   latitude: Option<Coord>, longitude: Option<Coord>,
                                   describer: DescriberReply, webhook: WebhookReply, tts: SynthesisReply)
    requires Validate(raw).Success?
    ensures NarrativeRun(raw, locationQuery, language, "", latitude, longitude, describer, webhook, tts)
            == Run(Failure(MissingUserId), [])
  {
  }

  /** A truthy query other than the flag is the description verbatim and the
      prompt of the one agent request, even though a valid form always
      carries an image too; the describer is never called. */
  lemma TypedQueryIsDescription(raw: RawForm, locationQuery: Option<string>, language: string, userId: string,
                                latitude: Option<Coord>, longitude: Option<Coord>,
                                describer: DescriberReply, webhook: WebhookReply, tts: SynthesisReply)
    requires Validate(raw).Success? && userId != ""
    requires Truthy(locationQuery) && locationQuery.value != CurrentLocationFlag
    ensures var run := NarrativeRun(raw, locationQuery, language, userId, latitude, longitude, describer, webhook, tts);
            && |run.calls| >= 1
            && run.calls[0] == PostWebhook(InitialHeaders(raw.informationStyle.value, locationQuery.value, userId, language, latitude, longitude))
            && (forall c :: c in run.calls ==> !c.DescribeImage?)
            && (run.result.Success? ==> run.result.value.locationDescription == locationQuery.value)
  {
    var form := Validate(raw).value;
    assert StyleName(form.informationStyle) == raw.informationStyle.value;
  }

  /** The flag with two truthy coordinates becomes the synthesized prompt. */
  lemma CurrentLocationPrompted(raw: RawForm, language: string, userId: string,
                                latitude: Option<Coord>, longitude: Option<Coord>,
                                describer: DescriberReply, webhook: WebhookReply, tts: SynthesisReply)
    requires Validate(raw).Success? && userId != ""
    requires CoordTruthy(latitude) && CoordTruthy(longitude)
    ensures var run := NarrativeRun(raw, Some(CurrentLocationFlag), language, userId, latitude, longitude, describer, webhook, tts);
            var prompt := CurrentLocationPrompt(latitude.value, longitude.value);
            && |run.calls| >= 1
            && run.calls[0] == PostWebhook(InitialHeaders(raw.informationStyle.value, prompt, userId, language, latitude, longitude))
            && (forall c :: c in run.calls ==> !c.DescribeImage?)
            && (run.result.Success? ==> run.result.value.locationDescription == prompt)
  {
    var form := Validate(raw).value;
    assert StyleName(form.informationStyle) == raw.informationStyle.value;
  }

  /** The flag with a missing or zero coordinate falls through to the image:
      the describer is the first call, and a failed description ends the run
      there. */
  lemma ZeroCoordinateFallsThroughToImage(raw: RawForm, language: string, userId: string,
                                          latitude: Option<Coord>, longitude: Option<Coord>,
                                          describer: DescriberReply, webhook: WebhookReply, tts: SynthesisReply)
    requires Validate(raw).Success? && userId != ""
    requires !CoordTruthy(latitude) || !CoordTruthy(longitude)
    ensures var run := NarrativeRun(raw, Some(CurrentLocationFlag), language, userId, latitude, longitude, describer, webhook, tts);
            && |run.calls| >= 1
            && run.calls[0] == DescribeImage(raw.imageDataUri.value)
            && (DescribedLocation(describer).Failure? ==>
                  run == Run(Failure(DescribedLocation(describer).error), [DescribeImage(raw.imageDataUri.value)]))
  {
  }

  /** The image is described only when neither higher source applies; an
      empty or missing description is an error. */
  lemma ImageOnlyAsLastResort(locationQuery: Option<string>, imageDataUri: Option<string>,
                              latitude: Option<Coord>, longitude: Option<Coord>, describer: DescriberReply)
    ensures var r := Resolve(locationQuery, imageDataUri, latitude, longitude, describer);
            (r.calls != []) <==>
              && !(Truthy(locationQuery) && locationQuery.value != CurrentLocationFlag)
              && !(locationQuery == Some(CurrentLocationFlag) && CoordTruthy(latitude) && CoordTruthy(longitude))
              && Truthy(imageDataUri)
    ensures var r := Resolve(locationQuery, imageDataUri, latitude, longitude, describer);
            r.calls != [] ==>
              && r.calls == [DescribeImage(imageDataUri.value)]
              && (r.result.Success? <==> describer.Description? && describer.text != "")
              && (r.result.Success? ==> r.result.value == describer.text)
              && (describer.NoDescription? || describer == Description("") ==>
                    r.result == Failure(ImageDescriptionFailed))
              && (describer.DescriberThrows? ==> r.result == Failure(ImageServiceError))
  {
  }

  /** With no source at all the resolver fails without calling anything. */
  lemma NoSourceNoCalls(locationQuery: Option<string>, imageDataUri: Option<string>,
                        latitude: Option<Coord>, longitude: Option<Coord>, describer: DescriberReply)
    requires !Truthy(locationQuery) && !Truthy(imageDataUri)
    ensures Resolve(locationQuery, imageDataUri, latitude, longitude, describer) == Run(Failure(NoLocationProvided), [])
  {
  }

  /** The schema demands an image, so behind a successful validation the
      "no location" error of the resolver is never reached. */
  lemma ValidFormAlwaysHasSource(raw: RawForm, locationQuery: Option<string>,
                                 latitude: Option<Coord>, longitude: Option<Coord>)
    requires Validate(raw).Success?
    ensures SelectSource(locationQuery, Some(Validate(raw).value.imageDataUri), latitude, longitude) != NoSource
  {
  }

  /** The one agent request follows the resolver's calls and carries the
      resolved description as its prompt. */
  lemma InitialRequestSent(raw: RawForm, locationQuery: Option<string>, language: string, userId: string,
                           latitude: Option<Coord>, longitude: Option<Coord>,
                           describer: DescriberReply, webhook: WebhookReply, tts: SynthesisReply)
    requires Validate(raw).Success? && userId != ""
    requires Resolve(locationQuery, Some(raw.imageDataUri.value), latitude, longitude, describer).result.Success?
    ensures var resolved := Resolve(locationQuery, Some(raw.imageDataUri.value), latitude, longitude, describer);
            var run := NarrativeRun(raw, locationQuery, language, userId, latitude, longitude, describer, webhook, tts);
            && |run.calls| > |resolved.calls|
            && run.calls[..|resolved.calls|] == resolved.calls
            && run.calls[|resolved.calls|]
               == PostWebhook(InitialHeaders(raw.informationStyle.value, resolved.result.value, userId, language, latitude, longitude))
  {
    var form := Validate(raw).value;
    assert StyleName(form.informationStyle) == raw.informationStyle.value;
  }

  /** The initial headers: the prompt, "false" as `Follow-Up`, and the
      coordinates as sent: "" when absent, the rendering when present, zero
      included. */
  lemma InitialHeadersContent(style: string, prompt: string, userId: string, language: string,
                              latitude: Option<Coord>, longitude: Option<Coord>)
    ensures var h := InitialHeaders(style, prompt, userId, language, latitude, longitude);
            && h.Keys == {"Style", "Prompt", "X-User-ID", "X-Output-Language", "X-Latitude", "X-Longitude", "Follow-Up"}
            && h["Prompt"] == prompt && h["Style"] == style && h["X-User-ID"] == userId
            && h["X-Output-Language"] == language && h["Follow-Up"] == "false"
            && (latitude.None? ==> h["X-Latitude"] == "") && (longitude.None? ==> h["X-Longitude"] == "")
            && (latitude.Some? ==> h["X-Latitude"] == latitude.value.shown)
            && (longitude.Some? ==> h["X-Longitude"] == longitude.value.shown)
  {
  }

  /** A failed agent request is the action's error, and speech is not attempted. */
  lemma AgentFailureSkipsSpeech(raw: RawForm, locationQuery: Option<string>, language: string, userId: string,
                                latitude: Option<Coord>, longitude: Option<Coord>,
                                describer: DescriberReply, webhook: WebhookReply, tts: SynthesisReply)
    requires Validate(raw).Success? && userId != ""
    requires Resolve(locationQuery, Some(raw.imageDataUri.value), latitude, longitude, describer).result.Success?
    requires AgentText(webhook).Failure?
    ensures var resolved := Resolve(locationQuery, Some(raw.imageDataUri.value), latitude, longitude, describer);
            var run := NarrativeRun(raw, locationQuery, language, userId, latitude, longitude, describer, webhook, tts);
            && run.result == Failure(AgentText(webhook).error)
            && |run.calls| == |resolved.calls| + 1
            && (forall c :: c in run.calls ==> !c.Synthesize?)
  {
  }

  /** A successful run echoes its inputs, and speech failure is absorbed: the
      narrative is still returned, with an empty audio URI; otherwise the URI
      is an MP3 data URI. */
  lemma SuccessEchoesInputs(raw: RawForm, locationQuery: Option<string>, language: string, userId: string,
                            latitude: Option<Coord>, longitude: Option<Coord>,
                            describer: DescriberReply, webhook: WebhookReply, tts: SynthesisReply)
    requires Validate(raw).Success? && userId != ""
    requires Resolve(locationQuery, Some(raw.imageDataUri.value), latitude, longitude, describer).result.Success?
    requires AgentText(webhook).Success?
    ensures var run := NarrativeRun(raw, locationQuery, language, userId, latitude, longitude, describer, webhook, tts);
            && run.result.Success?
            && var v := run.result.value;
               && v.narrativeText == webhook.body
               && v.locationDescription == Resolve(locationQuery, Some(raw.imageDataUri.value), latitude, longitude, describer).result.value
               && v.outputLanguage == language
               && v.informationStyle == raw.informationStyle.value
               && v.userId == userId
               && v.latitude == latitude && v.longitude == longitude
               && (!tts.AudioContent? ==> v.audioDataUri == "")
               && (v.audioDataUri != "" ==> StartsWith(v.audioDataUri, AudioUriPrefix))
               && (IsBlank(webhook.body) ==> forall c :: c in run.calls ==> !c.Synthesize?)
  {
  }

  /** A successful run whose narrative is not blank makes the resolver's
      calls, the webhook request and then exactly one speech request, for the
      narrative in the voice of the output language, and carries the returned
      audio as an MP3 data URI. */
  lemma SuccessSpeaksOnce(raw: RawForm, locationQuery: Option<string>, language: string, userId: string,
                          latitude: Option<Coord>, longitude: Option<Coord>,
                          describer: DescriberReply, webhook: WebhookReply, tts: SynthesisReply)
    requires Validate(raw).Success? && userId != ""
    requires Resolve(locationQuery, Some(raw.imageDataUri.value), latitude, longitude, describer).result.Success?
    requires AgentText(webhook).Success? && !IsBlank(webhook.body)
    ensures var run := NarrativeRun(raw, locationQuery, language, userId, latitude, longitude, describer, webhook, tts);
            var resolved := Resolve(locationQuery, Some(raw.imageDataUri.value), latitude, longitude, describer);
            && run.result.Success?
            && |run.calls| == |resolved.calls| + 2
            && run.calls[..|resolved.calls|] == resolved.calls
            && run.calls[|resolved.calls|].PostWebhook?
            && run.calls[|resolved.calls| + 1] == Synthesize(SynthesizeRequest(webhook.body, GetVoiceSelection(language), "MP3"))
            && run.result.value.audioDataUri == (if tts.AudioContent? then AudioUriPrefix + tts.base64 else "")
  {
    var form := Validate(raw).value;
    var resolved := Resolve(locationQuery, Some(raw.imageDataUri.value), latitude, longitude, describer);
    var turn := AgentTurn(StyleName(form.informationStyle), resolved.result.value, language, userId,
                          latitude, longitude, webhook, tts);
    assert NarrativeRun(raw, locationQuery, language, userId, latitude, longitude, describer, webhook, tts)
           == Run(turn.result, resolved.calls + turn.calls);
  }

  /** With the query read as written (always undefined), a form carrying both
      a typed place and an image is narrated from the image; the corrected
      reading narrates the typed place. */
  lemma TypedQueryDiscardedAsWritten()
    ensures var raw := RawForm(Some("data:image/jpeg;base64,AAAA"), Some("Eiffel Tower"), Some("Curious"));
            var asWritten := NarrativeRun(raw, None, "en", "u1", None, None, Description("A riverside street"),
                                          HttpResponse(true, 200, "Once upon a time"), NoAudioContent);
            var corrected := NarrativeRun(raw, raw.locationQuery, "en", "u1", None, None, Description("A riverside street"),
                                          HttpResponse(true, 200, "Once upon a time"), NoAudioContent);
            && asWritten.calls[0] == DescribeImage("data:image/jpeg;base64,AAAA")
            && asWritten.result.Success? && asWritten.result.value.locationDescription == "A riverside street"
            && corrected.result.Success? && corrected.result.value.locationDescription == "Eiffel Tower"
  {
    var image := "data:image/jpeg;base64,AAAA";
    var raw := RawForm(Some(image), Some("Eiffel Tower"), Some("Curious"));
    var describer := Description("A riverside street");
    var webhook := HttpResponse(true, 200, "Once upon a time");
    assert StartsWith(image, ImagePrefix);
    assert Validate(raw).Success?;
    var form := Validate(raw).value;
    assert Resolve(None, Some(image), None, None, describer) == Run(Success("A riverside street"), [DescribeImage(image)]);
    assert Resolve(raw.locationQuery, Some(image), None, None, describer) == Run(Success("Eiffel Tower"), []);
    SuccessEchoesInputs(raw, None, "en", "u1", None, None, describer, webhook, NoAudioContent);
    SuccessEchoesInputs(raw, raw.locationQuery, "en", "u1", None, None, describer, webhook, NoAudioContent);
  }

  // ---------------------------------------------------------------------
  // What the follow-up action promises
  // ---------------------------------------------------------------------

  /** A blank question fails first, before the user-id check and any request. */
  lemma BlankQuestionRejectedFirst(input: FollowUpServerInput, webhook: WebhookReply, tts: SynthesisReply)
    requires IsBlank(input.userQuestion)
    ensures FollowUpRun(input, webhook, tts) == Run(Failure(EmptyQuestion), [])
  {
  }

  lemma FollowUpMissingUserId(input: FollowUpServerInput, webhook: WebhookReply, tts: SynthesisReply)
    requires !IsBlank(input.userQuestion) && input.userId == ""
    ensures FollowUpRun(input, webhook, tts) == Run(Failure(MissingUserId), [])
  {
  }

  /** The follow-up request carries the question (as given, untrimmed) as
      `Prompt`, "true" as `Follow-Up` and the location description as
      context, and no narrative header; a failed request skips speech. */
  lemma FollowUpRequestHeaders(input: FollowUpServerInput, webhook: WebhookReply, tts: SynthesisReply)
    requires !IsBlank(input.userQuestion) && input.userId != ""
    ensures var run := FollowUpRun(input, webhook, tts);
            && |run.calls| >= 1 && run.calls[0].PostWebhook?
            && var h := run.calls[0].headers;
               && h["Prompt"] == input.userQuestion
               && h["Follow-Up"] == "true"
               && h["X-Location-Context"] == input.locationDescription
               && h["Style"] == input.informationStyle
               && "X-Current-Narrative" !in h
               && (AgentText(webhook).Failure? ==> run == Run(Failure(AgentText(webhook).error), [run.calls[0]]))
  {
  }

  /** The narrative text in the input influences nothing. */
  lemma NarrativeTextNeverSent(input: FollowUpServerInput, other: string, webhook: WebhookReply, tts: SynthesisReply)
    ensures FollowUpRun(input, webhook, tts) == FollowUpRun(input.(currentNarrativeText := other), webhook, tts)
  {
  }

  /** An answered follow-up with a non-blank answer makes exactly one speech
      request after the webhook, for the answer in the voice of the input's
      language, and returns the audio as an MP3 data URI; a blank answer is
      returned without speech. */
  lemma FollowUpSpeaksOnce(input: FollowUpServerInput, webhook: WebhookReply, tts: SynthesisReply)
    requires !IsBlank(input.userQuestion) && input.userId != ""
    requires AgentText(webhook).Success?
    ensures var run := FollowUpRun(input, webhook, tts);
            && run.result.Success?
            && run.result.value.answerText == webhook.body
            && (IsBlank(webhook.body) ==> |run.calls| == 1 && run.result.value.answerAudioDataUri == "")
            && (!IsBlank(webhook.body) ==>
                  && |run.calls| == 2
                  && run.calls[1] == Synthesize(SynthesizeRequest(webhook.body, GetVoiceSelection(input.language), "MP3"))
                  && run.result.value.answerAudioDataUri == (if tts.AudioContent? then AudioUriPrefix + tts.base64 else ""))
  {
  }

  /** A follow-up whose speech fails still returns the answer, with an empty audio URI. */
  lemma FollowUpSpeechFailureAbsorbed(input: FollowUpServerInput, webhook: WebhookReply, tts: SynthesisReply)
    requires !IsBlank(input.userQuestion) && input.userId != ""
    requires AgentText(webhook).Success? && !tts.AudioContent?
    ensures FollowUpRun(input, webhook, tts).result == Success(FollowUpResult(webhook.body, ""))
  {
  }
}
