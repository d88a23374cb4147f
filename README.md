# Travel narrator: a verified model

This project models the core of a travel-narration web application. A user
picks a location in one of three ways: typing a place, asking for their
current location, or giving a photo. A server action resolves that input to
a location description and sends it to a narrative agent over a webhook. The
agent's text is then turned into speech. The user can ask follow-up
questions in a chat view whose AI messages are typed out one character at a
time.

Modules, following the program's structure:

- `Prelude` (`prelude.dfy`): `Option`, `Result`, JavaScript truthiness, `startsWith`, and ECMAScript `trim`.
- `Validators` (`validators.dfy`): the form schema `narratorFormSchema`, as a parse that keeps only the declared keys.
- `Narration` (`narration.dfy`): the speech flow `narrationToAudio` and its voice table `getVoiceSelection`.
- `Actions` (`actions.dfy`): the two server actions, each an imperative method proved equal to a specification function that the lemmas reason about:
  - `generateTravelNarrativeAction`, with its location priority choice;
  - `generateFollowUpAnswerAction`.
- `Places` (`places.dfy`): the post-processing of the two Maps helpers in the same source file.
- `Display` (`narrative_display.dfy`): the conversation view, modelled as a class.
  - The typing reveal is a pure step function `RevealTick`. The class's `Tick` method is proved to perform exactly that step.
- `Form` (`narrator_form.dfy`): the narrator form, modelled as a class. Its handlers keep the invariant "never a typed query and an image at once".
- `Home` (`home.dfy`): the page's form/chat mode machine, modelled as a class.

Collaborators are oracles. The image describer, the agent webhook, the
speech service and the Maps client enter as reply values. Each action returns
the log of calls it made, so "no collaborator was called" is stated as
`calls == []`.

Three facts about the wiring shape the model:

- The page passes `onExploreNewLocation` to the conversation view
  (src/app/page.tsx:128), but the view never reads that prop
  (src/components/app/NarrativeDisplay.tsx:40-49). So the "explore new
  location" transition `Home.HomePage.ExploreNewLocation` exists in the page
  but nothing in the modelled user interface triggers it.
- The typed-query branch of the location choice is unreachable from the
  form, for two reasons.
  - The schema strips `locationQuery`, so the action reads it as undefined (Finding 1 below).
  - A valid form always carries an image, and the form's handlers never leave a typed query beside an image (`Form.SubmittableFormHasNoQuery`).
- The form submits without a user id, so every submission from the user
  interface ends in the missing-user-id error (Finding 2 below).

## Model

| member | source | states |
|---|---|---|
| Prelude.TrimStart | src/app/actions.ts:181 | the result is a suffix of the input, whose dropped prefix is all whitespace, and which does not start with whitespace |
| Prelude.TrimEnd | src/app/actions.ts:181 | the result is a prefix of the input, whose dropped suffix is all whitespace, and which does not end with whitespace |
| Prelude.Trim | src/app/actions.ts:181 | `trim()` is empty exactly when the string is all ECMAScript whitespace; otherwise it neither starts nor ends with whitespace |
| Prelude.TrimIdempotent | src/components/app/NarrativeDisplay.tsx:163-168 | trimming twice equals trimming once, so the transcript trimmed by `onresult` and again by the submit handler is trimmed once |
| Validators.ParseStyle | src/lib/validators.ts:9-11 | a style is accepted exactly when it is Historical, Curious or Legends, and it parses back to the same name |
| Validators.Validate | src/lib/validators.ts:4-12 | parsing succeeds exactly when the image starts with "data:image/" and the style is in the enumeration; on success the output keeps only those two keys; on failure each field's error is reported, a missing field as required |
| Validators.BarePrefixAccepted | src/lib/validators.ts:5-8 | "data:image/" with nothing after it passes the refinement |
| Narration.BeforeFirstDash | src/ai/flows/narration-to-audio.ts:33 | `split('-')[0]` is the longest prefix free of '-', followed by a '-' when shorter than the input |
| Narration.ToLower | src/ai/flows/narration-to-audio.ts:33 | the result has the input's length and no capital A-Z; every character that is not a capital is kept, and every capital is replaced by its lower case |
| Narration.ToLowerKeepsLower | src/ai/flows/narration-to-audio.ts:33 | a code without capitals is left as it is |
| Narration.ToLowerIdempotent | src/ai/flows/narration-to-audio.ts:33 | lower-casing an already lower-cased code changes nothing |
| Narration.GetVoiceSelection | src/ai/flows/narration-to-audio.ts:32-48 | a named voice exactly for base "en", "es" or "fr": en-US-Standard-C under en-US, es-ES-Standard-A under es-ES, fr-FR-Standard-A under fr-FR; for any other base the original, un-normalised code with a female voice |
| Narration.RegionIgnored | src/ai/flows/narration-to-audio.ts:33 | a region suffix after the first dash does not change the base language |
| Narration.NoDashIsWhole | src/ai/flows/narration-to-audio.ts:33 | a code without a dash is its own base |
| Narration.SameDashPosition | src/ai/flows/narration-to-audio.ts:33 | codes equal up to letter case have their first dash at the same place |
| Narration.CaseIgnored | src/ai/flows/narration-to-audio.ts:33-41 | codes that differ only in letter case select the same table voice |
| Narration.EnglishVariants | src/ai/flows/narration-to-audio.ts:33-37 | "en" selects en-US-Standard-C, and "EN" and "en-GB" select the same voice |
| Narration.NarrationToAudio | src/ai/flows/narration-to-audio.ts:56-89 | blank text yields "" with no request; otherwise one MP3 request with the selected voice; the URI is non-empty exactly when audio came back, and it is then "data:audio/mp3;base64," followed by the audio |
| Actions.CurrentLocationPrompt | src/app/actions.ts:56 | the synthesized current-location prompt is never empty |
| Actions.Resolve | src/app/actions.ts:46-83 | a resolved description is never empty; the describer is called exactly when the image wins the priority choice |
| Actions.ResolveLocation | src/app/actions.ts:46-83 | the step-by-step resolution, with its `shouldUseImageFlow` flag and its unreachable final guard, equals `Resolve` |
| Actions.AgentText | src/app/actions.ts:99-116 | the agent's reply is a narrative exactly when the response is ok and its body is non-empty, and the narrative is then the body verbatim |
| Actions.Speak | src/app/actions.ts:118-133 | the speech step calls the flow only for non-blank text and keeps "" when the flow yields no audio |
| Actions.AgentTurn | src/app/actions.ts:85-145 | one webhook request with the description as prompt, then only speech calls; it fails exactly when the agent reply is unusable, and then makes that one call only; on success it returns the agent's text and the description. A non-blank text is followed by exactly one MP3 speech request for that text in the language's voice, and the audio URI is the MP3 prefix plus the returned base64, or empty without audio; a blank text makes no speech request and has an empty URI |
| Actions.CallAgent | src/app/actions.ts:85-145 | the imperative webhook-and-speech code equals `AgentTurn` |
| Actions.NarrateLocation | src/app/actions.ts:42-145 | the imperative user-id check, resolution and agent step equal `InitialTurn` |
| Actions.GenerateTravelNarrative | src/app/actions.ts:26-46 | the action as written equals `NarrativeRun` with the query read as undefined |
| Actions.GenerateTravelNarrativeWithQuery | src/app/actions.ts:46-53 | the corrected action, which reads the submitted query, equals `NarrativeRun` with that query |
| Actions.GenerateFollowUpAnswer | src/app/actions.ts:177-244 | the imperative follow-up action equals `FollowUpRun`, whose checks, request and speech step are stated by the lemmas below |
| Actions.InvalidFormRejectedFirst | src/app/actions.ts:34-40 | a form that fails validation returns the validation error with no call made |
| Actions.MissingUserIdBeforeAnyCall | src/app/actions.ts:42-44 | a valid form with an empty user id fails before any collaborator is called |
| Actions.TypedQueryIsDescription | src/app/actions.ts:51-53 | a truthy query other than the flag is the prompt of the first call and the reported description, even though an image is present; the describer is never called |
| Actions.CurrentLocationPrompted | src/app/actions.ts:54-56 | the flag with two truthy coordinates makes the synthesized prompt the first call's prompt and the reported description; the describer is never called |
| Actions.ZeroCoordinateFallsThroughToImage | src/app/actions.ts:54-78 | the flag with a missing or zero coordinate falls through to the image: the describer is called first, and its failure ends the run there |
| Actions.ImageOnlyAsLastResort | src/app/actions.ts:57-78 | the describer is called if and only if neither higher source applies and an image is present; the image description succeeds exactly when it is non-empty, and then the description is the describer's text; a missing or empty description is ImageDescriptionFailed and a describer exception is ImageServiceError |
| Actions.NoSourceNoCalls | src/app/actions.ts:60-63 | with no query and no image, resolution fails with no call made |
| Actions.ValidFormAlwaysHasSource | src/app/actions.ts:57-63 | behind a successful validation, the "no location" branch is never taken |
| Actions.InitialRequestSent | src/app/actions.ts:85-102 | after the resolver's calls comes exactly the one webhook request, whose prompt is the resolved description |
| Actions.InitialHeadersContent | src/app/actions.ts:89-97 | the initial headers have exactly seven keys; `Prompt` is the description; `Follow-Up` is "false"; a missing coordinate is sent as "" |
| Actions.AgentFailureSkipsSpeech | src/app/actions.ts:104-116 | a non-ok, empty or failed agent reply is the action's error, and speech is not attempted |
| Actions.SuccessSpeaksOnce | src/app/actions.ts:118-145 | a successful run with a non-blank narrative makes the resolver's calls, then the webhook request, then exactly one speech request, for the narrative in the output language's voice; the audio URI is the MP3 prefix plus the returned base64, or empty without audio |
| Actions.SuccessEchoesInputs | src/app/actions.ts:118-145 | a successful run returns the agent text and echoes description, language, style, user id and coordinates; missing audio leaves the URI empty; blank text makes no speech call |
| Actions.TypedQueryDiscardedAsWritten | src/app/actions.ts:46-53 | for a form with both a typed place and an image, the action as written narrates the image description; the corrected reading narrates the typed place |
| Actions.BlankQuestionRejectedFirst | src/app/actions.ts:181-183 | a blank question fails before the user-id check, with no call made |
| Actions.FollowUpMissingUserId | src/app/actions.ts:184-186 | a non-blank question with an empty user id fails with no call made |
| Actions.FollowUpRequestHeaders | src/app/actions.ts:190-212 | the follow-up request has the untrimmed question as `Prompt`, "true" as `Follow-Up` and the description as `X-Location-Context`, and no narrative header; a failed reply ends the run after that one call |
| Actions.NarrativeTextNeverSent | src/app/actions.ts:198 | the narrative text in the input influences neither the result nor the calls |
| Actions.FollowUpSpeaksOnce | src/app/actions.ts:223-244 | an answered follow-up returns the answer; a non-blank answer is followed by exactly one MP3 speech request for it in the input language's voice, and the audio URI is the MP3 prefix plus the returned base64, or empty without audio; a blank answer makes no speech request |
| Actions.FollowUpSpeechFailureAbsorbed | src/app/actions.ts:223-244 | when speech yields no audio, the answer is still returned, with an empty audio URI |
| Places.FromPredictionsAppend | src/app/actions.ts:283-286 | the mapping of predictions to suggestions splits over concatenation, so the client's order is kept |
| Places.Autocomplete | src/app/actions.ts:261-301 | a missing key fails first; a query that is empty or shorter than two characters once trimmed returns [] with no request; otherwise one request carries the untrimmed query; OK maps the predictions; ZERO_RESULTS returns []; any other status fails with that status; an exception from the client is ServiceUnreachable |
| Places.PaddedSingleCharacterNotSent | src/app/actions.ts:268-270 | a single visible character padded with spaces is too short, so no request is made |
| Places.Named | src/app/actions.ts:336 | the filter keeps exactly the results with a truthy name and place id |
| Places.NamedAppend | src/app/actions.ts:336 | filtering a concatenation concatenates the filtered parts, so the original order is kept |
| Places.NamedKeepsComplete | src/app/actions.ts:336 | a list of complete results passes the filter unchanged |
| Places.NearbySuggestions | src/app/actions.ts:335-341 | at most five complete results, the first five of the filtered list, each with a non-empty name and place id |
| Places.LaterResultsIgnored | src/app/actions.ts:337 | once five complete results are present, appended results change nothing |
| Places.IncompleteSkipped | src/app/actions.ts:336 | a result missing its name or place id takes no slot |
| Places.NearbyTouristSpots | src/app/actions.ts:304-357 | a missing key fails before any request; a present key sends one request with radius 2000, the six types and prominence ranking; success exactly for OK or ZERO_RESULTS, with at most five results; OK gives the post-processed results and ZERO_RESULTS gives []; any other status fails with that status, and an exception from the client is ServiceUnreachable |
| Display.FindAi | src/components/app/NarrativeDisplay.tsx:75 | the found message is an AI message of the log with that id; none is found only when no such message exists |
| Display.FindAiAppend | src/components/app/NarrativeDisplay.tsx:242 | appending to the log never changes what an id already finds |
| Display.InitialContext | src/components/app/NarrativeDisplay.tsx:246-247 | the context is the text of the first "ai-initial" message in the log when one exists, and the narrative prop otherwise |
| Display.InitialContextAppend | src/components/app/NarrativeDisplay.tsx:242-247 | follow-up turns never change the context that later questions are sent with |
| Display.RevealTick | src/components/app/NarrativeDisplay.tsx:72-116 | one typing tick keeps every displayed text a prefix of its AI message's text |
| Display.TickAppendsNextCharacter | src/components/app/NarrativeDisplay.tsx:87-113 | a tick appends if and only if the active message has characters left to show; it then adds exactly the next character, and clears the active id once the text is complete |
| Display.TickWithoutAppendStops | src/components/app/NarrativeDisplay.tsx:73-92 | with no active id, a missing or empty message, or a fully shown one, a tick only clears the active id |
| Display.TickLeavesOthers | src/components/app/NarrativeDisplay.tsx:95-98 | a tick never touches another message's displayed text |
| Display.RevealTicks | src/components/app/NarrativeDisplay.tsx:94-116 | any number of ticks keeps the reveal consistent with the log |
| Display.RevealFinishes | src/components/app/NarrativeDisplay.tsx:94-116 | a message being typed is fully shown, and typing stops, after exactly as many ticks as it has characters left |
| Display.NarrativeRevealedInFull | src/components/app/NarrativeDisplay.tsx:128-140 | a non-blank initial narrative is fully shown after as many ticks as it has characters, and the active id is then cleared |
| Display.BubbleIsPrefix | src/components/app/NarrativeDisplay.tsx:351-353 | a bubble always shows a prefix of its message's text |
| Display.InitialAudioShown | src/components/app/NarrativeDisplay.tsx:306 | right after the reset, the initial-audio player shows exactly when the narrative came with audio |
| Display.InitialAudioKept | src/components/app/NarrativeDisplay.tsx:306 | follow-up turns never show or hide the initial-audio player |
| Display.AudioAfterTyping | src/components/app/NarrativeDisplay.tsx:357 | a message's player is hidden while the message is typing; once typing ends it shows exactly when the message has audio and non-blank text |
| Display.AppendKeepsReveal | src/components/app/NarrativeDisplay.tsx:242 | appending a message keeps the reveal consistent |
| Display.NarrativeDisplay.constructor | src/components/app/NarrativeDisplay.tsx:58-191 | mounting sets up the recognizer, or records it as unavailable; it inserts the one initial message for a non-empty narrative and starts typing only for a non-blank one |
| Display.NarrativeDisplay.OnNarrative | src/components/app/NarrativeDisplay.tsx:121-143 | the effect runs only when the narrative text changes; the new narrative clears the log and the reveal, inserts one "ai-initial" message if the text is non-empty, and starts typing only if it is not blank |
| Display.NarrativeDisplay.Tick | src/components/app/NarrativeDisplay.tsx:72-116 | the interval body performs exactly `RevealTick`, and it scrolls exactly when a character was added and the scroll predicate holds |
| Display.NarrativeDisplay.SubmitFollowUp | src/components/app/NarrativeDisplay.tsx:221-259 | a blank question or a missing user id only raises a toast; otherwise the trimmed question is appended as a user message, the input is cleared, and the action input carries the context read from the log before the append |
| Display.NarrativeDisplay.StartFollowUp | src/components/app/NarrativeDisplay.tsx:232-259 | the accepted path appends the user message, sets the generating flag, clears the input and builds the action input |
| Display.NarrativeDisplay.CompleteFollowUp | src/components/app/NarrativeDisplay.tsx:261-280 | the generating flag is cleared; an error only raises a toast; an answer is appended as one AI message, typed out only if it is not blank |
| Display.NarrativeDisplay.ToggleRecording | src/components/app/NarrativeDisplay.tsx:195-219 | with no recognizer only a toast appears; while recording it stops; when idle it clears the error and the transcript, then starts, or ends up not recording with a toast if start throws |
| Display.NarrativeDisplay.OnRecognitionResult | src/components/app/NarrativeDisplay.tsx:163-168 | recording stops; a request is made if and only if the transcript is not blank and a user id exists. A blank transcript leaves the input empty and changes nothing else. A non-blank one without a user id leaves the trimmed transcript in the input and raises the missing-user-id toast. A submitted one appends the user message, clears the input, sets the generating flag, and sends the full follow-up input: the first initial message's text as context, the location, the trimmed transcript, language, style, user id and coordinates |
| Display.NarrativeDisplay.OnRecognitionError | src/components/app/NarrativeDisplay.tsx:170-180 | "not-allowed" and "service-not-allowed" record the permission error; other errors only raise a toast; either way recording stops |
| Display.NarrativeDisplay.OnRecognitionEnd | src/components/app/NarrativeDisplay.tsx:182-184 | the end of recognition stops recording |
| Display.NarrativeDisplay.EditQuestion | src/components/app/NarrativeDisplay.tsx:398 | typing replaces the question text |
| Display.NarrativeDisplay.PressEnter | src/components/app/NarrativeDisplay.tsx:399-404 | Enter submits if and only if shift is up, the view is idle and not recording, the question is not blank, and a user id exists. An Enter that does not qualify changes nothing, and one without a user id only raises the missing-user-id toast. A submission appends the user message, clears the input, sets the generating flag, and sends the full follow-up input with the trimmed question |
| Display.NarrativeDisplay.ClickSend | src/components/app/NarrativeDisplay.tsx:418-421 | the send button submits if and only if it is enabled, and then always makes a request; a disabled click changes nothing. A submission appends the user message, clears the input, sets the generating flag, and sends the full follow-up input with the trimmed question |
| Form.SubmissionNotifications | src/components/app/NarratorForm.tsx:153-167 | an invalid form notifies nothing; a valid one notifies start and then exactly one outcome; an exception during submission is the fixed error |
| Form.SubmittedWithoutUserIdFails | src/components/app/NarratorForm.tsx:158 | as wired, a valid submission always ends in the missing-user-id error, with no collaborator called and no completion |
| Form.SubmittedWithUserIdCompletes | src/components/app/NarratorForm.tsx:153-167 | with a user id, a recognised image and an answering agent, the submission completes with the agent's narrative and the image description |
| Form.SubmittableFormHasNoQuery | src/components/app/NarratorForm.tsx:229 | a form that passes validation and keeps the handlers' invariant carries no typed query |
| Form.NarratorForm.constructor | src/components/app/NarratorForm.tsx:65-72 | a fresh form has no image and no query, the "Curious" style and the upload tab, and its submit button is disabled |
| Form.NarratorForm.FileLoaded | src/components/app/NarratorForm.tsx:82-87 | a loaded file becomes both the preview and the image, the query is dropped, and submit is enabled exactly when the URI is an image URI |
| Form.NarratorForm.CaptureImage | src/components/app/NarratorForm.tsx:131-151 | with video, canvas and context present, the frame becomes preview and image, the query is dropped and the stream stops; otherwise nothing changes |
| Form.NarratorForm.ClearImage | src/components/app/NarratorForm.tsx:169-176 | the preview and the image are dropped and the query is kept; the camera restarts exactly on the camera tab with permission |
| Form.NarratorForm.QueryChanged | src/components/app/NarratorForm.tsx:246-251 | the query is stored; a non-empty query typed while a preview is shown clears the image |
| Form.NarratorForm.StyleChanged | src/components/app/NarratorForm.tsx:346 | the chosen style is stored |
| Form.NarratorForm.SelectTab | src/components/app/NarratorForm.tsx:119-129 | changing tab stops the stream, as the effect's cleanup is written; opening the camera tab before any permission answer starts the camera |
| Form.NarratorForm.CameraStarted | src/components/app/NarratorForm.tsx:92-117 | a granted stream plays; a refusal, or a browser without camera access, records the refusal and raises a toast |
| Form.NarratorForm.SubmitAs | src/components/app/NarratorForm.tsx:153-167 | the page is told of the start and then of exactly one outcome, and ends up not generating; completion switches it to chat mode with the result; an error leaves its mode and result unchanged |
| Form.NarratorForm.OnSubmit | src/components/app/NarratorForm.tsx:153-167 | as wired, the submission calls no collaborator and never leaves form mode. An invalid form leaves the page as it was. A valid one ends with the generating flag cleared and one failure toast: the missing-user-id error, or the fixed error when the submission throws |
| Home.HomePage.constructor | src/app/page.tsx:18-20 | the page starts in form mode, not generating, with no result |
| Home.HomePage.GenerationStart | src/app/page.tsx:30-33 | start sets the generating flag and changes nothing else |
| Home.HomePage.GenerationComplete | src/app/page.tsx:35-43 | completion clears the flag, stores the result and switches to chat mode |
| Home.HomePage.GenerationError | src/app/page.tsx:45-53 | an error clears the flag and leaves the mode and the result unchanged |
| Home.HomePage.ExploreNewLocation | src/app/page.tsx:55-58 | explore-new returns to form mode and drops the result |
| Home.OneMainView | src/app/page.tsx:93-118 | in every reachable state exactly one of the form and the conversation is shown, and the spinner only beside the form |

## Left out

- Network and service calls are not modelled; their replies are inputs:
  - the webhook `fetch`;
  - the Maps client;
  - the text-to-speech client;
  - the image-description flow.
  - The flows in src/ai/flows/image-to-description-flow.ts, follow-up-question-flow.ts, location-prompt-generation.ts and narrative-generation.ts are not part of this model.
- The webhook URL, the Maps API key value and the 5000 ms timeout are not modelled. Only the key's presence is an input.
- Number formatting is not modelled. A coordinate's truthiness and its `toString()` and `toFixed(4)` renderings are given as inputs (`Coord`), not computed. The scroll measurements are reals.
- The wording of error messages and toasts is not modelled. That includes the text built in the catch blocks at src/app/actions.ts:147-158, which the model reduces to error kinds.
- Console logging is not modelled.
- Actions.ResolveLocation: an exception raised by the image describer collapses into the single kind `ImageServiceError`. The API-key test on the message text at src/app/actions.ts:154 only changes the wording.
- Places.TooShort, Places.Autocomplete, Display.RevealTick and Display.NarrativeDisplay.Tick: strings are sequences of Unicode code points, while JavaScript's `length` and indexing count UTF-16 code units. A character outside the Basic Multilingual Plane, such as an emoji, counts 1 here and 2 in the source. So the length check at src/app/actions.ts:268 rejects a one-emoji query that the source sends. The typing tick at src/components/app/NarrativeDisplay.tsx:87-111 reveals such a character in one tick, where the source takes two ticks and briefly shows a lone surrogate.
- Narration.ToLower: only A-Z are lower-cased. This is exact for the three table entries but not for `toLowerCase` in general.
- Base64 encoding of the audio bytes is not modelled. The reply carries the encoded text.
- Browser APIs are represented by flags and inputs: the speech recognizer, the camera stream, the canvas, the file reader, the audio elements, `scrollIntoView`, and the timers. In particular:
  - a typing interval firing is a call to `Tick`;
  - the deferred scroll at src/components/app/NarrativeDisplay.tsx:114 is not modelled.
- Message ids are not timestamps. A per-view counter replaces `Date.now()`, and only the id's kind prefix is kept.
- React scheduling is not modelled. Each handler runs to completion on the current state. So the model does not capture:
  - stale closures (the recognizer callbacks capture an old `handleFollowUpSubmit`);
  - batched updates;
  - a second follow-up started while one is outstanding.
- Display.BubbleIsPrefix: the typing cursor appended to a bubble being typed, and the translated placeholder shown for an empty AI message, are not modelled.
- Display.NarrativeDisplay.ToggleRecording, Display.NarrativeDisplay.EditQuestion and Form.NarratorForm.CaptureImage: the disabled states of the microphone button (src/components/app/NarrativeDisplay.tsx:413), the question box (407) and the capture button (src/components/app/NarratorForm.tsx:317) are not modelled. The source's handlers do not check these states themselves: the toggle checks only for a recognizer, and the capture checks only for the video, canvas and context. So the model over-approximates: it lets these handlers run in states where the page disables their controls, such as a toggle while a follow-up is generating, or a capture while a submission is running or without camera permission.
- The mount flag `isMounted` of the form, and the reset of the file input on clear, are not modelled.
- Form.NarratorForm.SelectTab: the model stops the stream on every tab change, as the cleanup at src/components/app/NarratorForm.tsx:123-128 is written. That cleanup stops tracks only while the video element still holds the stream. The video element sits inside the camera tab's panel (lines 296-320). If the tabs component unmounts an inactive panel, React has already detached the video ref when the cleanup runs, and the source then leaves the stream running after the user leaves the camera tab. The tabs component is not part of this model, so the model does not capture that probable leak.
- Form.NarratorForm.CameraStarted: the model departs from the probable behaviour of the source here. The camera effect depends on the permission state, so its cleanup (src/components/app/NarratorForm.tsx:123-128) also runs when the permission changes. With React 18's automatic batching, the update from `setHasCameraPermission(true)` (line 96) is rendered only after line 98 has attached the stream. So the cleanup then most likely stops the stream that was just granted. The model keeps the granted stream running, and only tab changes stop the stream in the model.
- An exception anywhere in a submission, the dynamic import of the action included, is a single input flag (`submissionThrows`); which step threw is not modelled.
- Translations, the language context, and the header, spinner, placeholder and layout components are presentation only and are not modelled.

## Findings

| source | as written | input that shows it | evidently intended | confidence | as-written member | corrected member |
|---|---|---|---|---|---|---|
| src/app/actions.ts:46 | the action reads `locationQuery` from the schema's output, but the schema (src/lib/validators.ts:4-12) declares only the image and the style keys, so the query is always undefined | a form with image "data:image/jpeg;base64,AAAA", query "Eiffel Tower" and style "Curious", where the describer answers "A riverside street": the narrative is about the riverside street | the submitted typed query wins the priority choice, as the comments at lines 51-53 say | not executed | Actions.GenerateTravelNarrative, Actions.TypedQueryDiscardedAsWritten | Actions.GenerateTravelNarrativeWithQuery, Actions.TypedQueryIsDescription |
| src/components/app/NarratorForm.tsx:158 | the form calls the action with the values and the language only, so `userId` is undefined and the check at src/app/actions.ts:42-44 always fails | any valid form, submitted from the form | the form passes the stored per-device user id | not executed | Form.NarratorForm.OnSubmit, Form.SubmittedWithoutUserIdFails | Form.NarratorForm.SubmitAs, Form.SubmittedWithUserIdCompletes |
