/** The narrator form (`NarratorForm`): a typed place name or an image (a
    file or a camera frame), and an information style. Its handlers keep the
    form from holding a typed query and an image at once, and its submit
    handler reports to the page: start first, then exactly one of complete or
    error.

    The file reader, the camera and the canvas are not modelled: a loaded
    data URI, a captured frame and the camera's start outcome are inputs. */
module Form {
  import opened Prelude
  import opened Validators
  import opened Narration
  import opened Actions
  import opened Home

  datatype Tab = UploadTab | CameraTab

  datatype FormToast = CameraAccessProblemToast

  /** What the form tells the page. */
  datatype Notification = Started | Completed(result: TravelNarrativeResult) | Failed(error: SubmissionError)

  /** What the submit handler hands the action: the resolver's parsed output,
      which holds the schema's keys only. */
  function HandedToAction(data: ParsedForm): RawForm {
    RawForm(Some(data.imageDataUri), None, Some(StyleName(data.informationStyle)))
  }

  /** The notifications of one submission made as `userId`. An invalid form
      never reaches the submit handler; a valid one starts, then either fails
      with the fixed message (an exception during submission) or reports the
      action's outcome. */
  function SubmissionNotifications(values: RawForm, language: string, userId: string, submissionThrows: bool,
                                   describer: DescriberReply, webhook: WebhookReply, tts: SynthesisReply): (r: seq<Notification>)
    ensures r == [] <==> Validate(values).Failure?
    ensures r != [] ==> |r| == 2 && r[0] == Started && !r[1].Started?
    ensures r != [] && submissionThrows ==> r[1] == Failed(UnexpectedSubmissionError)
  {
    match Validate(values)
    case Failure(_) => []
    case Success(data) =>
      if submissionThrows then [Started, Failed(UnexpectedSubmissionError)]
      else
        match NarrativeRun(HandedToAction(data), None, language, userId, None, None, describer, webhook, tts).result
        case Failure(e) => [Started, Failed(ActionError(e))]
        case Success(v) => [Started, Completed(v)]
  }

  /** As wired, the form passes no user id, so a valid submission always ends
      in the missing-user-id error and no collaborator is ever called. */
  lemma SubmittedWithoutUserIdFails(values: RawForm, language: string,
                                    describer: DescriberReply, webhook: WebhookReply, tts: SynthesisReply)
    requires Validate(values).Success?
    ensures SubmissionNotifications(values, language, "", false, describer, webhook, tts)
            == [Started, Failed(ActionError(MissingUserId))]
    ensures NarrativeRun(HandedToAction(Validate(values).value), None, language, "", None, None, describer, webhook, tts).calls == []
    ensures forall n :: n in SubmissionNotifications(values, language, "", false, describer, webhook, tts) ==> !n.Completed?
  {
    var data := Validate(values).value;
    assert Validate(HandedToAction(data)).Success?;
  }

  /** With a user id, a valid image that the describer recognises and an
      answering agent, the submission completes with the agent's narrative. */
  lemma SubmittedWithUserIdCompletes(values: RawForm, language: string, userId: string,
                                     description: string, body: string, tts: SynthesisReply)
    requires Validate(values).Success? && userId != ""
    requires description != "" && body != ""
    ensures var r := SubmissionNotifications(values, language, userId, false, Description(description),
                                             HttpResponse(true, 200, body), tts);
            && r[1].Completed?
            && r[1].result.narrativeText == body
            && r[1].result.locationDescription == description
            && r[1].result.userId == userId
  {
    var data := Validate(values).value;
    assert Validate(HandedToAction(data)).Success?;
  }

  /** A submittable form never carries a typed query: the schema demands an
      image, and the handlers never leave a query beside an image. */
  lemma SubmittableFormHasNoQuery(values: RawForm)
    requires !(Truthy(values.locationQuery) && Truthy(values.imageDataUri))
    requires Validate(values).Success?
    ensures !Truthy(values.locationQuery)
  {
    assert values.imageDataUri.value[..|ImagePrefix|] == ImagePrefix;
  }

  class NarratorForm {
    var currentLanguage: string
    var imagePreview: Option<string>
    var imageDataUri: Option<string>
    var locationQuery: Option<string>
    var informationStyle: Style
    var activeTab: Tab
    var hasCameraPermission: Option<bool>
    var streamActive: bool
    var toasts: seq<FormToast>

    /** The preview always shows the form's image, and a typed query and an
        image are never both present. */
    predicate Valid()
      reads this
    {
      imagePreview == imageDataUri && !(Truthy(locationQuery) && Truthy(imageDataUri))
    }

    /** The values the form holds. */
    function Values(): RawForm
      reads this
    {
      RawForm(imageDataUri, locationQuery, Some(StyleName(informationStyle)))
    }

    /** A fresh form: no image, no query, the "Curious" style, the upload tab. */
    constructor (currentLanguage: string)
      ensures Valid()
      ensures this.currentLanguage == currentLanguage
      ensures imagePreview == None && imageDataUri == None && locationQuery == None
      ensures informationStyle == Curious && activeTab == UploadTab
      ensures hasCameraPermission == None && !streamActive && toasts == []
      ensures !SubmitEnabled(false)
    {
      this.currentLanguage := currentLanguage;
      imagePreview := None;
      imageDataUri := None;
      locationQuery := None;
      informationStyle := Curious;
      activeTab := UploadTab;
      hasCameraPermission := None;
      streamActive := false;
      toasts := [];
    }

    /** The file reader's `onloadend` in `handleFileChange`: the data URI
        becomes both the preview and the image, and the query is dropped. */
    method FileLoaded(dataUri: string)
      requires Valid()
      modifies this`imagePreview, this`imageDataUri, this`locationQuery
      ensures Valid()
      ensures imagePreview == Some(dataUri) && imageDataUri == Some(dataUri) && locationQuery == None
      ensures SubmitEnabled(false) <==> StartsWith(dataUri, ImagePrefix)
      ensures informationStyle == old(informationStyle) && activeTab == old(activeTab)
      ensures hasCameraPermission == old(hasCameraPermission) && streamActive == old(streamActive) && toasts == old(toasts)
    {
      imagePreview := Some(dataUri);
      imageDataUri := Some(dataUri);
      locationQuery := None;
    }

    /** `handleCaptureImage`: with the video, the canvas and a 2D context, the
        frame becomes the preview and the image, the query is dropped and the
        stream is stopped; otherwise nothing happens. */
    method CaptureImage(hasVideoAndCanvas: bool, hasContext: bool, frame: string)
      requires Valid()
      modifies this`imagePreview, this`imageDataUri, this`locationQuery, this`streamActive
      ensures Valid()
      ensures hasVideoAndCanvas && hasContext ==>
                imagePreview == Some(frame) && imageDataUri == Some(frame) && locationQuery == None && !streamActive
      ensures !(hasVideoAndCanvas && hasContext) ==>
                imagePreview == old(imagePreview) && imageDataUri == old(imageDataUri)
                && locationQuery == old(locationQuery) && streamActive == old(streamActive)
      ensures informationStyle == old(informationStyle) && activeTab == old(activeTab)
      ensures hasCameraPermission == old(hasCameraPermission) && toasts == old(toasts)
    {
      if hasVideoAndCanvas && hasContext {
        imagePreview := Some(frame);
        imageDataUri := Some(frame);
        locationQuery := None;
        streamActive := false;
      }
    }

    /** `clearImage`: the preview and the image are dropped, the query is kept,
        and the camera is restarted when the camera tab has permission. */
    method ClearImage() returns (restartsCamera: bool)
      requires Valid()
      modifies this`imagePreview, this`imageDataUri
      ensures Valid()
      ensures imagePreview == None && imageDataUri == None && locationQuery == old(locationQuery)
      ensures restartsCamera == (activeTab == CameraTab && hasCameraPermission == Some(true))
      ensures informationStyle == old(informationStyle) && activeTab == old(activeTab)
      ensures hasCameraPermission == old(hasCameraPermission) && streamActive == old(streamActive) && toasts == old(toasts)
    {
      imagePreview := None;
      imageDataUri := None;
      restartsCamera := activeTab == CameraTab && hasCameraPermission == Some(true);
    }

    /** The query input's `onChange`: the value is stored, and a non-empty
        value typed while a preview is shown clears the image. */
    method QueryChanged(value: string) returns (restartsCamera: bool)
      requires Valid()
      modifies this`imagePreview, this`imageDataUri, this`locationQuery
      ensures Valid()
      ensures locationQuery == Some(value)
      ensures value != "" && Truthy(old(imagePreview)) ==>
                imagePreview == None && imageDataUri == None
                && restartsCamera == (activeTab == CameraTab && hasCameraPermission == Some(true))
      ensures !(value != "" && Truthy(old(imagePreview))) ==>
                imagePreview == old(imagePreview) && imageDataUri == old(imageDataUri) && !restartsCamera
      ensures informationStyle == old(informationStyle) && activeTab == old(activeTab)
      ensures hasCameraPermission == old(hasCameraPermission) && streamActive == old(streamActive) && toasts == old(toasts)
    {
      // Both updates land in one render; clearing first keeps Valid() between them.
      restartsCamera := false;
      if value != "" && Truthy(imagePreview) {
        restartsCamera := ClearImage();
      }
      locationQuery := Some(value);
    }

    /** The style radio group. */
    method StyleChanged(style: Style)
      requires Valid()
      modifies this`informationStyle
      ensures Valid() && informationStyle == style
    {
      informationStyle := style;
    }

    /** Switching tabs: leaving a tab stops the camera stream, as the camera
        effect's cleanup is written (it assumes the video element still holds
        the stream), and opening the camera tab before any permission answer
        starts the camera. */
    method SelectTab(tab: Tab) returns (startsCamera: bool)
      requires Valid()
      modifies this`activeTab, this`streamActive
      ensures Valid()
      ensures activeTab == tab
      ensures streamActive == (old(streamActive) && tab == old(activeTab))
      ensures startsCamera == (tab == CameraTab && tab != old(activeTab) && hasCameraPermission.None?)
    {
      startsCamera := false;
      if tab != activeTab {
        activeTab := tab;
        streamActive := false;
        startsCamera := tab == CameraTab && hasCameraPermission.None?;
      }
    }

    /** The outcome of `startCamera`: a granted stream plays; a refusal or a
        browser without camera access records the refusal and raises a toast. */
    method CameraStarted(granted: bool)
      requires Valid()
      modifies this`hasCameraPermission, this`streamActive, this`toasts
      ensures Valid()
      ensures hasCameraPermission == Some(granted) && streamActive == granted
      ensures toasts == old(toasts) + (if granted then [] else [CameraAccessProblemToast])
    {
      hasCameraPermission := Some(granted);
      streamActive := granted;
      if !granted {
        toasts := toasts + [CameraAccessProblemToast];
      }
    }

    /** The submit button's guard. */
    predicate SubmitEnabled(isGenerating: bool)
      reads this
    {
      !isGenerating && Validate(Values()).Success?
    }

    /** A submission made as `userId`: `form.handleSubmit(onSubmit)` with the
        action called for that user, the page notified of the start and then
        of the outcome. Returns the notifications and the action's calls. */
    method SubmitAs(page: HomePage, userId: string, submissionThrows: bool,
                    describer: DescriberReply, webhook: WebhookReply, tts: SynthesisReply)
      returns (notified: seq<Notification>, calls: seq<Call>)
      requires page.Valid()
      modifies page
      ensures page.Valid()
      ensures notified == SubmissionNotifications(Values(), currentLanguage, userId, submissionThrows, describer, webhook, tts)
      ensures notified == [] ==>
                && calls == []
                && page.uiMode == old(page.uiMode) && page.isGenerating == old(page.isGenerating)
                && page.narrativeResult == old(page.narrativeResult) && page.toasts == old(page.toasts)
      ensures notified != [] ==> !page.isGenerating
      ensures notified != [] && notified[1].Completed? ==>
                && page.uiMode == ChatMode && page.narrativeResult == Some(notified[1].result)
                && page.toasts == old(page.toasts) + [NarrativeReady(notified[1].result.locationDescription)]
      ensures notified != [] && notified[1].Failed? ==>
                && page.uiMode == old(page.uiMode) && page.narrativeResult == old(page.narrativeResult)
                && page.toasts == old(page.toasts) + [GenerationFailed(notified[1].error)]
      ensures notified != [] && !submissionThrows ==>
                calls == NarrativeRun(HandedToAction(Validate(Values()).value), None, currentLanguage, userId,
                                      None, None, describer, webhook, tts).calls
      ensures submissionThrows ==> calls == []
    {
      var validation := Validate(Values());
      if validation.Failure? {
        return [], [];
      }
      page.GenerationStart();
      notified := [Started];
      calls := [];
      if submissionThrows {
        page.GenerationError(UnexpectedSubmissionError);
        notified := notified + [Failed(UnexpectedSubmissionError)];
        return;
      }
      var result;
      result, calls := GenerateTravelNarrative(HandedToAction(validation.value), currentLanguage, userId,
                                               None, None, describer, webhook, tts);
      match result {
        case Failure(e) =>
          page.GenerationError(ActionError(e));
          notified := notified + [Failed(ActionError(e))];
        case Success(v) =>
          page.GenerationComplete(v);
          notified := notified + [Completed(v)];
      }
    }

    /** `onSubmit` as wired: the action is called with the form's values and
        the language only, so with no user id. */
    method OnSubmit(page: HomePage, submissionThrows: bool,
                    describer: DescriberReply, webhook: WebhookReply, tts: SynthesisReply)
      returns (notified: seq<Notification>, calls: seq<Call>)
      requires page.Valid()
      modifies page
      ensures page.Valid()
      ensures notified == SubmissionNotifications(Values(), currentLanguage, "", submissionThrows, describer, webhook, tts)
      ensures calls == []
      ensures page.uiMode == old(page.uiMode) && page.narrativeResult == old(page.narrativeResult)
      ensures notified == [] ==> page.isGenerating == old(page.isGenerating) && page.toasts == old(page.toasts)
      ensures notified != [] ==>
                && !page.isGenerating
                && page.toasts == old(page.toasts)
                     + [GenerationFailed(if submissionThrows then UnexpectedSubmissionError else ActionError(MissingUserId))]
    {
      notified, calls := SubmitAs(page, "", submissionThrows, describer, webhook, tts);
      if Validate(Values()).Success? {
        SubmittedWithoutUserIdFails(Values(), currentLanguage, describer, webhook, tts);
      }
    }
  }
}
