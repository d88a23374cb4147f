/** The home page (`HomePage`): a two-mode screen. In form mode it shows the
    narrator form, and a spinner while a generation is running; in chat mode
    it shows the conversation for the stored result. Four handlers move it
    between the modes; the form calls the first three. */
module Home {
  import opened Prelude
  import opened Actions

  datatype UiMode = FormMode | ChatMode

  /** What the form reports as a failed generation: the action's error, or
      the fixed message for an exception during submission. */
  datatype SubmissionError = ActionError(kind: ErrorKind) | UnexpectedSubmissionError

  /** The toasts the page raises (wording not modelled). */
  datatype PageToast = NarrativeReady(locationDescription: string) | GenerationFailed(error: SubmissionError)

  class HomePage {
    var uiMode: UiMode
    var isGenerating: bool
    var narrativeResult: Option<TravelNarrativeResult>
    var toasts: seq<PageToast>

    /** Chat mode always has a result to show. */
    predicate Valid()
      reads this
    {
      uiMode == ChatMode ==> narrativeResult.Some?
    }

    constructor ()
      ensures Valid()
      ensures uiMode == FormMode && !isGenerating && narrativeResult == None && toasts == []
    {
      uiMode := FormMode;
      isGenerating := false;
      narrativeResult := None;
      toasts := [];
    }

    /** `handleGenerationStart`: only the flag changes. */
    method GenerationStart()
      requires Valid()
      modifies this
      ensures Valid()
      ensures isGenerating
      ensures uiMode == old(uiMode) && narrativeResult == old(narrativeResult) && toasts == old(toasts)
    {
      isGenerating := true;
    }

    /** `handleGenerationComplete`: store the result and switch to chat. */
    method GenerationComplete(data: TravelNarrativeResult)
      requires Valid()
      modifies this
      ensures Valid()
      ensures !isGenerating && narrativeResult == Some(data) && uiMode == ChatMode
      ensures toasts == old(toasts) + [NarrativeReady(data.locationDescription)]
    {
      isGenerating := false;
      narrativeResult := Some(data);
      uiMode := ChatMode;
      toasts := toasts + [NarrativeReady(data.locationDescription)];
    }

    /** `handleGenerationError`: the mode and the result stay as they were. */
    method GenerationError(message: SubmissionError)
      requires Valid()
      modifies this
      ensures Valid()
      ensures !isGenerating
      ensures uiMode == old(uiMode) && narrativeResult == old(narrativeResult)
      ensures toasts == old(toasts) + [GenerationFailed(message)]
    {
      isGenerating := false;
      toasts := toasts + [GenerationFailed(message)];
    }

    /** `handleExploreNewLocation`: back to the form, dropping the result. */
    method ExploreNewLocation()
      requires Valid()
      modifies this
      ensures Valid()
      ensures uiMode == FormMode && narrativeResult == None
      ensures isGenerating == old(isGenerating) && toasts == old(toasts)
    {
      uiMode := FormMode;
      narrativeResult := None;
    }
  }

  /** The render guards of the page. */
  predicate ShowsForm(mode: UiMode) {
    mode == FormMode
  }

  predicate ShowsSpinner(mode: UiMode, isGenerating: bool) {
    mode == FormMode && isGenerating
  }

  predicate ShowsDisplay(mode: UiMode, result: Option<TravelNarrativeResult>) {
    mode == ChatMode && result.Some?
  }

  /** In every valid state exactly one of the form and the conversation is
      shown, and the spinner only next to the form. */
  lemma OneMainView(mode: UiMode, isGenerating: bool, result: Option<TravelNarrativeResult>)
    requires mode == ChatMode ==> result.Some?
    ensures ShowsForm(mode) != ShowsDisplay(mode, result)
    ensures ShowsSpinner(mode, isGenerating) ==> ShowsForm(mode) && !ShowsDisplay(mode, result)
  {
  }
}
