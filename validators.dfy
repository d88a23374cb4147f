/** The form schema `narratorFormSchema`: an object schema with two declared
    keys, `imageDataUri` (a string starting with "data:image/") and
    `informationStyle` (one of three names). Parsing an object with this
    schema keeps only the declared keys. */
module Validators {
  import opened Prelude

  datatype Style = Historical | Curious | Legends

  function StyleName(s: Style): string {
    match s
    case Historical => "Historical"
    case Curious => "Curious"
    case Legends => "Legends"
  }

  /** Membership in the enumeration. */
  function ParseStyle(name: string): (r: Option<Style>)
    ensures r.Some? <==> name in {"Historical", "Curious", "Legends"}
    ensures r.Some? ==> StyleName(r.value) == name
  {
    if name == "Historical" then Some(Historical)
    else if name == "Curious" then Some(Curious)
    else if name == "Legends" then Some(Legends)
    else None
  }

  /** The values the form holds and hands to the action: a missing field is
      `None`. `locationQuery` is a field of the form but not of the schema. */
  datatype RawForm = RawForm(imageDataUri: Option<string>, locationQuery: Option<string>, informationStyle: Option<string>)

  /** What a successful parse returns: the declared keys only. */
  datatype ParsedForm = ParsedForm(imageDataUri: string, informationStyle: Style)

  /** One field error of the flattened error report. */
  datatype FieldIssue =
    | ImageRequired       // imageDataUri missing
    | ImageNotAnImage     // the refinement failed
    | StyleRequired       // informationStyle missing: the schema's required_error
    | StyleNotInEnum      // informationStyle outside the enumeration

  const ImagePrefix := "data:image/"

  function ImageIssue(uri: Option<string>): Option<FieldIssue> {
    match uri
    case None => Some(ImageRequired)
    case Some(u) => if StartsWith(u, ImagePrefix) then None else Some(ImageNotAnImage)
  }

  function StyleIssue(style: Option<string>): Option<FieldIssue> {
    match style
    case None => Some(StyleRequired)
    case Some(s) => if ParseStyle(s).Some? then None else Some(StyleNotInEnum)
  }

  function Issues(o: Option<FieldIssue>): seq<FieldIssue> {
    if o.Some? then [o.value] else []
  }

  /** `narratorFormSchema.safeParse(raw)`. Both fields are checked and every
      failing field is reported, image first; the refinement inspects only the
      prefix, and `locationQuery` plays no part and is absent from the output. */
  function Validate(raw: RawForm): (r: Result<ParsedForm, seq<FieldIssue>>)
    ensures r.Success? <==>
              && raw.imageDataUri.Some? && StartsWith(raw.imageDataUri.value, ImagePrefix)
              && raw.informationStyle.Some? && raw.informationStyle.value in {"Historical", "Curious", "Legends"}
    ensures r.Success? ==>
              && r.value.imageDataUri == raw.imageDataUri.value
              && StyleName(r.value.informationStyle) == raw.informationStyle.value
    ensures r.Failure? ==> 1 <= |r.error| <= 2
    ensures r.Failure? ==> (ImageRequired in r.error <==> raw.imageDataUri.None?)
    ensures r.Failure? ==> (StyleRequired in r.error <==> raw.informationStyle.None?)
    ensures r.Failure? ==> (StyleNotInEnum in r.error <==>
              raw.informationStyle.Some? && raw.informationStyle.value !in {"Historical", "Curious", "Legends"})
    ensures r.Failure? ==> (ImageNotAnImage in r.error <==>
              raw.imageDataUri.Some? && !StartsWith(raw.imageDataUri.value, ImagePrefix))
  {
    var issues := Issues(ImageIssue(raw.imageDataUri)) + Issues(StyleIssue(raw.informationStyle));
    if issues == [] then
      Success(ParsedForm(raw.imageDataUri.value, ParseStyle(raw.informationStyle.value).value))
    else
      Failure(issues)
  }

  /** Anything after "data:image/" is accepted, even nothing at all. */
  lemma BarePrefixAccepted(style: Style)
    ensures Validate(RawForm(Some(ImagePrefix), None, Some(StyleName(style)))).Success?
  {
  }
}
