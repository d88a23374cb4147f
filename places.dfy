/** The two place helpers of the actions file: `getPlaceAutocompleteSuggestions`
    and `getNearbyTouristSpots`. The Maps client is an oracle: its reply is an
    input, and each helper returns the request it made, if any, so "no request
    was made" reads `requested == None`. Coordinates are passed through
    untouched, so they are plain reals here. */
module Places {
  import opened Prelude

  /** What both helpers return on success: a display text and a place id. */
  datatype PlaceSuggestion = PlaceSuggestion(description: string, placeId: string)

  /** One autocomplete prediction: both fields are always present. */
  datatype Prediction = Prediction(description: string, placeId: string)

  /** One nearby-search result: the name and the place id may be missing. */
  datatype PlaceResult = PlaceResult(name: Option<string>, placeId: Option<string>)

  datatype PlaceType = TouristAttraction | PointOfInterest | Landmark | Museum | Park | NaturalFeature

  /** The request sent to the Maps client. The API key and the 5000 ms
      timeout are configuration, not modelled. */
  datatype PlacesRequest =
    | AutocompleteRequest(input: string)
    | NearbyRequest(latitude: real, longitude: real, radius: int, types: seq<PlaceType>, rankBy: string)

  /** The client's reply: a response with its status and items, or an exception. */
  datatype PlacesReply<T> = PlacesResponse(status: string, items: seq<T>) | ClientThrows

  /** The kinds of `{ error }` the helpers return (message wording not modelled). */
  datatype PlacesError =
    | NotConfigured              // no API key in the environment
    | ApiFailed(status: string)  // a status other than OK and ZERO_RESULTS
    | ServiceUnreachable         // the client raised

  datatype PlacesRun = PlacesRun(result: Result<seq<PlaceSuggestion>, PlacesError>, requested: Option<PlacesRequest>)

  const NearbyRadius := 2000
  const NearbyTypes := [TouristAttraction, PointOfInterest, Landmark, Museum, Park, NaturalFeature]
  const NearbyRanking := "prominence"
  const NearbyLimit := 5

  /** The status of a usable response. */
  predicate Usable(status: string) {
    status == "OK" || status == "ZERO_RESULTS"
  }

  // ---------------------------------------------------------------------
  // Autocomplete
  // ---------------------------------------------------------------------

  function FromPredictions(predictions: seq<Prediction>): (r: seq<PlaceSuggestion>)
    ensures |r| == |predictions|
    ensures forall i :: 0 <= i < |r| ==> r[i] == PlaceSuggestion(predictions[i].description, predictions[i].placeId)
  {
    seq(|predictions|, i requires 0 <= i < |predictions| => PlaceSuggestion(predictions[i].description, predictions[i].placeId))
  }

  /** The mapping is element-wise, so it keeps the client's order and splits
      over concatenation. */
  lemma FromPredictionsAppend(a: seq<Prediction>, b: seq<Prediction>)
    ensures FromPredictions(a + b) == FromPredictions(a) + FromPredictions(b)
  {
  }

  /** The length check on the query: an empty query, or one with fewer than
      two characters once trimmed, is too short. */
  predicate TooShort(query: string) {
    query == "" || |Trim(query)| < 2
  }

  /** `getPlaceAutocompleteSuggestions`: the key check comes first, then the
      length check, which answers `[]` without a request; the query is sent
      as typed, untrimmed. */
  function Autocomplete(query: string, apiKeyConfigured: bool, reply: PlacesReply<Prediction>): (r: PlacesRun)
    ensures !apiKeyConfigured ==> r == PlacesRun(Failure(NotConfigured), None)
    ensures apiKeyConfigured && TooShort(query) ==> r == PlacesRun(Success([]), None)
    ensures r.requested.Some? <==> apiKeyConfigured && !TooShort(query)
    ensures r.requested.Some? ==> r.requested.value == AutocompleteRequest(query)
    ensures r.requested.Some? ==>
              (r.result.Success? <==> reply.PlacesResponse? && Usable(reply.status))
    ensures r.requested.Some? && reply.PlacesResponse? && reply.status == "OK" ==>
              r.result == Success(FromPredictions(reply.items))
    ensures r.requested.Some? && reply.PlacesResponse? && reply.status == "ZERO_RESULTS" ==>
              r.result == Success([])
    ensures r.requested.Some? && reply.PlacesResponse? && !Usable(reply.status) ==>
              r.result == Failure(ApiFailed(reply.status))
    ensures r.requested.Some? && reply.ClientThrows? ==> r.result == Failure(ServiceUnreachable)
  {
    if !apiKeyConfigured then
      PlacesRun(Failure(NotConfigured), None)
    else if TooShort(query) then
      PlacesRun(Success([]), None)
    else
      var request := Some(AutocompleteRequest(query));
      match reply
      case ClientThrows => PlacesRun(Failure(ServiceUnreachable), request)
      case PlacesResponse(status, predictions) =>
        if status == "OK" then PlacesRun(Success(FromPredictions(predictions)), request)
        else if status == "ZERO_RESULTS" then PlacesRun(Success([]), request)
        else PlacesRun(Failure(ApiFailed(status)), request)
  }

  /** A query of blanks around a single character never reaches the client. */
  lemma PaddedSingleCharacterNotSent(c: char, reply: PlacesReply<Prediction>)
    requires !IsWhitespace(c)
    ensures Autocomplete("  " + [c] + " ", true, reply) == PlacesRun(Success([]), None)
  {
    var q := "  " + [c] + " ";
    assert q == [' ', ' ', c, ' '];
    assert q[1..] == [' ', c, ' '] && [' ', c, ' '][1..] == [c, ' '];
    assert TrimStart([c, ' ']) == [c, ' '] by { assert [c, ' '][0] == c; }
    assert TrimStart([' ', c, ' ']) == TrimStart([c, ' ']);
    assert TrimStart(q) == TrimStart([' ', c, ' ']);
    assert [c, ' '][..1] == [c];
    assert TrimEnd([c, ' ']) == [c];
    assert |Trim(q)| == 1;
  }

  // ---------------------------------------------------------------------
  // Nearby tourist spots
  // ---------------------------------------------------------------------

  /** `place.name && place.place_id`. */
  predicate Complete(p: PlaceResult) {
    Truthy(p.name) && Truthy(p.placeId)
  }

  /** `results.filter(place => place.name && place.place_id)`. */
  function Named(results: seq<PlaceResult>): (r: seq<PlaceResult>)
    ensures |r| <= |results|
    ensures forall i :: 0 <= i < |r| ==> Complete(r[i])
    ensures forall p :: p in r <==> p in results && Complete(p)
  {
    if results == [] then []
    else if Complete(results[0]) then [results[0]] + Named(results[1..])
    else Named(results[1..])
  }

  /** The filter is applied piecewise, so it keeps the original order. */
  lemma {:induction false} NamedAppend(a: seq<PlaceResult>, b: seq<PlaceResult>)
    ensures Named(a + b) == Named(a) + Named(b)
  {
    if a == [] {
      assert a + b == b;
    } else {
      assert (a + b)[0] == a[0];
      assert (a + b)[1..] == a[1..] + b;
      NamedAppend(a[1..], b);
    }
  }

  /** A list of complete results passes the filter unchanged. */
  lemma {:induction false} NamedKeepsComplete(results: seq<PlaceResult>)
    requires forall i :: 0 <= i < |results| ==> Complete(results[i])
    ensures Named(results) == results
  {
    if results != [] {
      NamedKeepsComplete(results[1..]);
    }
  }

  /** `.slice(0, 5).map(...)` after the filter. */
  function NearbySuggestions(results: seq<PlaceResult>): (r: seq<PlaceSuggestion>)
    ensures |r| <= NearbyLimit
    ensures |r| == if |Named(results)| < NearbyLimit then |Named(results)| else NearbyLimit
    ensures forall i :: 0 <= i < |r| ==>
              && r[i].description != "" && r[i].placeId != ""
              && r[i] == PlaceSuggestion(Named(results)[i].name.value, Named(results)[i].placeId.value)
  {
    var kept := Named(results);
    var first := if |kept| < NearbyLimit then kept else kept[..NearbyLimit];
    seq(|first|, i requires 0 <= i < |first| => PlaceSuggestion(first[i].name.value, first[i].placeId.value))
  }

  /** Results after the first five complete ones are never shown: appending
      to a list that already yields five changes nothing. */
  lemma LaterResultsIgnored(a: seq<PlaceResult>, b: seq<PlaceResult>)
    requires |Named(a)| >= NearbyLimit
    ensures NearbySuggestions(a + b) == NearbySuggestions(a)
  {
    NamedAppend(a, b);
  }

  /** An incomplete result is skipped without taking a place. */
  lemma IncompleteSkipped(p: PlaceResult, rest: seq<PlaceResult>)
    requires !Complete(p)
    ensures NearbySuggestions([p] + rest) == NearbySuggestions(rest)
  {
    NamedAppend([p], rest);
  }

  /** `getNearbyTouristSpots`: the key check, then one request with the fixed
      radius, types and ranking; a usable response is post-processed, any
      other status or an exception is an error. */
  function NearbyTouristSpots(latitude: real, longitude: real, apiKeyConfigured: bool,
                              reply: PlacesReply<PlaceResult>): (r: PlacesRun)
    ensures !apiKeyConfigured ==> r == PlacesRun(Failure(NotConfigured), None)
    ensures apiKeyConfigured ==>
              r.requested == Some(NearbyRequest(latitude, longitude, NearbyRadius, NearbyTypes, NearbyRanking))
    ensures r.result.Success? <==> apiKeyConfigured && reply.PlacesResponse? && Usable(reply.status)
    ensures r.result.Success? ==> |r.result.value| <= NearbyLimit
    ensures apiKeyConfigured && reply.PlacesResponse? && reply.status == "OK" ==>
              r.result == Success(NearbySuggestions(reply.items))
    ensures apiKeyConfigured && reply.PlacesResponse? && reply.status == "ZERO_RESULTS" ==>
              r.result == Success([])
    ensures apiKeyConfigured && reply.PlacesResponse? && !Usable(reply.status) ==>
              r.result == Failure(ApiFailed(reply.status))
    ensures apiKeyConfigured && reply.ClientThrows? ==> r.result == Failure(ServiceUnreachable)
  {
    if !apiKeyConfigured then
      PlacesRun(Failure(NotConfigured), None)
    else
      var request := Some(NearbyRequest(latitude, longitude, NearbyRadius, NearbyTypes, NearbyRanking));
      match reply
      case ClientThrows => PlacesRun(Failure(ServiceUnreachable), request)
      case PlacesResponse(status, results) =>
        if status == "OK" then PlacesRun(Success(NearbySuggestions(results)), request)
        else if status == "ZERO_RESULTS" then PlacesRun(Success([]), request)
        else PlacesRun(Failure(ApiFailed(status)), request)
  }
}
