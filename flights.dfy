/** The flight search tool of first_tests/flights_tool.py: the query parameters it sends to
    Google Flights through SerpApi; the answer is the body of the response, unchanged. */
module Flights {
  import opened Wrappers
  import opened SerpApi

  const Engine: string := "google_flights"
  /** The trip type of a round trip, the only one with a return leg. */
  const RoundTrip: int := 1

  /** The arguments of `_run` (`tripType` is the argument named `type`). */
  datatype FlightArgs = FlightArgs(
    apiKey: Option<string>,
    departureId: Option<string>,
    arrivalId: Option<string>,
    outboundDate: Option<string>,
    returnDate: Option<string>,
    tripType: int,
    travelClass: int,
    gl: Option<string>,
    hl: Option<string>,
    currency: Option<string>,
    adults: int,
    children: int,
    infantsInSeat: int,
    infantsOnLap: int,
    stops: int,
    maxPrice: Option<int>,
    outboundTimes: Option<string>,
    returnTimes: Option<string>,
    deepSearch: bool)

  /** The parameter dictionary, one field per key it may hold; the first nine keys are
      always present, an optional key that is not in the dictionary is `None`. */
  datatype Params = Params(
    engine: string,
    apiKey: string,
    tripType: int,
    travelClass: int,
    adults: int,
    children: int,
    infantsInSeat: int,
    infantsOnLap: int,
    stops: int,
    outboundDate: Option<string>,
    returnDate: Option<string>,
    departureId: Option<string>,
    arrivalId: Option<string>,
    gl: Option<string>,
    hl: Option<string>,
    currency: Option<string>,
    maxPrice: Option<int>,
    outboundTimes: Option<string>,
    returnTimes: Option<string>,
    deepSearch: Option<string>)

  /** A return-leg argument is sent when truthy and the trip is a round trip. */
  function IfRoundTrip(o: Option<string>, tripType: int): (v: Option<string>)
    ensures v.Some? <==> Truthy(o) && tripType == RoundTrip
    ensures v.Some? ==> v == o
  {
    if Truthy(o) && tripType == RoundTrip then o else None
  }

  /** The dictionary of a search made with key `key`, key by key: the trip, class and
      passenger counts always, the dates, airports, locale and times when truthy (the return
      leg only on a round trip), the price cap when not `None`, deep search as "true" when
      set. */
  function FlightParams(a: FlightArgs, key: string): Params
  {
    Params(
      engine := Engine, apiKey := key, tripType := a.tripType, travelClass := a.travelClass,
      adults := a.adults, children := a.children, infantsInSeat := a.infantsInSeat,
      infantsOnLap := a.infantsOnLap, stops := a.stops,
      outboundDate := IfTruthy(a.outboundDate), returnDate := IfRoundTrip(a.returnDate, a.tripType),
      departureId := IfTruthy(a.departureId), arrivalId := IfTruthy(a.arrivalId),
      gl := IfTruthy(a.gl), hl := IfTruthy(a.hl), currency := IfTruthy(a.currency),
      maxPrice := a.maxPrice, outboundTimes := IfTruthy(a.outboundTimes),
      returnTimes := IfRoundTrip(a.returnTimes, a.tripType), deepSearch := IfSet(a.deepSearch))
  }

  /** A one-way or multi-city search never sends a return date or return times, whatever
      the caller gave. */
  lemma ReturnLegOnlyOnRoundTrip(a: FlightArgs, key: string)
    ensures FlightParams(a, key).returnDate.Some? ==> a.tripType == RoundTrip
    ensures FlightParams(a, key).returnTimes.Some? ==> a.tripType == RoundTrip
    ensures a.tripType == RoundTrip && Truthy(a.returnDate) ==> FlightParams(a, key).returnDate == a.returnDate
  {
  }

  /** A price cap of 0 is sent (the test is `is not None`); an empty outbound date is not
      (the test is truthiness). */
  lemma ZeroCapIsSentEmptyDateIsNot(a: FlightArgs, key: string)
    requires a.maxPrice == Some(0) && a.outboundDate == Some("")
    ensures FlightParams(a, key).maxPrice == Some(0) && FlightParams(a, key).outboundDate.None?
  {
  }

  /** The parameter dictionary, built as `_run` builds it: the mandatory entries, then one
      test per optional argument, in the order of the source. */
  method BuildParams(a: FlightArgs, key: string) returns (params: Params)
    ensures params == FlightParams(a, key)
  {
    params := Params(Engine, key, a.tripType, a.travelClass, a.adults, a.children,
                     a.infantsInSeat, a.infantsOnLap, a.stops,
                     None, None, None, None, None, None, None, None, None, None, None);
    params := AddDatesAndAirports(a, params);
    params := AddLocale(a, params);
    params := AddFilters(a, params);
  }

  /** The tests on the dates and the airports (lines 183-192). */
  method AddDatesAndAirports(a: FlightArgs, p: Params) returns (params: Params)
    requires p.tripType == a.tripType
    requires p.outboundDate.None? && p.returnDate.None? && p.departureId.None? && p.arrivalId.None?
    ensures params == p.(outboundDate := IfTruthy(a.outboundDate),
                         returnDate := IfRoundTrip(a.returnDate, a.tripType),
                         departureId := IfTruthy(a.departureId), arrivalId := IfTruthy(a.arrivalId))
  {
    params := p;
    if Truthy(a.outboundDate) { params := params.(outboundDate := Some(a.outboundDate.value)); }
    if Truthy(a.returnDate) && a.tripType == RoundTrip { params := params.(returnDate := Some(a.returnDate.value)); }
    if Truthy(a.departureId) { params := params.(departureId := Some(a.departureId.value)); }
    if Truthy(a.arrivalId) { params := params.(arrivalId := Some(a.arrivalId.value)); }
  }

  /** The tests on the country, language and currency (lines 195-200). */
  method AddLocale(a: FlightArgs, p: Params) returns (params: Params)
    requires p.gl.None? && p.hl.None? && p.currency.None?
    ensures params == p.(gl := IfTruthy(a.gl), hl := IfTruthy(a.hl), currency := IfTruthy(a.currency))
  {
    params := p;
    if Truthy(a.gl) { params := params.(gl := Some(a.gl.value)); }
    if Truthy(a.hl) { params := params.(hl := Some(a.hl.value)); }
    if Truthy(a.currency) { params := params.(currency := Some(a.currency.value)); }
  }

  /** The tests on the price cap, the times and deep search (lines 203-210). */
  method AddFilters(a: FlightArgs, p: Params) returns (params: Params)
    requires p.maxPrice.None? && p.outboundTimes.None? && p.returnTimes.None? && p.deepSearch.None?
    ensures params == p.(maxPrice := a.maxPrice, outboundTimes := IfTruthy(a.outboundTimes),
                         returnTimes := IfRoundTrip(a.returnTimes, a.tripType),
                         deepSearch := IfSet(a.deepSearch))
  {
    params := p;
    if a.maxPrice.Some? { params := params.(maxPrice := Some(a.maxPrice.value)); }
    if Truthy(a.outboundTimes) { params := params.(outboundTimes := Some(a.outboundTimes.value)); }
    if Truthy(a.returnTimes) && a.tripType == RoundTrip { params := params.(returnTimes := Some(a.returnTimes.value)); }
    if a.deepSearch { params := params.(deepSearch := Some("true")); }
  }

  /** The outcome of the HTTP call: a request error (including an HTTP error status) or the
      text of the body. */
  datatype Response = RequestFailed(detail: string) | Body(text: string)

  /** The flight search, as a function of its arguments, the environment's key and the
      answer of the HTTP call to the parameters: the body text, or an error message. */
  function FlightSearch(a: FlightArgs, env: Option<string>, fetch: Params -> Response): string
  {
    match ResolveKey(a.apiKey, env)
    case None => NoKeyError
    case Some(key) =>
      match fetch(FlightParams(a, key))
      case RequestFailed(d) => ApiErrorPrefix + d
      case Body(text) => text
  }

  /** Without a key the tool answers with the key error and sends no request. */
  lemma MissingKeySendsNothing(a: FlightArgs, env: Option<string>, f: Params -> Response, g: Params -> Response)
    requires !Truthy(a.apiKey) && !Truthy(env)
    ensures FlightSearch(a, env, f) == FlightSearch(a, env, g) == NoKeyError
  {
  }

  /** With a key, the tool answers with the body of the one request made with
      `FlightParams`, or with the request error after its prefix. */
  lemma AnswerIsTheBody(a: FlightArgs, env: Option<string>, fetch: Params -> Response)
    requires ResolveKey(a.apiKey, env).Some?
    ensures var response := fetch(FlightParams(a, ResolveKey(a.apiKey, env).value));
            && (response.Body? ==> FlightSearch(a, env, fetch) == response.text)
            && (response.RequestFailed? ==> FlightSearch(a, env, fetch) == ApiErrorPrefix + response.detail)
  {
  }

  /** `_run`: the key check, the parameters, the call. */
  method Run(a: FlightArgs, env: Option<string>, fetch: Params -> Response) returns (reply: string)
    ensures reply == FlightSearch(a, env, fetch)
  {
    var key := ResolveKey(a.apiKey, env);
    if key.None? {
      return NoKeyError;
    }
    var params := BuildParams(a, key.value);
    var response := fetch(params);
    if response.RequestFailed? {
      return ApiErrorPrefix + response.detail;
    }
    reply := response.text;
  }

  /** `_arun` hands its arguments to `_run` unchanged. */
  method Arun(a: FlightArgs, env: Option<string>, fetch: Params -> Response) returns (reply: string)
    ensures reply == FlightSearch(a, env, fetch)
  {
    reply := Run(a, env, fetch);
  }
}
