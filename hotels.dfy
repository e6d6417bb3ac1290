/** The hotel search tool of first_tests/hotels_tool.py: the query parameters it sends to
    Google Hotels through SerpApi, and the cleaning of the properties that come back. */
module Hotels {
  import opened Wrappers
  import opened SerpApi

  const Engine: string := "google_hotels"
  const NoHotelsMessage: string := "No hotels found for the given criteria."
  const NoAddress: string := "No address info"
  const HotelType: string := "hotel"
  /** How many hotels the answer keeps at most. */
  const Kept: nat := 3

  /** The arguments of `_run`, with Python's `None` as `None`. */
  datatype HotelArgs = HotelArgs(
    apiKey: Option<string>,
    q: Option<string>,
    checkInDate: Option<string>,
    checkOutDate: Option<string>,
    gl: Option<string>,
    hl: Option<string>,
    currency: Option<string>,
    adults: int,
    children: int,
    childrenAges: Option<string>,
    sortBy: Option<int>,
    minPrice: Option<int>,
    maxPrice: Option<int>,
    propertyTypes: Option<string>,
    amenities: Option<string>,
    rating: Option<int>,
    brands: Option<string>,
    hotelClass: Option<string>,
    freeCancellation: bool,
    specialOffers: bool,
    ecoCertified: bool,
    vacationRentals: bool,
    bedrooms: int,
    bathrooms: int,
    nextPageToken: Option<string>,
    propertyToken: Option<string>)

  // ---------------------------------------------------------------------------
  // Query parameters
  // ---------------------------------------------------------------------------

  /** The parameter dictionary sent to the search endpoint, one field per key it may hold
      (`gl` for "gl", `sortBy` for "sort_by", and so on). The first seven keys are always
      present (`q` and the dates with a value that may be `None`); an optional key that is
      not in the dictionary is `None`. */
  datatype Params = Params(
    engine: string,
    apiKey: string,
    q: Option<string>,
    checkInDate: Option<string>,
    checkOutDate: Option<string>,
    adults: int,
    children: int,
    gl: Option<string>,
    hl: Option<string>,
    currency: Option<string>,
    childrenAges: Option<string>,
    sortBy: Option<int>,
    minPrice: Option<int>,
    maxPrice: Option<int>,
    propertyTypes: Option<string>,
    amenities: Option<string>,
    rating: Option<int>,
    brands: Option<string>,
    hotelClass: Option<string>,
    freeCancellation: Option<string>,
    specialOffers: Option<string>,
    ecoCertified: Option<string>,
    vacationRentals: Option<string>,
    bedrooms: Option<int>,
    bathrooms: Option<int>,
    nextPageToken: Option<string>,
    propertyToken: Option<string>)

  /** A room count is sent when positive. */
  function IfPositive(c: int): (v: Option<int>)
    ensures v.Some? <==> c > 0
    ensures v.Some? ==> v.value == c
  {
    if c > 0 then Some(c) else None
  }

  /** The dictionary of a search made with key `key`, key by key: the mandatory entries as
      given, string options when truthy, integer options when not `None` (so they are sent
      as given), boolean filters as "true" when set, room counts when positive. */
  function HotelParams(a: HotelArgs, key: string): Params
  {
    Params(
      engine := Engine, apiKey := key, q := a.q,
      checkInDate := a.checkInDate, checkOutDate := a.checkOutDate,
      adults := a.adults, children := a.children,
      gl := IfTruthy(a.gl), hl := IfTruthy(a.hl), currency := IfTruthy(a.currency),
      childrenAges := IfTruthy(a.childrenAges),
      sortBy := a.sortBy, minPrice := a.minPrice, maxPrice := a.maxPrice,
      propertyTypes := IfTruthy(a.propertyTypes), amenities := IfTruthy(a.amenities),
      rating := a.rating, brands := IfTruthy(a.brands), hotelClass := IfTruthy(a.hotelClass),
      freeCancellation := IfSet(a.freeCancellation), specialOffers := IfSet(a.specialOffers),
      ecoCertified := IfSet(a.ecoCertified), vacationRentals := IfSet(a.vacationRentals),
      bedrooms := IfPositive(a.bedrooms), bathrooms := IfPositive(a.bathrooms),
      nextPageToken := IfTruthy(a.nextPageToken), propertyToken := IfTruthy(a.propertyToken))
  }

  /** An integer filter set to 0 is still sent (the test is `is not None`), while a string
      option set to "" is not (the test is truthiness), an unset boolean filter is not sent
      at all, and neither is a room count of 0. */
  lemma ZeroIsSentEmptyIsNot(a: HotelArgs, key: string)
    requires a.sortBy == Some(0) && a.gl == Some("") && !a.freeCancellation && a.bedrooms == 0
    ensures HotelParams(a, key).sortBy == Some(0)
    ensures HotelParams(a, key).gl.None? && HotelParams(a, key).freeCancellation.None?
    ensures HotelParams(a, key).bedrooms.None?
  {
  }

  /** The parameter dictionary, built as `_run` builds it: the mandatory entries, then one
      test per optional argument, in the order of the source. */
  method BuildParams(a: HotelArgs, key: string) returns (params: Params)
    ensures params == HotelParams(a, key)
  {
    params := Params(Engine, key, a.q, a.checkInDate, a.checkOutDate, a.adults, a.children,
                     None, None, None, None, None, None, None, None, None, None, None, None,
                     None, None, None, None, None, None, None, None);
    params := AddLocale(a, params);
    params := AddPriceFilters(a, params);
    params := AddQualityFilters(a, params);
    params := AddRentalFilters(a, params);
    params := AddTokens(a, params);
  }

  /** The tests on the country, language, currency and children's ages (lines 165-172). */
  method AddLocale(a: HotelArgs, p: Params) returns (params: Params)
    requires p.gl.None? && p.hl.None? && p.currency.None? && p.childrenAges.None?
    ensures params == p.(gl := IfTruthy(a.gl), hl := IfTruthy(a.hl), currency := IfTruthy(a.currency), childrenAges := IfTruthy(a.childrenAges))
  {
    params := p;
    if Truthy(a.gl) { params := params.(gl := Some(a.gl.value)); }
    if Truthy(a.hl) { params := params.(hl := Some(a.hl.value)); }
    if Truthy(a.currency) { params := params.(currency := Some(a.currency.value)); }
    if Truthy(a.childrenAges) { params := params.(childrenAges := Some(a.childrenAges.value)); }
  }

  /** The tests on the sort order, price bounds, property types and amenities (lines 173-182). */
  method AddPriceFilters(a: HotelArgs, p: Params) returns (params: Params)
    requires p.sortBy.None? && p.minPrice.None? && p.maxPrice.None? && p.propertyTypes.None? && p.amenities.None?
    ensures params == p.(sortBy := a.sortBy, minPrice := a.minPrice, maxPrice := a.maxPrice, propertyTypes := IfTruthy(a.propertyTypes), amenities := IfTruthy(a.amenities))
  {
    params := p;
    if a.sortBy.Some? { params := params.(sortBy := Some(a.sortBy.value)); }
    if a.minPrice.Some? { params := params.(minPrice := Some(a.minPrice.value)); }
    if a.maxPrice.Some? { params := params.(maxPrice := Some(a.maxPrice.value)); }
    if Truthy(a.propertyTypes) { params := params.(propertyTypes := Some(a.propertyTypes.value)); }
    if Truthy(a.amenities) { params := params.(amenities := Some(a.amenities.value)); }
  }

  /** The tests on the rating, brands, hotel class and the first two boolean filters (lines 183-192). */
  method AddQualityFilters(a: HotelArgs, p: Params) returns (params: Params)
    requires p.rating.None? && p.brands.None? && p.hotelClass.None? && p.freeCancellation.None? && p.specialOffers.None?
    ensures params == p.(rating := a.rating, brands := IfTruthy(a.brands), hotelClass := IfTruthy(a.hotelClass), freeCancellation := IfSet(a.freeCancellation), specialOffers := IfSet(a.specialOffers))
  {
    params := p;
    if a.rating.Some? { params := params.(rating := Some(a.rating.value)); }
    if Truthy(a.brands) { params := params.(brands := Some(a.brands.value)); }
    if Truthy(a.hotelClass) { params := params.(hotelClass := Some(a.hotelClass.value)); }
    if a.freeCancellation { params := params.(freeCancellation := Some("true")); }
    if a.specialOffers { params := params.(specialOffers := Some("true")); }
  }

  /** The tests on the last two boolean filters and the room counts (lines 193-200). */
  method AddRentalFilters(a: HotelArgs, p: Params) returns (params: Params)
    requires p.ecoCertified.None? && p.vacationRentals.None? && p.bedrooms.None? && p.bathrooms.None?
    ensures params == p.(ecoCertified := IfSet(a.ecoCertified), vacationRentals := IfSet(a.vacationRentals), bedrooms := IfPositive(a.bedrooms), bathrooms := IfPositive(a.bathrooms))
  {
    params := p;
    if a.ecoCertified { params := params.(ecoCertified := Some("true")); }
    if a.vacationRentals { params := params.(vacationRentals := Some("true")); }
    if a.bedrooms > 0 { params := params.(bedrooms := Some(a.bedrooms)); }
    if a.bathrooms > 0 { params := params.(bathrooms := Some(a.bathrooms)); }
  }

  /** The tests on the pagination and property tokens (lines 201-204). */
  method AddTokens(a: HotelArgs, p: Params) returns (params: Params)
    requires p.nextPageToken.None? && p.propertyToken.None?
    ensures params == p.(nextPageToken := IfTruthy(a.nextPageToken), propertyToken := IfTruthy(a.propertyToken))
  {
    params := p;
    if Truthy(a.nextPageToken) { params := params.(nextPageToken := Some(a.nextPageToken.value)); }
    if Truthy(a.propertyToken) { params := params.(propertyToken := Some(a.propertyToken.value)); }
  }

  // ---------------------------------------------------------------------------
  // The response and its cleaning
  // ---------------------------------------------------------------------------

  /** A JSON value read with `dict.get`: `null` (or a missing key) or some other value,
      kept as its text. */
  datatype Json = JNull | JValue(text: string)

  /** A place near a property: only its name is read. */
  datatype Place = Place(name: Field<string>)

  /** The price block of a property: only its lowest price is read. */
  datatype Rate = Rate(lowest: Field<string>)

  /** One entry of the `properties` list of the response, with the keys `_run` reads. */
  datatype Property = Property(
    kind: Field<string>,
    name: Field<string>,
    description: Field<string>,
    overallRating: Field<string>,
    ratePerNight: Field<Rate>,
    extractedHotelClass: Field<string>,
    nearbyPlaces: Field<seq<Place>>,
    link: Field<string>)

  /** The outcome of the HTTP call: a request error (including an HTTP error status), or a
      JSON body whose `properties` key may be missing or `null`. */
  datatype Response = RequestFailed(detail: string) | Body(properties: Field<seq<Property>>)

  /** `d.get(key)`: `None` when the key is missing or holds `null`. */
  function Get(f: Field<string>): (j: Json)
    ensures j == JNull <==> !f.Present?
    ensures f.Present? ==> j == JValue(f.value)
  {
    match f
    case Present(v) => JValue(v)
    case _ => JNull
  }

  predicate IsHotel(p: Property)
  {
    p.kind == Present(HotelType)
  }

  /** `[p for p in props if p.get("type") == "hotel"]`. */
  function HotelsOnly(props: seq<Property>): (r: seq<Property>)
    ensures |r| <= |props|
    ensures forall p :: p in r <==> p in props && IsHotel(p)
  {
    if props == [] then []
    else if IsHotel(props[0]) then [props[0]] + HotelsOnly(props[1..])
    else HotelsOnly(props[1..])
  }

  /** The filter keeps the order of the list: filtering a concatenation concatenates the
      filtered parts. */
  lemma {:induction false} HotelsOnlyDistributes(a: seq<Property>, b: seq<Property>)
    ensures HotelsOnly(a + b) == HotelsOnly(a) + HotelsOnly(b)
  {
    if a == [] {
      assert a + b == b;
    } else {
      assert (a + b)[1..] == a[1..] + b;
      HotelsOnlyDistributes(a[1..], b);
    }
  }

  /** The keys of a cleaned hotel. */
  const CleanKeys: set<string> := {"name", "description", "rating", "price", "hotel_class", "address", "url"}

  /** `hotel.get("rate_per_night", {}).get("lowest")`: a `null` price block raises
      AttributeError. */
  function Price(f: Field<Rate>): (r: Result<Json, PyError>)
    ensures r.Err? <==> f == Null
    ensures r.Err? ==> r.error == AttributeError
    ensures f == Absent ==> r == Ok(JNull)
    ensures f.Present? ==> r == Ok(Get(f.value.lowest))
  {
    match f
    case Absent => Ok(JNull)
    case Null => Err(AttributeError)
    case Present(rate) => Ok(Get(rate.lowest))
  }

  /** `hotel.get("nearby_places", [{}])[0].get("name", "No address info")`: the first
      nearby place names the address; a `null` list cannot be indexed and an empty one has no
      first element. */
  function Address(f: Field<seq<Place>>): (r: Result<Json, PyError>)
    ensures r.Err? <==> f == Null || f == Present([])
    ensures f == Null ==> r == Err(TypeError)
    ensures f == Present([]) ==> r == Err(IndexError)
    ensures f == Absent ==> r == Ok(JValue(NoAddress))
    ensures f.Present? && f.value != [] && f.value[0].name == Absent ==> r == Ok(JValue(NoAddress))
    ensures f.Present? && f.value != [] && f.value[0].name != Absent ==> r == Ok(Get(f.value[0].name))
  {
    match f
    case Absent => Ok(JValue(NoAddress))
    case Null => Err(TypeError)
    case Present(places) =>
      if places == [] then Err(IndexError)
      else if places[0].name == Absent then Ok(JValue(NoAddress))
      else Ok(Get(places[0].name))
  }

  /** One cleaned hotel: exactly the seven keys the answer shows, each read from its field of
      the property. */
  function Clean(h: Property): (r: Result<map<string, Json>, PyError>)
    ensures r.Ok? <==> Price(h.ratePerNight).Ok? && Address(h.nearbyPlaces).Ok?
    ensures r.Err? ==> r.error == (if Price(h.ratePerNight).Err? then AttributeError
                                   else Address(h.nearbyPlaces).error)
    ensures r.Ok? ==> r.value.Keys == CleanKeys
    ensures r.Ok? ==> r.value["name"] == Get(h.name) && r.value["description"] == Get(h.description)
                      && r.value["rating"] == Get(h.overallRating)
                      && r.value["price"] == Price(h.ratePerNight).value
                      && r.value["hotel_class"] == Get(h.extractedHotelClass)
                      && r.value["address"] == Address(h.nearbyPlaces).value
                      && r.value["url"] == Get(h.link)
  {
    match Price(h.ratePerNight)
    case Err(e) => Err(e)
    case Ok(price) =>
      match Address(h.nearbyPlaces)
      case Err(e) => Err(e)
      case Ok(address) =>
        Ok(map["name" := Get(h.name), "description" := Get(h.description),
               "rating" := Get(h.overallRating), "price" := price,
               "hotel_class" := Get(h.extractedHotelClass), "address" := address,
               "url" := Get(h.link)])
  }

  /** The cleaning loop of `_run`, appending one cleaned hotel per iteration; the first
      hotel that raises stops it. */
  method CleanResults(hotels: seq<Property>) returns (r: Result<seq<map<string, Json>>, PyError>)
    ensures r == MapResults(hotels, Clean)
  {
    var cleaned: seq<map<string, Json>> := [];
    var i := 0;
    while i < |hotels|
      invariant 0 <= i <= |hotels|
      invariant MapResults(hotels[..i], Clean) == Ok(cleaned)
    {
      var c := Clean(hotels[i]);
      if c.Err? {
        MapResultsStopsAt(hotels, i, Clean);
        return Err(c.error);
      }
      MapResultsSnoc(hotels[..i], hotels[i], Clean);
      assert hotels[..i + 1] == hotels[..i] + [hotels[i]];
      cleaned := cleaned + [c.value];
      i := i + 1;
    }
    assert hotels[..i] == hotels;
    r := Ok(cleaned);
  }

  // ---------------------------------------------------------------------------
  // The tool
  // ---------------------------------------------------------------------------

  /** What `_run` ends with. `Found` is the JSON answer, holding the cleaned hotels and the
      parameters sent; `Raised` is an exception that escapes `_run`. */
  datatype Reply =
    | MissingKey
    | ApiError(detail: string)
    | NoHotels
    | Found(results: seq<map<string, Json>>, params: Params)
    | Raised(error: PyError)

  /** The text `_run` returns for the replies that are plain messages. */
  function Message(r: Reply): (m: Option<string>)
    ensures m.Some? <==> r.MissingKey? || r.ApiError? || r.NoHotels?
    ensures r.MissingKey? ==> m == Some(NoKeyError)
    ensures r.ApiError? ==> m == Some(ApiErrorPrefix + r.detail)
    ensures r.NoHotels? ==> m == Some(NoHotelsMessage)
  {
    match r
    case MissingKey => Some(NoKeyError)
    case ApiError(d) => Some(ApiErrorPrefix + d)
    case NoHotels => Some(NoHotelsMessage)
    case _ => None
  }

  /** The first hotels, at most `Kept` of them: `hotel_results[:3]`. */
  function FirstKept(hotels: seq<Property>): (r: seq<Property>)
    ensures |r| == if |hotels| < Kept then |hotels| else Kept
    ensures r == hotels[..|r|]
  {
    if |hotels| < Kept then hotels else hotels[..Kept]
  }

  /** The hotel search, as a function of its arguments, the environment's key and the
      answer of the HTTP call to the parameters. */
  function HotelSearch(a: HotelArgs, env: Option<string>, fetch: Params -> Response): Reply
  {
    match ResolveKey(a.apiKey, env)
    case None => MissingKey
    case Some(key) =>
      var params := HotelParams(a, key);
      match fetch(params)
      case RequestFailed(d) => ApiError(d)
      case Body(props) =>
        if props == Null then Raised(TypeError)
        else
          var hotels := HotelsOnly(if props.Present? then props.value else []);
          if hotels == [] then NoHotels
          else
            match MapResults(FirstKept(hotels), Clean)
            case Err(e) => Raised(e)
            case Ok(cleaned) => Found(cleaned, params)
  }

  /** Without a key the tool answers with the key error and sends no request: its reply does
      not depend on the HTTP call. */
  lemma MissingKeySendsNothing(a: HotelArgs, env: Option<string>, f: Params -> Response, g: Params -> Response)
    requires !Truthy(a.apiKey) && !Truthy(env)
    ensures HotelSearch(a, env, f) == HotelSearch(a, env, g) == MissingKey
  {
  }

  /** With a key, the only request is the one made with `HotelParams`: two HTTP calls that
      agree on it give the same reply. */
  lemma OneRequest(a: HotelArgs, env: Option<string>, f: Params -> Response, g: Params -> Response)
    requires ResolveKey(a.apiKey, env).Some?
    requires f(HotelParams(a, ResolveKey(a.apiKey, env).value)) == g(HotelParams(a, ResolveKey(a.apiKey, env).value))
    ensures HotelSearch(a, env, f) == HotelSearch(a, env, g)
  {
  }

  /** A JSON answer holds one to three hotels, the first hotels of the response in order,
      each cleaned to the seven keys, and the parameters that were sent. */
  lemma FoundShape(a: HotelArgs, env: Option<string>, fetch: Params -> Response)
    requires HotelSearch(a, env, fetch).Found?
    ensures var r := HotelSearch(a, env, fetch);
            var key := ResolveKey(a.apiKey, env).value;
            var hotels := HotelsOnly(fetch(HotelParams(a, key)).properties.value);
            && r.params == HotelParams(a, key)
            && 1 <= |r.results| <= Kept
            && |r.results| == (if |hotels| < Kept then |hotels| else Kept)
            && forall i :: 0 <= i < |r.results| ==>
                 r.results[i].Keys == CleanKeys && r.results[i] == Clean(hotels[i]).value
  {
    var key := ResolveKey(a.apiKey, env).value;
    var props := fetch(HotelParams(a, key)).properties;
    var hotels := HotelsOnly(if props.Present? then props.value else []);
    assert HotelsOnly([]) == [];
    var kept := FirstKept(hotels);
    forall i | 0 <= i < |kept| ensures kept[i] == hotels[i] { }
  }

  /** The answer is "no hotels" exactly when the response lists properties (or none at all)
      and none of them has type "hotel". */
  lemma NoHotelsIffNoneIsAHotel(a: HotelArgs, env: Option<string>, fetch: Params -> Response)
    requires ResolveKey(a.apiKey, env).Some?
    requires fetch(HotelParams(a, ResolveKey(a.apiKey, env).value)).Body?
    ensures var props := fetch(HotelParams(a, ResolveKey(a.apiKey, env).value)).properties;
            HotelSearch(a, env, fetch) == NoHotels
            <==> props == Absent || (props.Present? && forall p :: p in props.value ==> !IsHotel(p))
  {
    var props := fetch(HotelParams(a, ResolveKey(a.apiKey, env).value)).properties;
    if props.Present? && HotelsOnly(props.value) != [] {
      assert HotelsOnly(props.value)[0] in HotelsOnly(props.value);
    }
  }

  /** `_run`: the key check, the parameters, the call, the filter and the cleaning loop. */
  method Run(a: HotelArgs, env: Option<string>, fetch: Params -> Response) returns (reply: Reply)
    ensures reply == HotelSearch(a, env, fetch)
  {
    var key := ResolveKey(a.apiKey, env);
    if key.None? {
      return MissingKey;
    }
    var params := BuildParams(a, key.value);
    var response := fetch(params);
    if response.RequestFailed? {
      return ApiError(response.detail);
    }
    if response.properties == Null {
      return Raised(TypeError);
    }
    var props := if response.properties.Present? then response.properties.value else [];
    var hotels := HotelsOnly(props);
    if hotels == [] {
      return NoHotels;
    }
    hotels := FirstKept(hotels);
    var cleaned := CleanResults(hotels);
    if cleaned.Err? {
      return Raised(cleaned.error);
    }
    reply := Found(cleaned.value, params);
  }

  /** `_arun` hands its arguments to `_run` unchanged. */
  method Arun(a: HotelArgs, env: Option<string>, fetch: Params -> Response) returns (reply: Reply)
    ensures reply == HotelSearch(a, env, fetch)
  {
    reply := Run(a, env, fetch);
  }
}
