/** What the two SerpApi tools (first_tests/hotels_tool.py, first_tests/flights_tool.py)
    share: the resolution of the API key and the shape of the query parameters. The HTTP
    call itself (`requests.get` on the search endpoint with a 60-second timeout) is foreign:
    each tool takes it as a function from the parameters to a response. */
module SerpApi {
  import opened Wrappers

  const NoKeyError: string := "Error: No SerpApi key provided (SERPAPI_API_KEY)."
  const ApiErrorPrefix: string := "Error during API call: "

  /** `api_key or os.getenv("SERPAPI_API_KEY")`, kept only when truthy: the argument wins
      when it is a non-empty string, the environment otherwise; no key when neither is. */
  function ResolveKey(apiKey: Option<string>, env: Option<string>): (k: Option<string>)
    ensures k.Some? <==> Truthy(apiKey) || Truthy(env)
    ensures Truthy(apiKey) ==> k == apiKey
    ensures !Truthy(apiKey) && Truthy(env) ==> k == env
    ensures k.Some? ==> k.value != ""
  {
    var key := if Truthy(apiKey) then apiKey else env;
    if Truthy(key) then key else None
  }

  /** A string argument is sent when truthy. */
  function IfTruthy(o: Option<string>): (v: Option<string>)
    ensures v.Some? <==> Truthy(o)
    ensures v.Some? ==> v == o
  {
    if Truthy(o) then o else None
  }

  /** A boolean flag is sent as the string "true" when set, and not at all otherwise. */
  function IfSet(b: bool): (v: Option<string>)
    ensures v.Some? <==> b
    ensures v.Some? ==> v.value == "true"
  {
    if b then Some("true") else None
  }
}
