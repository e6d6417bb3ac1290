# A verified model of a LangGraph travel assistant

The system is a travel assistant built on LangGraph. A root supervisor, steered by a
language model, routes work to three teams: research (web search and weather), the trip
planner (flights) and accommodation (hotels). Each team is itself a supervisor with worker
nodes, and every worker hands control back to its supervisor. A console loop reads the
user's messages, runs the root graph, and folds what the graph streams into the session log.
The workers' agents call four tools:
- a hotel search on Google Hotels through SerpApi;
- a flight search on Google Flights through SerpApi;
- a weather forecast from OpenWeatherMap;
- a WhatsApp sender.

A separate stand-in back end answers a web front end with canned replies.

The model is written in Dafny, one module per source file:

| file | module | models |
|---|---|---|
| `wrappers.dfy` | `Wrappers` | `Option`, `Result`, and `Field` (a dictionary key that is missing, `None`, or set); Python truthiness of strings; `MapResults`, the loop that appends `f(x)` for each `x` and stops at the first exception |
| `agency.dfy` | `Agency` | `first_tests/francis_agency.py`: the supervisor node, the four capability workers, the three team-delegation nodes, the four graphs, and an explicit runner with a step counter |
| `driver.dfy` | `Driver` | the console loop at the end of `first_tests/francis_agency.py`, as a class `Session` whose `messages` field the loop appends to |
| `serpapi.dfy` | `SerpApi` | what the two SerpApi tools share: key resolution and the inclusion tests for optional parameters |
| `hotels.dfy` | `Hotels` | `first_tests/hotels_tool.py`: the parameter dictionary, the hotel filter, truncation to three, and the cleaning loop |
| `flights.dfy` | `Flights` | `first_tests/flights_tool.py`: the parameter dictionary, including the round-trip rule for the return leg |
| `meteo.dfy` | `Meteo` | `first_tests/meteo_tool.py`: `get_readable_date` over the proleptic Gregorian calendar, the chain of early answers, and the one-line-per-day assembly |
| `whatsapp.dfy` | `WhatsApp` | `first_tests/whatsapp_tool.py`: the method dispatcher, its confirmations and its error strings |
| `backend.dfy` | `Backend` | `test_front_back/backend.py`: the canned reply chosen by input length |

The language model, the ReAct agents, the HTTP calls, the messaging library and the
environment are parameters of the model:
- the router and the agents are functions over message logs;
- each HTTP call is a function from the request parameters to a response;
- environment variables are optional strings.

Code that builds fresh values is written as functions. Code that mutates is written as
methods with loops, each proved equal to a specification function. This covers:
- the parameter dictionaries filled key by key;
- the cleaning and forecast loops;
- the console loop over `Session.messages`.

## Model

| member | source | states |
|---|---|---|
| Wrappers.MapResults | first_tests/hotels_tool.py:228-242 | mapping succeeds exactly when every element succeeds; the result then has one entry per element, in order, each the element's own result |
| Wrappers.MapResultsFailsAtFirst | first_tests/meteo_tool.py:141-151 | a failed mapping fails with the exception of the first element that raises, and every element before it succeeded |
| Wrappers.MapResultsSnoc | first_tests/meteo_tool.py:149-151 | appending one more successful element appends its result (the step of an append loop) |
| Wrappers.MapResultsStopsAt | first_tests/hotels_tool.py:229-242 | if the loop has succeeded up to element `i` and element `i` raises, the whole loop raises that exception |
| SerpApi.ResolveKey | first_tests/hotels_tool.py:149-151 | `api_key or getenv(...)`: the argument wins when non-empty, otherwise the environment; there is a key iff one of them is non-empty, and a key is never empty |
| SerpApi.IfTruthy | first_tests/hotels_tool.py:165-172 | a string option is sent iff it is truthy, and then unchanged |
| SerpApi.IfSet | first_tests/hotels_tool.py:189-196 | a boolean filter is sent iff it is set, as the string "true" |
| Hotels.IfPositive | first_tests/hotels_tool.py:197-200 | a room count is sent iff it is > 0, and then unchanged |
| Hotels.ZeroIsSentEmptyIsNot | first_tests/hotels_tool.py:165-200 | an integer filter of 0 is sent (`is not None`); an empty string option, an unset boolean and a room count of 0 are not |
| Hotels.BuildParams | first_tests/hotels_tool.py:154-204 | the dictionary built by the mandatory entries and the if-chain equals `HotelParams`: engine, key, q, dates, adults and children always; every optional key under its own inclusion rule |
| Hotels.AddLocale | first_tests/hotels_tool.py:165-172 | gl, hl, currency and children_ages are added when truthy; nothing else changes |
| Hotels.AddPriceFilters | first_tests/hotels_tool.py:173-182 | sort_by, min_price and max_price are added when not None; property_types and amenities when truthy; nothing else changes |
| Hotels.AddQualityFilters | first_tests/hotels_tool.py:183-192 | rating is added when not None; brands and hotel_class when truthy; the two boolean filters as "true" when set |
| Hotels.AddRentalFilters | first_tests/hotels_tool.py:193-200 | eco_certified and vacation_rentals are added as "true" when set; bedrooms and bathrooms when > 0 |
| Hotels.AddTokens | first_tests/hotels_tool.py:201-204 | the two page tokens are added when truthy; nothing else changes |
| Hotels.Get | first_tests/hotels_tool.py:232-240 | `dict.get(key)` is None iff the key is missing or null, and the stored value otherwise |
| Hotels.HotelsOnly | first_tests/hotels_tool.py:221 | the filter keeps exactly the properties of type "hotel" and never lengthens the list |
| Hotels.HotelsOnlyDistributes | first_tests/hotels_tool.py:221 | the filter keeps the original order: filtering `a + b` gives the filtered `a` followed by the filtered `b` |
| Hotels.FirstKept | first_tests/hotels_tool.py:226 | `[:3]` is the prefix of length min(3, n) |
| Hotels.Price | first_tests/hotels_tool.py:235 | a missing price block gives None; a null one raises AttributeError; otherwise the result is the block's `lowest` |
| Hotels.Address | first_tests/hotels_tool.py:237-239 | the first nearby place's name; "No address info" when the list or the name key is missing; a null list raises TypeError and an empty one IndexError |
| Hotels.Clean | first_tests/hotels_tool.py:230-241 | a cleaned hotel has exactly the keys name, description, rating, price, hotel_class, address and url, each read from its own field; it raises iff the price or the address raises |
| Hotels.CleanResults | first_tests/hotels_tool.py:228-242 | the cleaning loop equals `MapResults(hotels, Clean)`: one cleaned entry per hotel, in order, or the first exception |
| Hotels.Message | first_tests/hotels_tool.py:149-223 | exactly the three early answers are plain messages: the key error, the prefixed API error text, and "No hotels found for the given criteria." |
| Hotels.MissingKeySendsNothing | first_tests/hotels_tool.py:149-151 | with no key in the argument or the environment, the answer is the key error whatever the HTTP call would return |
| Hotels.OneRequest | first_tests/hotels_tool.py:207-213 | the only request made is the one carrying `HotelParams`: two HTTP functions that agree on it give the same answer |
| Hotels.FoundShape | first_tests/hotels_tool.py:218-250 | a successful answer holds exactly min(3, number of hotels) entries, the first hotels of the response in order, each cleaned to the seven keys, plus the parameters sent |
| Hotels.NoHotelsIffNoneIsAHotel | first_tests/hotels_tool.py:220-223 | "No hotels found" is answered exactly when the properties are missing or none of them has type "hotel" |
| Hotels.Run | first_tests/hotels_tool.py:117-257 | `_run` (key check, parameters, call, filter, cleaning loop) equals `HotelSearch` |
| Hotels.Arun | first_tests/hotels_tool.py:259-319 | `_arun` answers what `_run` answers for the same arguments |
| Flights.IfRoundTrip | first_tests/flights_tool.py:185-186 | a return-leg value is sent iff it is truthy and the trip type is 1, and then unchanged |
| Flights.ReturnLegOnlyOnRoundTrip | first_tests/flights_tool.py:183-210 | return_date and return_times are never sent unless the trip is a round trip; on a round trip a non-empty return date is sent as given |
| Flights.ZeroCapIsSentEmptyDateIsNot | first_tests/flights_tool.py:183-204 | a price cap of 0 is sent (`is not None`); an empty outbound date is not (truthiness) |
| Flights.BuildParams | first_tests/flights_tool.py:169-210 | the dictionary built by the mandatory entries and the if-chain equals `FlightParams`: engine, key, type, class, passengers and stops always; the optional keys under their rules |
| Flights.AddDatesAndAirports | first_tests/flights_tool.py:182-192 | the outbound date and airports are added when truthy; the return date only when truthy on a round trip |
| Flights.AddLocale | first_tests/flights_tool.py:194-200 | gl, hl and currency are added when truthy; nothing else changes |
| Flights.AddFilters | first_tests/flights_tool.py:202-210 | max_price is added when not None; outbound_times when truthy; return_times when truthy on a round trip; deep_search as "true" when set |
| Flights.MissingKeySendsNothing | first_tests/flights_tool.py:164-166 | with no key, the answer is the key error whatever the HTTP call would return |
| Flights.AnswerIsTheBody | first_tests/flights_tool.py:212-222 | with a key, the answer is the body of the one request made with `FlightParams`, or the request error after its prefix |
| Flights.Run | first_tests/flights_tool.py:133-222 | `_run` equals `FlightSearch` |
| Flights.Arun | first_tests/flights_tool.py:224-273 | `_arun` answers what `_run` answers for the same arguments |
| Meteo.MaxOrdinalIsEndOfMaxYear | first_tests/meteo_tool.py:67-68 | the largest representable day count is the number of days before year 10000 |
| Meteo.MonthsFillYear | first_tests/meteo_tool.py:69 | the twelve months add up to the length of the year |
| Meteo.DaysBeforeYearStep | first_tests/meteo_tool.py:69 | the closed day-count formula grows by exactly one year length from one year to the next |
| Meteo.CivilDateIsValid | first_tests/meteo_tool.py:67-69 | the date of day number n is a valid calendar date whose day number is n, and it falls in year 9999 or earlier iff n is below the maximum |
| Meteo.CivilDateOfOrdinal | first_tests/meteo_tool.py:67-69 | every valid date is the date of its own day number (so the two are inverse bijections) |
| Meteo.EpochIsThursdayFirstOfJanuary1970 | first_tests/meteo_tool.py:67 | Unix day 0 is 1 January 1970, and that day is a Thursday |
| Meteo.Digit | first_tests/meteo_tool.py:69 | the character written for a digit is a decimal digit that reads back as that digit |
| Meteo.Pad2 | first_tests/meteo_tool.py:69 | `%m` and `%d` are exactly two decimal digits that read back as the number |
| Meteo.Pad4 | first_tests/meteo_tool.py:69 | `%Y` is exactly four decimal digits that read back as the year |
| Meteo.DigitsValueOfPairs | first_tests/meteo_tool.py:69 | two digits written after two others: the first pair counts a hundred times as much |
| Meteo.RepresentableFitsTimeT | first_tests/meteo_tool.py:67 | a timestamp whose UTC day is in years 1-9999 fits the 64-bit `time_t` |
| Meteo.ReadableDate | first_tests/meteo_tool.py:63-69 | OverflowError for a timestamp outside `time_t`; ValueError iff it fits but the UTC day is outside years 1-9999; TypeError for a null offset; otherwise the local date of timestamp + offset, which succeeds iff that day is in range |
| Meteo.LocalDate | first_tests/meteo_tool.py:68-69 | the local date succeeds iff its day is representable; otherwise OverflowError |
| Meteo.LocalDateIsTheCalendarDate | first_tests/meteo_tool.py:68-69 | a readable date formats the valid date of years 1-9999 whose day number is the instant's day |
| Meteo.ReadableDateShift | first_tests/meteo_tool.py:63-69 | the readable date depends only on timestamp + offset: moving k seconds from one to the other changes nothing |
| Meteo.Shown | first_tests/meteo_tool.py:146-150 | a missing temperature raises KeyError; null prints "None"; otherwise the value itself |
| Meteo.Description | first_tests/meteo_tool.py:145 | "" without a weather key; a null list raises TypeError; an empty one IndexError; otherwise the first entry's description |
| Meteo.Block | first_tests/meteo_tool.py:142-146 | `day[key]` for a block indexed further: KeyError when missing, TypeError when null |
| Meteo.DayLine | first_tests/meteo_tool.py:141-151 | a line exists exactly when `dt` is set, the date converts, the description can be read, and `temp` holds day, min and max. Otherwise the first failure in the source's order is the error: KeyError for a missing `dt`, TypeError for a null one, then the date's error, the description's, `temp`'s, and KeyError for a missing temperature |
| Meteo.DayLineShape | first_tests/meteo_tool.py:149-151 | a line is "{date}: {description}, day={t}°C (min={t}°C, max={t}°C)" with the day's own values |
| Meteo.AssembleForecasts | first_tests/meteo_tool.py:140-151 | the forecast loop equals `MapResults(days, LineOf(offset))`: one line per day in order, or the first exception |
| Meteo.SplitLines | first_tests/meteo_tool.py:153 | splitting at newlines always gives at least one piece |
| Meteo.SplitLinesOfLine | first_tests/meteo_tool.py:153 | a newline-free prefix before a newline is split off as one piece |
| Meteo.SplitJoinLines | first_tests/meteo_tool.py:153 | `"\n".join` is undone by splitting at newlines when no line contains a newline |
| Meteo.Offset | first_tests/meteo_tool.py:139 | a missing timezone offset is 0, a null one is None, any other is itself |
| Meteo.MissingKeyLooksNothingUp | first_tests/meteo_tool.py:120-121 | an empty key answers the key error whatever the two lookups would return |
| Meteo.UnknownCityFetchesNothing | first_tests/meteo_tool.py:124-126 | a missing coordinate answers "City '...' not found ..." whatever the forecast lookup would return |
| Meteo.NoForecastAnswers | first_tests/meteo_tool.py:129-136 | after both lookups, a failed or empty forecast answers "Failed to fetch weather data.", and a missing, null or empty `daily` list answers "No daily forecast found in the weather data." |
| Meteo.OneLinePerDay | first_tests/meteo_tool.py:140-153 | a successful answer splits into exactly one line per daily entry, in input order, each that day's line |
| Meteo.Run | first_tests/meteo_tool.py:111-153 | `_run` (early answers, the loop over days, the join) equals `WeatherReport` |
| Meteo.Arun | first_tests/meteo_tool.py:155-166 | `_arun` answers what `_run` answers |
| WhatsApp.SendMsgToBrother | first_tests/whatsapp_tool.py:83-88 | the send goes to the brother's number; the answer is "Message envoyé au Frère: {content}" iff the library did not raise |
| WhatsApp.SendMsgToNumber | first_tests/whatsapp_tool.py:90-95 | the send goes to the given number; the answer is "Message envoyé au numéro {n}: {content}" iff the library did not raise |
| WhatsApp.Run | first_tests/whatsapp_tool.py:46-69 | the dispatcher sends once for the two known methods. With a missing or empty number it answers the fixed error and sends nothing. An unknown method gets the unknown-method error with nothing sent. A send that goes through answers "Message envoyé au Frère: {content}" or "Message envoyé au numéro {number}: {content}". A raised send becomes "Error while sending WhatsApp message: ..." |
| WhatsApp.Report | first_tests/whatsapp_tool.py:56-69 | the `except` clause: a confirmation passes through; an exception becomes the error prefix followed by its text |
| WhatsApp.Arun | first_tests/whatsapp_tool.py:71-80 | `_arun` answers what `_run` answers |
| WhatsApp.ConfirmationIffDelivered | first_tests/whatsapp_tool.py:56-95 | the answer is a confirmation iff exactly one message was handed to the library and it did not raise; every other answer starts with "Error" |
| WhatsApp.SendsCarryContent | first_tests/whatsapp_tool.py:57-62 | every attempted send carries the content unchanged, and has a recipient unless the brother's number is unset |
| Backend.ProcessUserInput | test_front_back/backend.py:9-16 | the reply is one of the four canned strings, the one whose index is the input length modulo 4 |
| Backend.ReplyDependsOnlyOnLength | test_front_back/backend.py:16 | inputs of equal length get the same reply |
| Backend.ReplyHasPeriodFour | test_front_back/backend.py:16 | inputs whose lengths differ by a multiple of 4 get the same reply |
| Backend.EmptyInputIsGreeted | test_front_back/backend.py:9-16 | the empty input gets the greeting |
| Agency.FieldOf | first_tests/francis_agency.py:83 | an optional router field always lands in the update: None as null, a value as itself |
| Agency.RouterInput | first_tests/francis_agency.py:70-72 | the router sees one system message with the prompt, followed by the whole team history in order |
| Agency.SupervisorNode | first_tests/francis_agency.py:68-86 | goto is END iff the router's next is "FINISH" (or the end sentinel itself); any other name passes unchanged and is not checked. The update's next is the goto; instructions and answer are copied verbatim |
| Agency.CapabilityWorker | first_tests/francis_agency.py:108-117 | a worker routes to "supervisor" with exactly one message: a human message holding the content of the agent's last message, named after the worker; IndexError iff the agent returned no message |
| Agency.TrimStart | first_tests/francis_agency.py:151 | a suffix of the input, with only whitespace removed before it, that does not start with whitespace |
| Agency.TrimEnd | first_tests/francis_agency.py:151 | a prefix of the input, with only whitespace removed after it, that does not end with whitespace |
| Agency.Strip | first_tests/francis_agency.py:151 | `str.strip()` is never longer than its input |
| Agency.StripIsTrimmedSlice | first_tests/francis_agency.py:151 | `str.strip()` is a slice of the input, with only whitespace cut on either side, and neither starts nor ends with whitespace; it is empty iff the input is all whitespace |
| Agency.StripIdempotent | first_tests/francis_agency.py:151 | stripping twice is stripping once |
| Agency.SeedAsWritten | first_tests/francis_agency.py:151-153 | as written, instructions set to None make `.strip()` raise AttributeError |
| Agency.Seed | first_tests/francis_agency.py:151-153 | the seed is the stripped instructions when non-empty; otherwise the last message's content, or IndexError when there is none |
| Agency.SeedDiffersOnlyOnNullInstructions | first_tests/francis_agency.py:151-153 | the two seeds agree unless the instructions are None; then the code as written raises where the intended seed is the last message |
| Agency.NullInstructionsRaise | first_tests/francis_agency.py:79-151 | a concrete run: the root router sends the trip team `None` instructions with an answer, the update applies, and the delegation as written raises AttributeError where the corrected seed is the answer |
| Agency.ChildState | first_tests/francis_agency.py:154-156 | the child starts with exactly one message, the seed, named after the team, and no routing keys |
| Agency.Delegate | first_tests/francis_agency.py:150-166 | with the corrected seed, delegation returns to "supervisor" with exactly one message: the child's final message, renamed to the team. A seed or child failure is the result's error, and an empty child log raises IndexError |
| Agency.DelegateAsWritten | first_tests/francis_agency.py:150-166 | the delegation node as written agrees with `Delegate` unless the stored instructions are None, where it raises AttributeError |
| Agency.DelegationSeesOnlyTheLastChildMessage | first_tests/francis_agency.py:157-166 | two child runs ending on the same content give the parent the same command: no other child message crosses |
| Agency.ResearchTeam | first_tests/francis_agency.py:141-147 | the research graph's workers are exactly "search" and "meteo", each the capability worker over its own agent |
| Agency.TripTeam | first_tests/francis_agency.py:191-195 | the trip graph's only worker is "flight", the capability worker over the flight agent |
| Agency.AccommodationTeam | first_tests/francis_agency.py:239-243 | the accommodation graph's only worker is "hotel", the capability worker over the hotel agent |
| Agency.RootTeam | first_tests/francis_agency.py:267-273 | the root graph's workers are exactly the three teams, each the delegation node to its own child run |
| Agency.AgencyTeamsAreStars | first_tests/francis_agency.py:108-262 | in all four graphs, every worker that returns a command routes to its supervisor |
| Agency.Apply | first_tests/francis_agency.py:79-86 | a supervisor update whose answer is None raises, and only that update does; any other update appends its messages to the log and overwrites next and instructions only when written |
| Agency.SilentSupervisorRaises | first_tests/francis_agency.py:66-86 | a supervisor that routes without an answer ends the run with the reducer's exception, before the node it named runs |
| Agency.RunIsBounded | first_tests/francis_agency.py:329 | a run executes at most as many nodes as its step counter allows |
| Agency.RunOnlyAppends | first_tests/francis_agency.py:79-86 | over a whole run, the final log is the starting log followed by what the streamed updates append |
| Agency.RunIsStar | first_tests/francis_agency.py:146 | every run starts at the supervisor. No worker follows a worker, each worker that runs is the next its supervisor just wrote, and a finished run ends on a supervisor step |
| Agency.StarFrom | first_tests/francis_agency.py:146 | the star shape of a run starting from any node |
| Agency.DelegationToFinishedChild | first_tests/francis_agency.py:150-166 | delegating to a child team whose run finishes adds exactly one message to the parent, the child's final message under the team's name, however many steps the child took |
| Driver.Absorb | first_tests/francis_agency.py:332-357 | one node's update appends at most one message: the last element of a list, or a non-empty string wrapped under the node's name. It aborts the turn on None messages or instructions, or on a missing emoji |
| Driver.FoldEntries | first_tests/francis_agency.py:329-359 | folding updates only appends, at most one message per update |
| Driver.FoldSplits | first_tests/francis_agency.py:329-359 | folding two stretches is folding the first and, unless it aborted, the second |
| Driver.Flatten | first_tests/francis_agency.py:329-332 | a stream flattens to as many updates as its chunks hold |
| Driver.TurnShape | first_tests/francis_agency.py:311-323 | "exit" (any case) and the empty input leave the log alone; any other input appends exactly one "user" message before the graph runs, then at most one per streamed update |
| Driver.Conversation | first_tests/francis_agency.py:311-365 | a conversation reads no more inputs than it was given, and stops early only right after an exit |
| Driver.NoExitBeforeTheLastRead | first_tests/francis_agency.py:311-320 | every input read before the last one read was an ordinary turn, not an exit |
| Driver.ExitEndsConversation | first_tests/francis_agency.py:315-317 | nothing typed after an exit is read or changes the log |
| Driver.ConversationOnlyAppends | first_tests/francis_agency.py:311-365 | the session log only grows over a conversation |
| Driver.StreamAbortsAt | first_tests/francis_agency.py:364-365 | once an update raises, the rest of the stream is not folded |
| Driver.FlattenSplits | first_tests/francis_agency.py:329-332 | a stream flattens to the chunks before i, chunk i, and the chunks after it |
| Driver.Session.constructor | first_tests/francis_agency.py:297 | the session starts with an empty log |
| Driver.Session.Turn | first_tests/francis_agency.py:311-365 | one loop iteration. The new log is `AfterTurn` of the old, and the status is Exit iff the input is "exit". It is Skipped iff the input is empty, and Aborted iff folding the stream raised |
| Driver.Session.AbsorbUpdate | first_tests/francis_agency.py:332-357 | the inner loop's body appends and reports exactly what `Absorb` says |
| Driver.Session.Converse | first_tests/francis_agency.py:311-365 | the console loop over a finite list of inputs yields `Conversation`: the inputs read and the final log |

## Left out

- The language model and the ReAct agents are opaque function parameters. Prompts (`first_tests/prompts.py`), `date.today()` and the callback handler are not modelled.
- The LangGraph runtime is not modelled. `Agency.RunFrom` assumes the message reducer appends an update's `messages` (a list as-is, a string as one message) and overwrites the other keys. It raises on a `None` answer, which the reducer cannot turn into a message. It plays only the transitions the nodes declare.
- Agency.Apply: the exception for a `None` answer depends on the library version. Recent LangGraph raises ValueError, and older versions raise NotImplementedError from the message coercion. The model keeps only that the run raises, as ValueError.
- Agency.RunIsBounded: the step counter is a plain ceiling on node executions, not LangGraph's exact `recursion_limit` accounting.
- Agency.SupervisorNode: the router is a function over the message log; its structured-output parsing and validation are not modelled.
- Driver: printing, the emoji legend and graph drawing (matplotlib, mermaid) are left out. Only the dictionary look-ups that can raise are kept. `KeyboardInterrupt` and console end-of-file are not modelled; `Converse` stops at the end of its input list.
- Driver.Session.Turn: the graph is a function from the starting log to its stream of chunks, so a chunk cannot depend on an earlier chunk having been printed.
- The network is a set of function parameters:
  - `requests.get` and `raise_for_status`;
  - the geo-lookup query string;
  - timeouts;
  - `fetch_city_coordinates` and `fetch_weather_data`, whose error handling is folded into the `None` they return.
- A body that `response.json()` cannot decode is not modelled.
- Hotels.Run: returns the cleaned results and the parameters instead of the `json.dumps` text. `raw_meta.serpapi_metadata` and the serialisation itself are not modelled.
- Hotels.BuildParams, Flights.BuildParams: the dictionaries are records with one field per key, so their insertion order is not modelled.
- Hotels.Clean: JSON numbers and floats are opaque text with no arithmetic. A `rate_per_night` or nearby place that is not a dictionary is not modelled.
- Malformed JSON shapes: the records hold only well-formed shapes, so these are not modelled:
  - an entry of `daily`, `weather` or `properties` that is `null` or not an object, where Python raises TypeError, or AttributeError from `p.get`;
  - a forecast or hotels body that is a JSON array or scalar, where `.get` raises AttributeError.
- Meteo: temperatures and coordinates are opaque text. A `dt` or `timezone_offset` that is not an integer (a float, a string) is not modelled; `null` is.
- Meteo.Format: `%Y` is written with four digits, as Python documents it. Interpreters that hand `%Y` to the C library of Linux unchanged write years below 1000 without padding; that variant is not modelled.
- Meteo.ReadableDate: a timestamp that fits `time_t` but whose year overflows the C library's `gmtime` (beyond about ±6.7·10^16 seconds) raises OSError in Python; the model answers ValueError there, as for every other year outside 1-9999.
- Agency.Delegate: the root graph (`Agency.RootTeam`) and `Agency.DelegationToFinishedChild` use the corrected seed. The as-written node is `Agency.DelegateAsWritten`, and it differs only on instructions that are None.
- Environment variables (`SERPAPI_API_KEY`, `METEO_API_KEY`, `BROTHER_NUMBER`) and `load_dotenv` are plain parameters.
- The input schemas' defaults are not enforced; the model takes every argument explicitly.
- WhatsApp: `pywhatkit` is the parameter `deliver`. Only whether it raised, and the text of its exception, are modelled.
- Backend.ProcessUserInput: the three-second `time.sleep` is left out.
- `first_tests/meteo.py` duplicates the weather helpers with a printing demo, and is not part of this model. Neither are `first_tests/langgraph_test.py` (prebuilt tool wiring and a console loop) or `test_front_back/app.py` (the Streamlit interface).
- A router that returns `"__end__"` itself also ends the run, because the name passes through unchanged. A `next` that names no node is reported by the runner as `UndeclaredNode`; the source does not check it.

## Findings

| source | as written | input that shows it | evidently intended | confidence | as-written member | corrected member |
|---|---|---|---|---|---|---|
| first_tests/francis_agency.py:151 (and 199, 247) | `state.get("instructions", "").strip()` calls `.strip()` on whatever the supervisor stored. The router's `instructions` is optional, so the stored value can be `None`, and `None.strip()` raises AttributeError | the root router answers `{"next": "trip_planner", "instructions": None, "answer": "Je cherche un vol."}` to one user message. The answer must not be None, because the message reducer raises on a None answer before the trip team runs. This happens when the root graph is invoked directly; in the console loop, `len(None)` on the supervisor's streamed instructions (lines 351-354) ends the turn first | missing, `None` or blank instructions all fall back to the content of the last message | medium, not executed | Agency.SeedAsWritten, Agency.DelegateAsWritten, Agency.NullInstructionsRaise | Agency.Seed, Agency.Delegate |
