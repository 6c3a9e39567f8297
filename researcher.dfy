/** The research agent (lib/agents/researcher.tsx). One completion request
    may ask for the `search` function; the agent then calls the Tavily search
    API with defaulted arguments and reports the serialised search result.
    Otherwise it reports the reply's text. Any error anywhere gives a fixed
    apology and no completion result. */
module Researcher {
  import opened Wrappers
  import opened JsValue
  import opened Completion

  const SEARCH_PREFIX := "Based on the search results: "
  const NO_RESPONSE := "No response generated"
  const ERROR_RESPONSE := "I encountered an error while trying to research this topic. Please try again."
  const MISSING_KEY_MESSAGE := "TAVILY_API_KEY is not configured"
  const API_ERROR_PREFIX := "Tavily API error: "
  const DEFAULT_MAX_RESULTS := 10.0
  const MIN_MAX_RESULTS := 5.0
  const DEFAULT_SEARCH_DEPTH := "basic"

  /** The three arguments `researcher` passes to `tavilySearch`. */
  datatype SearchCall = SearchCall(query: Value, maxResults: Value, searchDepth: Value)

  /** The JSON body POSTed to the Tavily search endpoint. */
  datatype SearchRequest = SearchRequest(
    apiKey: string,
    query: Value,
    maxResults: Value,
    searchDepth: Value,
    includeImages: bool,
    includeAnswers: bool)

  /** An HTTP response: its status and its body read as JSON (None when the
      body is not JSON, so that `response.json()` rejects). */
  datatype HttpResponse = HttpResponse(status: nat, body: Option<Value>)

  /** What `fetch` does with a request: a response, or a rejection. */
  datatype FetchOutcome = NetworkError | Received(response: HttpResponse)

  type Fetch = SearchRequest -> FetchOutcome

  /** Why `tavilySearch` throws. */
  datatype SearchError =
    | MissingApiKey
    | ApiError(status: nat, detail: Value)
    | FetchFailed
    | MalformedBody
    | MaxResultsNotConvertible

  /** Why `researcher` ends in its catch block. */
  datatype ResearchError =
    | CompletionFailed
    | MalformedArguments
    | ArgumentsNullish
    | SearchFailed(cause: SearchError)

  /** What `researcher` returns: the completion result (null on error) and
      the response text. */
  datatype Research = Research(result: Option<Message>, fullResponse: string)

  /** `response.ok`. */
  predicate IsOk(status: nat) {
    200 <= status <= 299
  }

  /** Argument defaulting: a falsy `max_results` becomes 10 and a
      falsy `search_depth` becomes 'basic'; `query` is passed as it is.
      Reading the fields of null or undefined arguments throws. */
  function SearchArgs(args: Value): (r: Option<SearchCall>)
    ensures r.None? <==> args.Null? || args.Undefined?
    ensures r.Some? ==> r.value.query == Prop(args, "query")
    ensures r.Some? && Truthy(Prop(args, "max_results")) ==> r.value.maxResults == Prop(args, "max_results")
    ensures r.Some? && !Truthy(Prop(args, "max_results")) ==> r.value.maxResults == Num(DEFAULT_MAX_RESULTS)
    ensures r.Some? && Truthy(Prop(args, "search_depth")) ==> r.value.searchDepth == Prop(args, "search_depth")
    ensures r.Some? && !Truthy(Prop(args, "search_depth")) ==> r.value.searchDepth == Str(DEFAULT_SEARCH_DEPTH)
    ensures r.Some? ==> Truthy(r.value.maxResults) && Truthy(r.value.searchDepth)
  {
    match Get(args, "query")
    case None => None
    case Some(query) =>
      var maxResults := Get(args, "max_results");
      var searchDepth := Get(args, "search_depth");
      if maxResults.None? || searchDepth.None? then None
      else Some(SearchCall(query, Or(maxResults.value, Num(DEFAULT_MAX_RESULTS)), Or(searchDepth.value, Str(DEFAULT_SEARCH_DEPTH))))
  }

  /** `maxResults < 5 ? 5 : maxResults`: a number sent to the search API is
      never below 5, and a number of at least 5 is kept. An object with its
      own `toString` field cannot be compared, and the comparison throws
      (None). */
  function ClampMaxResults(v: Value): (r: Option<Value>)
    ensures r.None? <==> v.Obj? && "toString" in v.fields
    ensures r.Some? && r.value.Num? ==> r.value.n >= MIN_MAX_RESULTS
    ensures v.Num? ==> r.Some? && r.value.Num?
                       && (v.n >= MIN_MAX_RESULTS ==> r.value == v)
                       && (v.n < MIN_MAX_RESULTS ==> r.value.n == MIN_MAX_RESULTS)
    ensures r.Some? ==> r.value == v || r.value == Num(MIN_MAX_RESULTS)
  {
    match LessThan(v, MIN_MAX_RESULTS)
    case None => None
    case Some(below) => Some(if below then Num(MIN_MAX_RESULTS) else v)
  }

  /** The body `tavilySearch` sends for a call with a configured key, or
      None when building it throws. */
  function RequestFor(apiKey: string, call: SearchCall): (req: Option<SearchRequest>)
    ensures req.None? <==> ClampMaxResults(call.maxResults).None?
    ensures req.Some? ==>
              && req.value.apiKey == apiKey && req.value.query == call.query && req.value.searchDepth == call.searchDepth
              && req.value.maxResults == ClampMaxResults(call.maxResults).value
              && req.value.includeImages && req.value.includeAnswers
    ensures req.Some? && req.value.maxResults.Num? ==> req.value.maxResults.n >= MIN_MAX_RESULTS
  {
    match ClampMaxResults(call.maxResults)
    case None => None
    case Some(maxResults) => Some(SearchRequest(apiKey, call.query, maxResults, call.searchDepth, true, true))
  }

  /** `tavilySearch`. A missing or empty key throws before any request
      exists, so the outcome does not depend on `fetch`. A `max_results` that
      cannot be compared throws while the body is built, again before the
      request is sent. A non-ok status throws with the status and the error
      body (`{}` when the body is not JSON). An ok response gives its JSON
      body. */
  function TavilySearch(apiKey: Option<string>, call: SearchCall, fetch: Fetch): (r: Result<Value, SearchError>)
    ensures apiKey.None? || apiKey.value == "" ==> r == Failure(MissingApiKey)
    ensures apiKey.Some? && apiKey.value != "" && RequestFor(apiKey.value, call).None? ==>
              r == Failure(MaxResultsNotConvertible)
    ensures apiKey.Some? && apiKey.value != "" && RequestFor(apiKey.value, call).Some? ==>
              var outcome := fetch(RequestFor(apiKey.value, call).value);
              && (outcome.NetworkError? ==> r == Failure(FetchFailed))
              && (outcome.Received? && !IsOk(outcome.response.status) ==>
                    && r.Failure? && r.error.ApiError?
                    && r.error.status == outcome.response.status
                    && (outcome.response.body.Some? ==> r.error.detail == outcome.response.body.value)
                    && (outcome.response.body.None? ==> r.error.detail == Obj(map[])))
              && (outcome.Received? && IsOk(outcome.response.status) ==>
                    if outcome.response.body.Some? then r == Success(outcome.response.body.value)
                    else r == Failure(MalformedBody))
    // a search result is only ever the body of an ok response to the request built from the call
    ensures r.Success? ==>
              && apiKey.Some?
              && RequestFor(apiKey.value, call).Some?
              && fetch(RequestFor(apiKey.value, call).value).Received?
              && IsOk(fetch(RequestFor(apiKey.value, call).value).response.status)
              && fetch(RequestFor(apiKey.value, call).value).response.body == Some(r.value)
  {
    if apiKey.None? || apiKey.value == "" then Failure(MissingApiKey)
    else
      match RequestFor(apiKey.value, call)
      case None => Failure(MaxResultsNotConvertible)
      case Some(request) =>
        match fetch(request)
        case NetworkError => Failure(FetchFailed)
        case Received(response) =>
          if !IsOk(response.status) then
            var detail := if response.body.Some? then response.body.value else Obj(map[]);
            Failure(ApiError(response.status, detail))
          else if response.body.None? then Failure(MalformedBody)
          else Success(response.body.value)
  }

  /** The message of the error thrown for a non-ok status. */
  function ApiErrorMessage(status: nat, detail: Value, stringify: Serializer): string {
    API_ERROR_PREFIX + NatToString(status) + " - " + stringify(detail)
  }

  /** The message `tavilySearch` throws with, for the two errors it raises
      itself; a rejected fetch or body read carries the platform's own
      message, which is not modelled (None). */
  function SearchErrorMessage(e: SearchError, stringify: Serializer): Option<string> {
    match e
    case MissingApiKey => Some(MISSING_KEY_MESSAGE)
    case ApiError(status, detail) => Some(ApiErrorMessage(status, detail, stringify))
    case _ => None
  }

  /** The status code a Tavily error message names, read from its digits. */
  function StatusInMessage(message: string): Option<nat> {
    if API_ERROR_PREFIX <= message then
      var digits := LeadingDigits(message[|API_ERROR_PREFIX|..]);
      if digits == [] then None else Some(DigitsValue(digits))
    else None
  }

  /** The message of a non-ok response carries its status code: it can be
      read back from the message whatever the error body is. */
  lemma ApiErrorMessageNamesStatus(status: nat, detail: Value, stringify: Serializer)
    ensures StatusInMessage(SearchErrorMessage(ApiError(status, detail), stringify).value) == Some(status)
  {
    var digits := NatToString(status);
    var rest := " - " + stringify(detail);
    var message := ApiErrorMessage(status, detail, stringify);
    assert message == API_ERROR_PREFIX + (digits + rest);
    assert message[|API_ERROR_PREFIX|..] == digits + rest;
    LeadingDigitsOfDigitsThen(digits, rest);
    NatToStringRoundTrip(status);
  }

  /** The function-call path up to the search result: parse
      the arguments, default them, search. */
  function RunSearch(call: FunctionCall, parse: Parser, apiKey: Option<string>, fetch: Fetch): (r: Result<Value, ResearchError>)
    ensures parse(call.arguments).None? ==> r == Failure(MalformedArguments)
    ensures parse(call.arguments).Some? && SearchArgs(parse(call.arguments).value).None? ==>
              r == Failure(ArgumentsNullish)
    // parsed arguments that are not null or undefined always run the search, and its outcome is passed on
    ensures parse(call.arguments).Some? && SearchArgs(parse(call.arguments).value).Some? ==>
              var t := TavilySearch(apiKey, SearchArgs(parse(call.arguments).value).value, fetch);
              && (t.Success? ==> r == Success(t.value))
              && (t.Failure? ==> r == Failure(SearchFailed(t.error)))
    ensures r.Success? ==>
              && parse(call.arguments).Some?
              && SearchArgs(parse(call.arguments).value).Some?
              && TavilySearch(apiKey, SearchArgs(parse(call.arguments).value).value, fetch) == Success(r.value)
    ensures r.Failure? && r.error.SearchFailed? ==>
              && parse(call.arguments).Some?
              && SearchArgs(parse(call.arguments).value).Some?
              && TavilySearch(apiKey, SearchArgs(parse(call.arguments).value).value, fetch) == Failure(r.error.cause)
  {
    match parse(call.arguments)
    case None => Failure(MalformedArguments)
    case Some(args) =>
      match SearchArgs(args)
      case None => Failure(ArgumentsNullish)
      case Some(searchCall) =>
        match TavilySearch(apiKey, searchCall, fetch)
        case Success(data) => Success(data)
        case Failure(e) => Failure(SearchFailed(e))
  }

  /** `researcher` for one completion reply. */
  function Researcher(reply: Reply, parse: Parser, stringify: Serializer, apiKey: Option<string>, fetch: Fetch): (r: Research)
    // the response text is never empty
    ensures r.fullResponse != ""
    // a result is reported only with the reply it came from; a null result comes with the apology
    ensures r.result.Some? ==> reply == Replied(r.result.value)
    ensures r.result.None? ==> r.fullResponse == ERROR_RESPONSE
    ensures reply.Threw? ==> r == Research(None, ERROR_RESPONSE)
    // function-call path: the serialised search result behind a fixed prefix, or the apology on any error
    ensures reply.Replied? && reply.message.functionCall.Some? ==>
              var search := RunSearch(reply.message.functionCall.value, parse, apiKey, fetch);
              && (search.Success? ==> r == Research(Some(reply.message), SEARCH_PREFIX + stringify(search.value)))
              && (search.Failure? ==> r == Research(None, ERROR_RESPONSE))
    // text path: the content, or a fixed notice when there is none
    ensures reply.Replied? && reply.message.functionCall.None? ==>
              && r.result == Some(reply.message)
              && (HasText(reply.message) ==> r.fullResponse == reply.message.content.value)
              && (!HasText(reply.message) ==> r.fullResponse == NO_RESPONSE)
  {
    match reply
    case Threw => Research(None, ERROR_RESPONSE)
    case Replied(message) =>
      match message.functionCall
      case Some(call) =>
        (match RunSearch(call, parse, apiKey, fetch)
         case Success(data) => Research(Some(message), SEARCH_PREFIX + stringify(data))
         case Failure(_) => Research(None, ERROR_RESPONSE))
      case None =>
        Research(Some(message), if HasText(message) then message.content.value else NO_RESPONSE)
  }

  /** Without a configured key every search request ends in the apology,
      whatever the network would have answered. */
  lemma MissingKeyGivesErrorResponse(message: Message, parse: Parser, stringify: Serializer, apiKey: Option<string>, fetch: Fetch)
    requires message.functionCall.Some?
    requires apiKey.None? || apiKey.value == ""
    ensures Researcher(Replied(message), parse, stringify, apiKey, fetch) == Research(None, ERROR_RESPONSE)
  {
  }

  /** A numeric `max_results` reaches the search API as the larger of itself
      and 5; a missing or falsy one reaches it as 10. This holds for any
      arguments that are not null or undefined. */
  lemma SentMaxResults(args: Value, apiKey: string)
    requires !args.Null? && !args.Undefined?
    ensures var req := RequestFor(apiKey, SearchArgs(args).value);
            && (Prop(args, "max_results").Num? && Prop(args, "max_results").n != 0.0 ==>
                  req == Some(SearchRequest(apiKey, Prop(args, "query"),
                                            Num(if Prop(args, "max_results").n < MIN_MAX_RESULTS then MIN_MAX_RESULTS else Prop(args, "max_results").n),
                                            SearchArgs(args).value.searchDepth, true, true)))
            && (!Truthy(Prop(args, "max_results")) ==> req.Some? && req.value.maxResults == Num(DEFAULT_MAX_RESULTS))
  {
  }

  /** A `max_results` object with its own `toString` field makes the
      comparison throw, so a configured search ends in the apology and no
      request reaches the network. */
  lemma UnconvertibleMaxResultsGivesErrorResponse(message: Message, parse: Parser, stringify: Serializer,
                                                  key: string, fetch: Fetch, fields: map<string, Value>)
    requires message.functionCall.Some?
    requires key != ""
    requires parse(message.functionCall.value.arguments).Some?
    requires parse(message.functionCall.value.arguments).value.Obj?
    requires Prop(parse(message.functionCall.value.arguments).value, "max_results") == Obj(fields)
    requires "toString" in fields
    ensures Researcher(Replied(message), parse, stringify, Some(key), fetch) == Research(None, ERROR_RESPONSE)
  {
  }
}
