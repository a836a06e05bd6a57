/**
 * The application state machine: the request being edited, the bounded history of sent
 * requests, the current response or error, and the analysis of the response. Each user
 * action and each settled asynchronous call is one pure transition. The clock, the JSON
 * parser, the network and the language model are inputs: a transition receives what they
 * returned.
 */
module App {
  import opened Options
  import opened Text
  import opened Records
  import opened Types
  import ResponseDisplay
  import ApiConfigPanel
  import opened GeminiService

  /** The history keeps the most recent 50 requests. */
  const HistoryCapacity: nat := 50

  const InvalidHeadersMessage := "Invalid headers: Please provide valid JSON."
  const UnknownNetworkError := "An unknown network error occurred."
  const CorsHint := "\n\nThis might be a CORS issue. Please ensure your backend server is configured to accept requests from this origin."
  const AnalysisErrorPrefix := "Error analyzing response: "

  const InitialRequest := ApiRequest(
    GET,
    "https://jsonplaceholder.typicode.com/todos/1",
    "{\n  \"Content-Type\": \"application/json\"\n}",
    "")

  /** `analysis` is the source's `geminiAnalysis`. */
  datatype AppState = AppState(
    history: seq<HistoryItem>,
    request: ApiRequest,
    response: Option<ApiResponse>,
    loading: bool,
    error: Option<string>,
    analysis: Option<string>,
    isAnalyzing: bool)

  function Init(): AppState
  {
    AppState([], InitialRequest, None, false, None, None, false)
  }

  /** `JSON.parse`: the value a text denotes, or None when it throws a syntax error. */
  type JsonParser = string -> Option<Json>

  function Min(a: int, b: int): int
  {
    if a <= b then a else b
  }

  /** The header object sent with a request. Blank text gives the empty object without
      consulting the parser; any other text is parsed, and whatever JSON value comes out,
      object or not, is used as is. Only a syntax error rejects. */
  function ParseHeaders(text: string, parse: JsonParser): (r: Option<Json>)
    ensures IsBlank(text) ==> r == Some(JObject([]))
    ensures !IsBlank(text) ==> r == parse(text)
  {
    TrimEmptyIffBlank(text);
    if Trim(text) != "" then parse(text) else Some(JObject([]))
  }

  /** The body handed to `fetch`: absent for GET and HEAD, the editor text verbatim
      for every other method. */
  function OutgoingBody(request: ApiRequest): (b: Option<string>)
    ensures b.None? <==> request.verb in {GET, HEAD}
    ensures b.Some? ==> b.value == request.body
  {
    if request.verb == GET || request.verb == HEAD then None else Some(request.body)
  }

  /** `[item, ...history.slice(0, 49)]`: the new item first, then the 49 most recent
      older items in their order; the oldest beyond that are dropped. */
  function PushHistory(history: seq<HistoryItem>, item: HistoryItem): (r: seq<HistoryItem>)
    ensures |r| == 1 + Min(|history|, HistoryCapacity - 1)
    ensures |r| <= HistoryCapacity
    ensures r[0] == item
    ensures forall i :: 1 <= i < |r| ==> r[i] == history[i - 1]
  {
    [item] + history[..Min(|history|, HistoryCapacity - 1)]
  }

  /** The `fetch` call a send issues. */
  datatype FetchRequest = FetchRequest(url: string, verb: HttpMethod, headers: Json, body: Option<string>)

  datatype SendResult = SendResult(state: AppState, fetch: Option<FetchRequest>)

  /** `handleSendRequest` up to the `await`. A send always clears the previous response,
      error and analysis. Header text that fails to parse stops it there with the
      invalid-headers error, loading off, history untouched and no fetch. Otherwise the
      request is recorded in history under the id `now` before the network answers, and
      the fetch goes out with the parsed headers and the method-dependent body. */
  function HandleSendRequest(s: AppState, parse: JsonParser, now: nat): (r: SendResult)
    ensures r.state.request == s.request && r.state.isAnalyzing == s.isAnalyzing
    ensures r.state.response.None? && r.state.analysis.None?
    ensures r.fetch.None? <==> !IsBlank(s.request.headers) && parse(s.request.headers).None?
    ensures r.fetch.None? ==>
      && r.state.error == Some(InvalidHeadersMessage)
      && !r.state.loading
      && r.state.history == s.history
    ensures r.fetch.Some? ==>
      && r.state.loading
      && r.state.error.None?
      && r.state.history == PushHistory(s.history, HistoryItem(now, s.request))
      && r.fetch.value.url == s.request.url
      && r.fetch.value.verb == s.request.verb
      && r.fetch.value.body == OutgoingBody(s.request)
      && Some(r.fetch.value.headers) == ParseHeaders(s.request.headers, parse)
  {
    var cleared := s.(loading := true, response := None, error := None, analysis := None);
    var headers := ParseHeaders(s.request.headers, parse);
    if headers.None? then
      SendResult(cleared.(error := Some(InvalidHeadersMessage), loading := false), None)
    else
      SendResult(
        cleared.(history := PushHistory(s.history, HistoryItem(now, s.request))),
        Some(FetchRequest(s.request.url, s.request.verb, headers.value, OutgoingBody(s.request))))
  }

  /** What the network delivered: status line, the header pairs in the order the
      transport enumerates them, and the full body text. */
  datatype RawResponse = RawResponse(status: int, statusText: string, headers: seq<(string, string)>, text: string)

  /** The response record built from a settled fetch. The body is the parsed JSON value,
      or the raw text when it does not parse; the time is the clock difference; the size is
      the UTF-8 length of the text; every header name maps to the last value the transport
      gave for it. */
  function BuildResponse(raw: RawResponse, parse: JsonParser, startTime: int, endTime: int): (resp: ApiResponse)
    ensures resp.status == raw.status && resp.statusText == raw.statusText
    ensures parse(raw.text).Some? ==> resp.body == Parsed(parse(raw.text).value)
    ensures parse(raw.text).None? ==> resp.body == Raw(raw.text)
    ensures resp.time == endTime - startTime
    ensures startTime <= endTime ==> resp.time >= 0
    ensures resp.size == Utf8Length(raw.text) && resp.size >= |raw.text|
    ensures DistinctKeys(resp.headers)
    ensures forall k :: HasKey(resp.headers, k) <==> exists i :: 0 <= i < |raw.headers| && raw.headers[i].0 == k
    ensures forall i :: 0 <= i < |raw.headers| && IsLastWrite(raw.headers, i) ==>
      Get(resp.headers, raw.headers[i].0) == Some(raw.headers[i].1)
  {
    var body := match parse(raw.text)
      case Some(v) => Parsed(v)
      case None => Raw(raw.text);
    ApiResponse(raw.status, raw.statusText, FromPairs(raw.headers), body, endTime - startTime, Utf8Length(raw.text))
  }

  /** The fetch resolved: the response is shown and loading ends; nothing else changes. */
  function FetchResolved(s: AppState, raw: RawResponse, parse: JsonParser, startTime: int, endTime: int): (r: AppState)
    ensures r.response == Some(BuildResponse(raw, parse, startTime, endTime))
    ensures !r.loading
    ensures r == s.(response := r.response, loading := false)
  {
    s.(response := Some(BuildResponse(raw, parse, startTime, endTime)), loading := false)
  }

  /** The error shown when the fetch rejects. An empty message becomes the generic one;
      the CORS hint is appended to a message that mentions "Failed to fetch". */
  function NetworkErrorMessage(message: string): (r: string)
    ensures r != ""
    ensures message == "" ==> r == UnknownNetworkError
    ensures message != "" ==> StartsWith(r, message)
  {
    var m := OrElse(message, UnknownNetworkError);
    if Contains(m, FailedToFetch) then
      GenericErrorLacksFailedToFetch();
      assert (m + CorsHint)[..|m|] == m;
      m + CorsHint
    else m
  }

  lemma GenericErrorLacksFailedToFetch()
    ensures !Contains(UnknownNetworkError, FailedToFetch)
  {
    assert FailedToFetch[0] == 'F';
    LacksFirstChar(UnknownNetworkError, FailedToFetch);
  }

  /** The hint is added exactly when the thrown message mentions "Failed to fetch", and
      the shown error mentions it exactly when the thrown message does. */
  lemma CorsHintIffFailedToFetch(message: string)
    ensures message != "" ==> (NetworkErrorMessage(message) == message + CorsHint <==> Contains(message, FailedToFetch))
    ensures message != "" && !Contains(message, FailedToFetch) ==> NetworkErrorMessage(message) == message
    ensures Contains(NetworkErrorMessage(message), FailedToFetch) <==> Contains(message, FailedToFetch)
  {
    var r := NetworkErrorMessage(message);
    if message == "" {
      GenericErrorLacksFailedToFetch();
    } else if Contains(message, FailedToFetch) {
      ContainsAppend(message, CorsHint, FailedToFetch);
    } else {
      assert |CorsHint| > 0;
      assert r == message;
    }
  }

  /** The fetch rejected: the error is shown and loading ends; nothing else changes. */
  function FetchRejected(s: AppState, message: string): (r: AppState)
    ensures r.error == Some(NetworkErrorMessage(message))
    ensures !r.loading
    ensures r.history == s.history && r.request == s.request && r.response == s.response
    ensures r.analysis == s.analysis && r.isAnalyzing == s.isAnalyzing
  {
    s.(error := Some(NetworkErrorMessage(message)), loading := false)
  }

  datatype AnalyzeStart = AnalyzeStart(state: AppState, call: Option<ApiResponse>)

  /** `handleAnalyze` up to the `await`: without a response nothing happens and the
      analyzer is not called; otherwise analysis starts on the current response with the
      previous analysis cleared. */
  function HandleAnalyze(s: AppState): (r: AnalyzeStart)
    ensures s.response.None? ==> r.state == s && r.call.None?
    ensures s.response.Some? ==> r.call == s.response && r.state == s.(isAnalyzing := true, analysis := None)
  {
    if s.response.None? then AnalyzeStart(s, None)
    else AnalyzeStart(s.(isAnalyzing := true, analysis := None), s.response)
  }

  /** The analysis settled: its text, or the failure message after the fixed prefix, is
      stored, and analysing ends; nothing else changes. */
  function AnalysisSettled(s: AppState, outcome: AnalysisOutcome): (r: AppState)
    ensures !r.isAnalyzing
    ensures outcome.Analysis? ==> r.analysis == Some(outcome.text)
    ensures outcome.AnalysisFailed? ==> r.analysis == Some(AnalysisErrorPrefix + outcome.message)
    ensures r == s.(analysis := r.analysis, isAnalyzing := false)
  {
    match outcome
    case Analysis(text) => s.(analysis := Some(text), isAnalyzing := false)
    case AnalysisFailed(message) => s.(analysis := Some(AnalysisErrorPrefix + message), isAnalyzing := false)
  }

  /** Selecting a history entry puts its request in the editor and clears the response,
      error and analysis; the history itself is untouched. */
  function LoadFromHistory(s: AppState, item: HistoryItem): (r: AppState)
    ensures r.request == item.request
    ensures r.response.None? && r.error.None? && r.analysis.None?
    ensures r.history == s.history && r.loading == s.loading && r.isAnalyzing == s.isAnalyzing
  {
    s.(request := item.request, response := None, error := None, analysis := None)
  }

  /** Clearing empties the history from any state and changes nothing else. */
  function ClearHistory(s: AppState): (r: AppState)
    ensures r.history == []
    ensures r.(history := s.history) == s
  {
    s.(history := [])
  }

  /** Everything that can happen to the application, with what the environment returned. */
  datatype Event =
    | RequestEdited(edit: ApiConfigPanel.Edit)
    | SendClicked(headerParser: JsonParser, now: nat)
    | FetchSucceeded(raw: RawResponse, bodyParser: JsonParser, startTime: int, endTime: int)
    | FetchFailed(message: string)
    | AnalyzeClicked
    | ModelAnswered(reply: ModelReply)
    | HistorySelected(item: HistoryItem)
    | HistoryCleared

  function Step(s: AppState, e: Event): AppState
  {
    match e
    case RequestEdited(edit) => s.(request := ApiConfigPanel.ApplyEdit(s.request, edit))
    case SendClicked(parse, now) => HandleSendRequest(s, parse, now).state
    case FetchSucceeded(raw, parse, startTime, endTime) => FetchResolved(s, raw, parse, startTime, endTime)
    case FetchFailed(message) => FetchRejected(s, message)
    case AnalyzeClicked => HandleAnalyze(s).state
    case ModelAnswered(reply) => AnalysisSettled(s, AnalyzeApiResponse(reply))
    case HistorySelected(item) => LoadFromHistory(s, item)
    case HistoryCleared => ClearHistory(s)
  }

  /** Events applied in order. */
  function Run(s: AppState, events: seq<Event>): AppState
    decreases |events|
  {
    if |events| == 0 then s else Step(Run(s, events[..|events| - 1]), events[|events| - 1])
  }

  /** The state invariant: the history is within capacity, an error, when present, has a
      message to show, and a response's headers name each header once. */
  predicate Valid(s: AppState)
  {
    && |s.history| <= HistoryCapacity
    && (s.error.Some? ==> s.error.value != "")
    && (s.response.Some? ==> DistinctKeys(s.response.value.headers))
  }

  lemma InitValid()
    ensures Valid(Init())
  {
  }

  lemma StepPreservesValid(s: AppState, e: Event)
    requires Valid(s)
    ensures Valid(Step(s, e))
  {
  }

  /** No sequence of events, in any interleaving, breaks the invariant. */
  lemma {:induction false} RunPreservesValid(s: AppState, events: seq<Event>)
    requires Valid(s)
    ensures Valid(Run(s, events))
    decreases |events|
  {
    if |events| > 0 {
      RunPreservesValid(s, events[..|events| - 1]);
      StepPreservesValid(Run(s, events[..|events| - 1]), events[|events| - 1]);
    }
  }

  /** A failed model call always ends in the same analysis text, whatever the SDK said. */
  lemma ModelFailureText(s: AppState, message: string)
    ensures Step(s, ModelAnswered(CallFailed(message))).analysis
      == Some(AnalysisErrorPrefix + ServiceFailureMessage)
    ensures !Step(s, ModelAnswered(CallFailed(message))).isAnalyzing
  {
  }

  /** The history after recording `items` one after the other. */
  function RecordAll(history: seq<HistoryItem>, items: seq<HistoryItem>): seq<HistoryItem>
    decreases |items|
  {
    if |items| == 0 then history
    else PushHistory(RecordAll(history, items[..|items| - 1]), items[|items| - 1])
  }

  /** From an empty history, recording a sequence leaves the last 50 recorded items,
      most recent first. */
  lemma {:induction false} RecordAllWindow(items: seq<HistoryItem>)
    ensures |RecordAll([], items)| == Min(|items|, HistoryCapacity)
    ensures forall i :: 0 <= i < |RecordAll([], items)| ==>
      RecordAll([], items)[i] == items[|items| - 1 - i]
    decreases |items|
  {
    if |items| > 0 {
      var init := items[..|items| - 1];
      RecordAllWindow(init);
      var r := RecordAll([], items);
      forall i | 0 <= i < |r|
        ensures r[i] == items[|items| - 1 - i]
      {
        if i > 0 {
          assert r[i] == RecordAll([], init)[i - 1];
          assert init[|init| - 1 - (i - 1)] == items[|items| - 1 - i];
        }
      }
    }
  }

  /** After 51 recordings the history holds 50 items: the 51st first, the 2nd last. */
  lemma FiftyOneRecordings(items: seq<HistoryItem>)
    requires |items| == 51
    ensures |RecordAll([], items)| == 50
    ensures RecordAll([], items)[0] == items[50]
    ensures RecordAll([], items)[49] == items[1]
  {
    RecordAllWindow(items);
  }

  /** What the response pane shows for a state. */
  function View(s: AppState, tab: ResponseDisplay.Tab): ResponseDisplay.View
    requires s.response.Some? ==> DistinctKeys(s.response.value.headers)
  {
    ResponseDisplay.RenderContent(s.loading, s.error, s.response, s.analysis, s.isAnalyzing, tab)
  }

  /** After a send the pane shows the invalid-headers error, or the loading state while
      the fetch is out. */
  lemma SendView(s: AppState, parse: JsonParser, now: nat, tab: ResponseDisplay.Tab)
    ensures var r := HandleSendRequest(s, parse, now);
      && (r.fetch.None? ==> View(r.state, tab) == ResponseDisplay.ErrorView(InvalidHeadersMessage))
      && (r.fetch.Some? ==> View(r.state, tab) == ResponseDisplay.LoadingView)
  {
  }

  /** After a send, a resolved fetch shows the response with its status colour and a
      rejected one shows the network error. */
  lemma SettledView(s: AppState, parse: JsonParser, now: nat, raw: RawResponse, bodyParser: JsonParser,
                    startTime: int, endTime: int, message: string, tab: ResponseDisplay.Tab)
    requires IsBlank(s.request.headers) || parse(s.request.headers).Some?
    ensures var sent := HandleSendRequest(s, parse, now).state;
      && View(FetchResolved(sent, raw, bodyParser, startTime, endTime), tab).ResponseView?
      && View(FetchResolved(sent, raw, bodyParser, startTime, endTime), tab).panel.statusColor
         == ResponseDisplay.StatusColor(raw.status)
      && View(FetchRejected(sent, message), tab) == ResponseDisplay.ErrorView(NetworkErrorMessage(message))
  {
  }
}
