# API workbench: request lifecycle, history and connection profiles in Dafny

This project models the logic of a browser tool for composing HTTP requests, sending
them, inspecting the responses, asking a hosted language model to critique a response,
and keeping a list of named data-store connection profiles. The React components hold
that logic in their event handlers. Here each handler becomes a pure function over
immutable datatypes, and each effect becomes an input:

- the clock (`Date.now()`) is a natural number passed in;
- `JSON.parse` is a `JsonParser`, a function value from text to `Option<Json>`;
- the network's answer is a `RawResponse`, a rejection message, or a `TestReply`;
- the language model's answer is a `ModelReply`;
- `window.confirm` is a boolean;
- `crypto.randomUUID()` is a fresh id string.

Modules follow the source files:

- `App` (app.dfy) is the application state machine. It holds `AppState` (history,
  request, response, loading, error, analysis, isAnalyzing) and one transition per
  event: `HandleSendRequest`, `FetchResolved`, `FetchRejected`, `HandleAnalyze`,
  `AnalysisSettled`, `LoadFromHistory` and `ClearHistory`. It also has an `Event` type
  with `Step`/`Run` to drive them in any order, and the `Valid` invariant (history
  within 50 entries, every error has a message) that every run keeps.
- `ApiConfigPanel` covers the method list and colours, the four field edits and the
  send button.
- `ResponseDisplay` covers the status colour buckets, the render-state priority, the tab
  badges, the analysis viewer, and the HTML escaping of body text. `Unescape` is a
  partner function: it says how a browser reads the three entities back.
- `ConnectionManager` covers upsert and delete by id, the per-connection test results,
  and the test-failure message rules.
- `ConnectionForm` covers the fields for each store type, opening and resetting the
  form, field edits, and the submitted record.
- `GeminiService` is the analyzer adapter. It rethrows every failure with one fixed
  message.
- Support modules: `Types` holds the shapes from `types.ts`. `Records` models a
  JavaScript object used as a dictionary: an ordered entry list where assignment
  overwrites in place or appends. `Text` holds JavaScript string semantics: `trim`,
  `includes`, truthiness, and the UTF-8 length that `Blob.size` reports. `Options`
  holds the optional value.

Some names differ from the source. The `method` field of a request is `verb`, and the
`type` field of a connection is `kind`, because both words are reserved in Dafny.
`geminiAnalysis` is `analysis`.

## Behaviour worth noting

- Header text that parses to a non-object JSON value is passed to `fetch` as is.
- Response header names are kept as the transport reports them. They are not folded to
  one case. The last value given for a name wins.
- After 51 recordings, the oldest entry left is the 2nd one recorded.
- A failed analysis shows `Error analyzing response: ` followed by the thrown message.
  The service always throws `Failed to get analysis from Gemini API.`.
- The elapsed time is `endTime - startTime` of two wall-clock readings. It is
  non-negative only when the clock did not go backwards.
- A send clears the previous analysis. It does not touch `isAnalyzing`.

## Model

| member | source | states |
|---|---|---|
| `App.ParseHeaders` | App.tsx:56-60 | blank header text (JavaScript whitespace only) gives the empty object without parsing; other text gives the parser's result, object or not, so only a syntax error rejects |
| `App.OutgoingBody` | App.tsx:75 | the body is absent exactly for GET and HEAD, and is the editor text verbatim otherwise |
| `App.PushHistory` | App.tsx:67-68 | the new history has length 1 + min(old, 49) and at most 50; the new item is first and entry i+1 is old entry i |
| `App.HandleSendRequest` | App.tsx:50-76 | a send clears response and analysis; it stops with the invalid-headers error, loading off, history unchanged and no fetch exactly when non-blank headers fail to parse; otherwise it records the request before the fetch, keeps loading on, and issues the fetch with URL, method, parsed headers and the method-dependent body |
| `App.BuildResponse` | App.tsx:77-99 | the body is the parsed JSON or else the raw text; time is end minus start and non-negative when the clock did not go back; size is the UTF-8 length of the text; header keys are distinct, are exactly the names the transport gave, and each maps to its last value |
| `App.FetchResolved` | App.tsx:92-108 | the response is set and loading ends; no other field changes |
| `App.NetworkErrorMessage` | App.tsx:101-104 | the error is never empty; an empty message becomes the generic network error; a non-empty message is kept as the prefix |
| `App.CorsHintIffFailedToFetch` | App.tsx:101-104 | the CORS hint is appended exactly when the message contains "Failed to fetch", the message is unchanged otherwise, and the shown error mentions "Failed to fetch" exactly when the thrown message does |
| `App.FetchRejected` | App.tsx:100-108 | the error is set to the rewritten message and loading ends; no other field changes |
| `App.HandleAnalyze` | App.tsx:111-114 | without a response nothing changes and the analyzer is not called; otherwise analysis starts on the current response with the old analysis cleared |
| `App.AnalysisSettled` | App.tsx:115-122 | analysing ends; the analysis is the returned text, or the error prefix followed by the failure message; nothing else changes |
| `App.ModelFailureText` | App.tsx:118-121 | a failed model call always ends with the prefix followed by the fixed service message, and analysing off |
| `App.LoadFromHistory` | App.tsx:125-130 | the editor gets the item's request, and response, error and analysis are cleared; history, loading and isAnalyzing are unchanged |
| `App.ClearHistory` | App.tsx:132-134 | history is empty from any state and nothing else changes |
| `App.RunPreservesValid` | App.tsx:50-134 | any sequence of events, in any order, keeps the history within 50 entries, every shown error non-empty, and the response headers free of repeated names |
| `App.RecordAllWindow` | App.tsx:67-68 | from an empty history, recording n items leaves min(n, 50) entries: the last 50 recorded, most recent first |
| `App.FiftyOneRecordings` | App.tsx:68 | after 51 recordings the history has 50 entries, with the 51st first and the 2nd last |
| `App.SendView` | App.tsx:51-65 | after a send the pane shows the invalid-headers error when parsing failed, and the loading state when the fetch went out |
| `App.SettledView` | App.tsx:92-105 | after a send that went out, a resolved fetch shows the response view with the status colour, and a rejected one shows the network error |
| `Records.Set` | components/ConnectionForm.tsx:43-45 | an object spread with one key sets that key, leaves every other key's value alone, keeps keys distinct, and keeps key order, appending a new key at the end |
| `Records.FromPairs` | App.tsx:87-90 | assigning header pairs in order gives distinct keys, exactly the names that occur, each with the value of its last write |
| `Text.Utf8Length` | App.tsx:98 | the Blob size of a text is between 1 and 4 bytes per character, and equals the length for ASCII text |
| `Text.TrimStart` | App.tsx:58 | leading trim removes exactly the longest whitespace prefix |
| `Text.TrimEnd` | App.tsx:58 | trailing trim removes exactly the longest whitespace suffix |
| `GeminiService.AnalyzeApiResponse` | services/geminiService.ts:36-45 | generated text is passed through; every failure becomes the fixed "Failed to get analysis from Gemini API." |
| `ResponseDisplay.StatusColor` | components/ResponseDisplay.tsx:19-25 | green exactly for 200-299, yellow for 300-399, orange for 400-499, red for 500 and above, gray below 200; the buckets are disjoint and cover every status |
| `ResponseDisplay.StatusColorByClass` | components/ResponseDisplay.tsx:19-25 | for every status, the colour is decided by the status class (hundreds digit, rounded down) alone |
| `ResponseDisplay.StatusClassName` | components/ResponseDisplay.tsx:19-25 | the status line gets `text-green-400`, `text-yellow-400`, `text-orange-400`, `text-red-400` or `text-gray-400`, each exactly for its range |
| `ResponseDisplay.RenderContent` | components/ResponseDisplay.tsx:27-71 | loading wins over an error, a non-empty error wins over a response, and a response wins over the initial screen; each view appears exactly under its condition |
| `ResponseDisplay.Panel` | components/ResponseDisplay.tsx:39-66 | for a header object (no name twice), the Headers badge is the number of distinct header names; the analysis dot shows exactly when there is analysis text or an analysis is running; the analyze button is disabled exactly while analysing; the active tab picks the content |
| `ResponseDisplay.AnalysisViewer` | components/ResponseDisplay.tsx:161-179 | a running analysis wins; an absent or empty analysis shows the placeholder; otherwise the text is shown |
| `ResponseDisplay.EscapeHtml` | components/ResponseDisplay.tsx:125 | the escaped text has no raw angle brackets |
| `ResponseDisplay.EscapeHtmlIsOnePass` | components/ResponseDisplay.tsx:125 | the three replacements in order (`&` first) equal escaping each character once, so inserted entities are never escaped again |
| `ResponseDisplay.EscapeHtmlRoundTrip` | components/ResponseDisplay.tsx:125 | decoding the entities of the escaped text gives back the original text |
| `ApiConfigPanel.HttpMethodsListsEachOnce` | components/ApiConfigPanel.tsx:13 | the selector offers all seven methods, each exactly once |
| `ApiConfigPanel.MethodColor` | components/ApiConfigPanel.tsx:16-25 | GET green, POST blue, PUT yellow, PATCH orange, DELETE red, each exactly; HEAD and OPTIONS gray |
| `ApiConfigPanel.MethodColorDistinguishes` | components/ApiConfigPanel.tsx:16-25 | two different methods share a colour only when both are gray |
| `ApiConfigPanel.MethodClassName` | components/ApiConfigPanel.tsx:16-25 | each method's class name is the one its switch case returns, `text-gray-400` for HEAD and OPTIONS |
| `ApiConfigPanel.ApplyEdit` | components/ApiConfigPanel.tsx:30-44 | each edit replaces only its own field of the request |
| `ApiConfigPanel.EditsCommuteOrOverwrite` | components/ApiConfigPanel.tsx:30-44 | edits of different fields commute; of two edits of one field the later wins |
| `ApiConfigPanel.SendButtonFor` | components/ApiConfigPanel.tsx:65-71 | the send button is disabled exactly while loading, and its caption says so |
| `ConnectionForm.ConnectionTypesListsEachOnce` | components/ConnectionForm.tsx:12 | the type selector offers all four store types, each exactly once |
| `ConnectionForm.FieldsForType` | components/ConnectionForm.tsx:14-22 | each type's inputs are exactly the fields its detail interface declares in types.ts, with no repeats |
| `ConnectionForm.Open` | components/ConnectionForm.tsx:30-41 | opening with a connection loads its name, type and details; opening without one resets to "", PostgreSQL, no details |
| `ConnectionForm.ChangeName` | components/ConnectionForm.tsx:68 | a name edit changes only the name |
| `ConnectionForm.ChangeType` | components/ConnectionForm.tsx:79-82 | a type change sets the type and empties the details, so every input shows empty |
| `ConnectionForm.ChangeDetail` | components/ConnectionForm.tsx:43-45 | a detail edit sets that field and keeps every other field's value |
| `ConnectionForm.DetailEditsCommute` | components/ConnectionForm.tsx:43-45 | edits of two different detail fields commute |
| `ConnectionForm.IsMasked` | components/ConnectionForm.tsx:97 | a detail input is a password input exactly for the `password` field, the only field whose name contains "password" |
| `ConnectionForm.Submit` | components/ConnectionForm.tsx:47-55 | submitting needs a non-empty name, as the required input and the disabled save button at lines 71 and 111 demand; the record carries the form's name (never empty), type and details, with the edited connection's id when it is non-empty and the fresh id otherwise |
| `ConnectionForm.OpenSubmitRoundTrip` | components/ConnectionForm.tsx:30-55 | opening a named connection and submitting it untouched gives back the same connection |
| `ConnectionManager.OpenForm` | components/ConnectionManager.tsx:20-23 | the form opens with the given connection (or none) as the one edited |
| `ConnectionManager.CloseForm` | components/ConnectionManager.tsx:121 | cancelling closes the form and keeps the edited connection |
| `ConnectionManager.SetTestEndpoint` | components/ConnectionManager.tsx:74 | editing the endpoint changes only the endpoint |
| `ConnectionManager.Upsert` | components/ConnectionManager.tsx:25-31 | for a known id, entries with that id are replaced in place and length and other entries stay; for a new id, it is appended and the length grows by one |
| `ConnectionManager.UpsertIdempotent` | components/ConnectionManager.tsx:26-31 | saving the same connection twice gives the list that saving it once gives |
| `ConnectionManager.UpsertKeepsIdsUnique` | components/ConnectionManager.tsx:26-31 | saving keeps ids unique, and the ids afterwards are the old ones plus the saved one |
| `ConnectionManager.Remove` | components/ConnectionManager.tsx:39 | exactly the entries with another id survive; none has the id; a list without the id is unchanged |
| `ConnectionManager.RemoveAppend` | components/ConnectionManager.tsx:39 | removal distributes over concatenation, so survivors keep their relative order |
| `ConnectionManager.RemoveKeepsIdsUnique` | components/ConnectionManager.tsx:39 | removal keeps ids unique |
| `ConnectionManager.DeleteConnection` | components/ConnectionManager.tsx:37-41 | a list is saved exactly when the delete is confirmed, and it is the list without the id |
| `ConnectionManager.SaveConnection` | components/ConnectionManager.tsx:25-35 | the saved list is the upsert, and the form closes with nothing being edited |
| `ConnectionManager.EditUnchangedIsNoOp` | components/ConnectionManager.tsx:25-31 | with unique ids, editing a saved named connection and submitting it untouched saves the list unchanged |
| `ConnectionManager.StartTest` | components/ConnectionManager.tsx:43-50 | starting a test marks only that connection as testing with "Testing..." and posts it to the configured endpoint |
| `ConnectionManager.FailureMessage` | components/ConnectionManager.tsx:56-60 | a message containing "Failed to fetch" is replaced wholesale by the CORS text; an empty one becomes "An unknown error occurred."; others are kept |
| `ConnectionManager.TestOutcome` | components/ConnectionManager.tsx:52-61 | success exactly for an ok reply, with its message or "Connection successful!"; a non-ok reply fails with its detail or "Test failed"; a thrown error fails with its message; failures go through the CORS rule |
| `ConnectionManager.FinishTest` | components/ConnectionManager.tsx:52-61 | a settled test records its outcome under that id only |
| `ConnectionManager.TestSettles` | components/ConnectionManager.tsx:95 | the spinner shows while a test runs, stops once it settles, and other connections' spinners are untouched |

## Left out

- Network calls (`fetch`), the clock, `JSON.parse`, `window.confirm` and
  `crypto.randomUUID` are not modelled. Their results are inputs to the transitions.
- Loading and saving connections in `localStorage` (App.tsx:29-48) is not modelled. It
  is host I/O; the manager returns the list the application would store.
- The application's `connections` and `isConnectionManagerOpen` fields, and the history
  panel's visibility toggle, are not in `AppState`. The connection list is passed to
  and returned by the `ConnectionManager` functions instead.
- The prompt text built by `analyzeApiResponse` and the model call itself are not
  modelled. That is an outbound call to a hosted service; the model answer is an input.
- `JSON.stringify` pretty-printing of the body and headers is not modelled; it is a
  host library routine.
- The size display `(size / 1024).toFixed(2)` is not modelled, because it is
  floating-point formatting.
- The regular-expression JSON highlighter and the markdown-lite converter
  (components/ResponseDisplay.tsx:126-140, 182-188) are not modelled. They are text
  transforms with no state; only the escape step before them is modelled.
- Overlapping sends and analyses are not modelled. Each event is one atomic transition.
  `Run` allows any order of events, but the invariant says nothing about which result
  belongs to which call.
- Which tab is active and the tab clicks are not modelled. The active tab is a parameter
  of the view functions; the defaults are `ResponseDisplay.DefaultTab` and
  `ApiConfigPanel.DefaultTab`.
- The field labels, placeholders, modal titles, icons and styling are not modelled.
  They are presentation only.
- `Text.Utf8Length`: Dafny characters are Unicode scalar values. A lone UTF-16
  surrogate, which a Blob encodes as the 3-byte replacement character, cannot occur
  in the model.
- `Records.Set`: JavaScript lists integer-like keys first in `Object.keys` order. The
  model keeps insertion order for every key, which matches the source for header names
  and connection ids that are not integer-like.
- `ConnectionManager.TestOutcome`: the `message` and `detail` fields of the reply are
  modelled as strings, with the empty string for an absent field. A non-string value in
  those fields, which JavaScript would convert to text, is not modelled.
- `App.HandleSendRequest`: the history id is the supplied clock reading. The source does
  not make ids unique, and neither does the model.
