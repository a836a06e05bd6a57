/**
 * The request editor: the method selector and its colour, the URL field, the headers and
 * body editors, and the send button.
 */
module ApiConfigPanel {
  import opened Types

  /** The methods offered by the selector, in display order. */
  const HttpMethods: seq<HttpMethod> := [GET, POST, PUT, PATCH, DELETE, HEAD, OPTIONS]

  /** The selector offers every method, each exactly once. */
  lemma HttpMethodsListsEachOnce()
    ensures |HttpMethods| == 7
    ensures forall m: HttpMethod :: m in HttpMethods
    ensures forall i, j :: 0 <= i < j < |HttpMethods| ==> HttpMethods[i] != HttpMethods[j]
  {
    forall m: HttpMethod
      ensures m in HttpMethods
    {
      match m
      case GET => assert HttpMethods[0] == m;
      case POST => assert HttpMethods[1] == m;
      case PUT => assert HttpMethods[2] == m;
      case PATCH => assert HttpMethods[3] == m;
      case DELETE => assert HttpMethods[4] == m;
      case HEAD => assert HttpMethods[5] == m;
      case OPTIONS => assert HttpMethods[6] == m;
    }
  }

  /** Colour of the method selector: GET green, POST blue, PUT yellow, PATCH orange,
      DELETE red; HEAD and OPTIONS fall to the default gray. */
  function MethodColor(m: HttpMethod): (c: Color)
    ensures c == Gray <==> m == HEAD || m == OPTIONS
    ensures m == GET <==> c == Green
    ensures m == POST <==> c == Blue
    ensures m == PUT <==> c == Yellow
    ensures m == PATCH <==> c == Orange
    ensures m == DELETE <==> c == Red
  {
    match m
    case GET => Green
    case POST => Blue
    case PUT => Yellow
    case PATCH => Orange
    case DELETE => Red
    case _ => Gray
  }

  /** Two methods share a colour only when both are gray. */
  lemma MethodColorDistinguishes(m1: HttpMethod, m2: HttpMethod)
    requires m1 != m2 && MethodColor(m1) == MethodColor(m2)
    ensures MethodColor(m1) == Gray && m1 in {HEAD, OPTIONS} && m2 in {HEAD, OPTIONS}
  {
  }

  /** The class name of each method in the selector. */
  lemma MethodClassName(m: HttpMethod)
    ensures m == GET ==> TextClass(MethodColor(m)) == "text-green-400"
    ensures m == POST ==> TextClass(MethodColor(m)) == "text-blue-400"
    ensures m == PUT ==> TextClass(MethodColor(m)) == "text-yellow-400"
    ensures m == PATCH ==> TextClass(MethodColor(m)) == "text-orange-400"
    ensures m == DELETE ==> TextClass(MethodColor(m)) == "text-red-400"
    ensures m == HEAD || m == OPTIONS ==> TextClass(MethodColor(m)) == "text-gray-400"
  {
  }

  datatype Tab = HeadersTab | BodyTab

  /** The editor tab selected when the panel is first shown. */
  const DefaultTab: Tab := HeadersTab

  /** One change made in the editor. */
  datatype Edit =
    | MethodChanged(verb: HttpMethod)
    | UrlChanged(url: string)
    | HeadersChanged(headers: string)
    | BodyChanged(body: string)

  /** Each change replaces exactly its own field and leaves the other three as they were. */
  function ApplyEdit(r: ApiRequest, e: Edit): (r': ApiRequest)
    ensures e.MethodChanged? ==> r'.verb == e.verb && r'.url == r.url && r'.headers == r.headers && r'.body == r.body
    ensures e.UrlChanged? ==> r'.url == e.url && r'.verb == r.verb && r'.headers == r.headers && r'.body == r.body
    ensures e.HeadersChanged? ==> r'.headers == e.headers && r'.verb == r.verb && r'.url == r.url && r'.body == r.body
    ensures e.BodyChanged? ==> r'.body == e.body && r'.verb == r.verb && r'.url == r.url && r'.headers == r.headers
  {
    match e
    case MethodChanged(verb) => r.(verb := verb)
    case UrlChanged(url) => r.(url := url)
    case HeadersChanged(headers) => r.(headers := headers)
    case BodyChanged(body) => r.(body := body)
  }

  datatype RequestField = VerbField | UrlField | HeadersField | BodyField

  /** The field an edit writes. */
  function Field(e: Edit): RequestField
  {
    match e
    case MethodChanged(_) => VerbField
    case UrlChanged(_) => UrlField
    case HeadersChanged(_) => HeadersField
    case BodyChanged(_) => BodyField
  }

  /** Edits of different fields commute, and of two edits of the same field the later wins. */
  lemma EditsCommuteOrOverwrite(r: ApiRequest, e1: Edit, e2: Edit)
    ensures Field(e1) != Field(e2) ==> ApplyEdit(ApplyEdit(r, e1), e2) == ApplyEdit(ApplyEdit(r, e2), e1)
    ensures Field(e1) == Field(e2) ==> ApplyEdit(ApplyEdit(r, e1), e2) == ApplyEdit(r, e2)
  {
  }

  datatype SendButton = SendButton(disabled: bool, caption: string)

  /** The send button is disabled, and says so, exactly while a request is loading. */
  function SendButtonFor(loading: bool): (b: SendButton)
    ensures b.disabled <==> loading
    ensures b.caption == (if loading then "Sending..." else "Send")
  {
    if loading then SendButton(true, "Sending...") else SendButton(false, "Send")
  }
}
