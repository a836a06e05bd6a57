/**
 * The shapes the application passes between its components: the editable request,
 * the response record, history entries and data-store connection profiles.
 */
module Types {

  datatype HttpMethod = GET | POST | PUT | PATCH | DELETE | HEAD | OPTIONS

  /** The request being edited (the source names `verb` `method`); `headers` is JSON source text and `body` is sent verbatim. */
  datatype ApiRequest = ApiRequest(verb: HttpMethod, url: string, headers: string, body: string)

  /** A parsed JSON value. Numbers are kept as their source lexeme, so no floating point
      enters the model. */
  datatype Json =
    | JNull
    | JBool(b: bool)
    | JNumber(lexeme: string)
    | JString(s: string)
    | JArray(elements: seq<Json>)
    | JObject(members: seq<(string, Json)>)

  /** The `body` of a response: the parsed JSON value, or the raw text when it did not parse. */
  datatype Body = Parsed(value: Json) | Raw(text: string)

  /** The response record. `headers` is the header object in key order, `time` the
      elapsed milliseconds and `size` the UTF-8 length of the body text. */
  datatype ApiResponse = ApiResponse(
    status: int,
    statusText: string,
    headers: seq<(string, string)>,
    body: Body,
    time: int,
    size: nat)

  datatype HistoryItem = HistoryItem(id: nat, request: ApiRequest)

  datatype ConnectionType = PostgreSQL | MongoDB | Redis | Milvus

  /** The keys of `ConnectionDetails`, the union of the four per-type detail interfaces. */
  datatype DetailField = Host | Port | User | Password | Dbname | Uri | Db

  /** The property name of each detail field in `ConnectionDetails`. */
  function FieldName(f: DetailField): string
  {
    match f
    case Host => "host"
    case Port => "port"
    case User => "user"
    case Password => "password"
    case Dbname => "dbname"
    case Uri => "uri"
    case Db => "db"
  }

  /** Which detail interface declares which field. */
  predicate Declares(t: ConnectionType, f: DetailField)
  {
    match f
    case Host => t != MongoDB
    case Port => t != MongoDB
    case User => t == PostgreSQL
    case Password => t == PostgreSQL || t == Redis
    case Dbname => t == PostgreSQL
    case Uri => t == MongoDB
    case Db => t == Redis
  }

  /** A saved profile; the source's `type` field is `kind` here. */
  datatype Connection = Connection(
    id: string,
    name: string,
    kind: ConnectionType,
    details: seq<(DetailField, string)>)

  /** The Tailwind text colours the views choose between. */
  datatype Color = Green | Blue | Yellow | Orange | Red | Gray

  /** The class name that renders a colour (all views use the 400 shade). */
  function TextClass(c: Color): string
  {
    match c
    case Green => "text-green-400"
    case Blue => "text-blue-400"
    case Yellow => "text-yellow-400"
    case Orange => "text-orange-400"
    case Red => "text-red-400"
    case Gray => "text-gray-400"
  }
}
