/** What travels between the client and the remote API, and how axios turns a
    server answer into a resolved or rejected promise. */
module Http {
  import opened Wrappers
  import opened Json

  datatype Verb = Get | Post | Put | Delete

  type Headers = map<string, string>

  /** A file picked in a file input: the browser's `File` object. */
  datatype File = File(name: string, mime: string, size: nat)

  /** One `FormData` entry value: a string or a file. */
  datatype Part = Text(text: string) | Blob(file: File)

  datatype Body = NoBody | JsonBody(json: Value) | FormBody(entries: seq<(string, Part)>)

  /** A call a page hands to the client: verb, path below the base URL, payload. */
  datatype ApiCall = ApiCall(verb: Verb, path: string, body: Body)

  /** One request as it leaves the browser. */
  datatype Sent = Sent(verb: Verb, url: string, headers: Headers, body: Body)

  datatype Response = Response(status: int, data: Value)

  /** The scripted answer of the remote side to one network call; `NoAnswer`
      is a transport failure (network error or the 10 s timeout). */
  datatype Outcome = Answered(response: Response) | NoAnswer

  /** Why a promise returned by the client rejects. `MissingRefreshToken` is
      the Error thrown at api.js:34; `TypeError` is a property read on a null
      or undefined response body. */
  datatype Failure =
    | HttpError(response: Response)
    | TransportError
    | MissingRefreshToken
    | TypeError

  /** How a promise settles. */
  datatype Reply<T> = Resolved(value: T) | Rejected(error: Failure)

  /** axios' default `validateStatus`: only 2xx resolves. */
  predicate IsSuccess(status: int)
  {
    200 <= status < 300
  }

  /** axios' settling of a network outcome. */
  function Settle(o: Outcome): (r: Reply<Response>)
    ensures r.Resolved? <==> o.Answered? && IsSuccess(o.response.status)
    ensures r.Resolved? ==> r.value == o.response
    ensures r.Rejected? && o.Answered? ==> r.error == HttpError(o.response)
    ensures o.NoAnswer? ==> r == Rejected(TransportError)
  {
    match o
    case NoAnswer => Rejected(TransportError)
    case Answered(resp) => if IsSuccess(resp.status) then Resolved(resp) else Rejected(HttpError(resp))
  }

  /** `error.response?.status`. */
  function Status(e: Failure): (r: Option<int>)
    ensures r.Some? <==> e.HttpError?
    ensures r.Some? ==> r.value == e.response.status
  {
    if e.HttpError? then Some(e.response.status) else None
  }

  /** `error.response?.data?.detail || fallback`: the server's `detail` when
      it is truthy, the fixed message otherwise. */
  function DetailOr(e: Failure, fallback: string): (r: Value)
    ensures !e.HttpError? ==> r == Str(fallback)
    ensures e.HttpError? && Truthy(OptionalProperty(e.response.data, "detail")) ==>
              r == OptionalProperty(e.response.data, "detail")
    ensures e.HttpError? && !Truthy(OptionalProperty(e.response.data, "detail")) ==> r == Str(fallback)
    ensures Truthy(r) || r == Str(fallback)
  {
    var detail := if e.HttpError? then OptionalProperty(e.response.data, "detail") else Undefined;
    if Truthy(detail) then detail else Str(fallback)
  }

  /** The next scripted outcome and the rest of the script; an exhausted
      script stands for a server that never answers. */
  function Next(script: seq<Outcome>): (r: (Outcome, seq<Outcome>))
    ensures script == [] ==> r == (NoAnswer, [])
    ensures script != [] ==> r == (script[0], script[1..])
  {
    if script == [] then (NoAnswer, []) else (script[0], script[1..])
  }

  /** A `FormData` object the pages fill one `append` at a time. */
  class FormData {
    var entries: seq<(string, Part)>

    constructor ()
      ensures entries == []
    {
      entries := [];
    }

    method Append(name: string, value: Part)
      modifies this
      ensures entries == old(entries) + [(name, value)]
    {
      entries := entries + [(name, value)];
    }
  }
}
