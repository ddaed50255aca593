/** The shared axios instance of src/utils/api.js: a request interceptor that
    attaches the bearer token and a response interceptor that answers a 401
    with one token refresh and one replay.

    `Call` and `Refresh` say, on values, what one request through the client
    does to the world (token store, forced redirect, network script and log);
    `Client.Request` is the step-by-step version that updates the objects in
    place and is proved to agree with `Call`. */
module Api {
  import opened Wrappers
  import opened Json
  import opened Http
  import opened Browser

  const BaseUrl := "http://127.0.0.1:8000/api"
  const RefreshUrl := "http://127.0.0.1:8000/api/token/refresh/"
  const JsonHeaders: Headers := map["Content-Type" := "application/json"]
  const Authorization := "Authorization"
  const LoginPath := "/login"

  function Bearer(token: string): (r: string)
    ensures |r| == |token| + 7 && r[..7] == "Bearer " && r[7..] == token
  {
    "Bearer " + token
  }

  /** A request configuration as a value; `retry` is axios' `_retry` marker. */
  datatype Req = Req(verb: Verb, path: string, headers: Headers, body: Body, retry: bool)

  /** Everything one request can touch besides the request itself. */
  datatype World = World(storage: Storage, href: Option<string>, script: seq<Outcome>, log: seq<Sent>)

  /** The world, the request configuration and the settled promise after a call. */
  datatype Step = Step(world: World, req: Req, reply: Reply<Response>)

  /** The access token the request interceptor uses: a stored, non-empty one. */
  function UsableToken(storage: Storage): (r: Option<string>)
    ensures r.Some? <==> AccessKey in storage && storage[AccessKey] != ""
    ensures r.Some? ==> r.value == storage[AccessKey]
  {
    var token := Item(storage, AccessKey);
    if token.Some? && token.value != "" then token else None
  }

  /** The request interceptor (api.js:12-24): `Authorization: Bearer <token>`
      is set when a token is stored and non-empty; otherwise the headers are
      left as they are and the request still goes out. */
  function WithBearer(storage: Storage, headers: Headers): (r: Headers)
    ensures UsableToken(storage).Some? ==> r == headers[Authorization := Bearer(storage[AccessKey])]
    ensures UsableToken(storage).None? ==> r == headers
  {
    var token := UsableToken(storage);
    if token.Some? then headers[Authorization := Bearer(token.value)] else headers
  }

  /** The request as it leaves the browser. */
  function Dispatch(q: Req): Sent
  {
    Sent(q.verb, BaseUrl + q.path, q.headers, q.body)
  }

  /** The refresh call (api.js:37-41): a plain axios POST, so neither
      interceptor sees it; its body is exactly `{refresh: token}`. */
  function RefreshCall(token: string): (s: Sent)
    ensures Authorization !in s.headers
  {
    Sent(Post, RefreshUrl, JsonHeaders, JsonBody(Obj([("refresh", Str(token))])))
  }

  /** One network call: the request is logged and the next scripted outcome consumed. */
  function Transmit(w: World, s: Sent): (r: (World, Outcome))
    ensures r.0.log == w.log + [s] && r.0.storage == w.storage && r.0.href == w.href
    ensures (r.1, r.0.script) == Next(w.script)
  {
    var next := Next(w.script);
    (w.(script := next.1, log := w.log + [s]), next.0)
  }

  /** One call through the instance: interceptor, send, then the response
      interceptor (api.js:26-56). */
  function Call(w: World, q: Req): (s: Step)
    ensures |s.world.log| > |w.log| && s.world.log[..|w.log|] == w.log
    ensures s.reply.Resolved? ==> IsSuccess(s.reply.value.status)
    ensures s.world.href == w.href || s.world.href == Some(LoginPath)
    decreases if q.retry then 0 else 2
  {
    var q1 := q.(headers := WithBearer(w.storage, q.headers));
    var sent := Transmit(w, Dispatch(q1));
    var settled := Settle(sent.1);
    if settled.Resolved? then Step(sent.0, q1, settled)
    else if Status(settled.error) == Some(401) && !q1.retry then Refresh(sent.0, q1.(retry := true))
    else Step(sent.0, q1, settled)
  }

  /** The refresh branch of the response interceptor (api.js:32-53), entered
      with `_retry` already set. A missing or empty refresh token, a failed
      refresh call and an unreadable refresh body all land in the catch. */
  function Refresh(w: World, q: Req): (s: Step)
    requires q.retry
    ensures |s.world.log| >= |w.log| && s.world.log[..|w.log|] == w.log
    ensures s.reply.Resolved? ==> IsSuccess(s.reply.value.status)
    ensures s.world.href == w.href || s.world.href == Some(LoginPath)
    decreases 1
  {
    var token := Item(w.storage, RefreshKey);
    if token.None? || token.value == "" then Expire(w, q, MissingRefreshToken)
    else
      var sent := Transmit(w, RefreshCall(token.value));
      var settled := Settle(sent.1);
      if settled.Rejected? then Expire(sent.0, q, settled.error)
      else
        var access := Property(settled.value.data, "access");
        if access.None? then Expire(sent.0, q, TypeError)
        else
          var renewed := JsString(access.value);
          Call(sent.0.(storage := sent.0.storage[AccessKey := renewed]),
               q.(headers := q.headers[Authorization := Bearer(renewed)]))
  }

  /** The catch block (api.js:47-53): both tokens go, the page is sent to
      /login, and the caller sees the refresh error. */
  function Expire(w: World, q: Req, e: Failure): (s: Step)
    ensures s.world.storage == w.storage - {AccessKey, RefreshKey}
    ensures s.world.href == Some(LoginPath)
    ensures s.reply == Rejected(e)
  {
    Step(w.(storage := w.storage - {AccessKey, RefreshKey}, href := Some(LoginPath)), q, Rejected(e))
  }

  /** The configuration object axios builds for one call. */
  class RequestConfig {
    const verb: Verb
    const path: string
    const body: Body
    var headers: Headers
    /** axios' `_retry` marker (api.js:31). */
    var retry: bool

    /** The instance defaults (api.js:6-8) merged with the caller's headers. */
    constructor (verb: Verb, path: string, extra: Headers, body: Body)
      ensures Value() == Req(verb, path, JsonHeaders + extra, body, false)
    {
      this.verb := verb;
      this.path := path;
      this.body := body;
      headers := JsonHeaders + extra;
      retry := false;
    }

    function Value(): Req
      reads this
    {
      Req(verb, path, headers, body, retry)
    }
  }

  /** The remote side: a script of answers, consumed one per network call,
      and the log of everything sent. */
  class Network {
    var script: seq<Outcome>
    var log: seq<Sent>

    constructor (script: seq<Outcome>)
      ensures this.script == script && log == []
    {
      this.script := script;
      log := [];
    }

    method Send(s: Sent) returns (o: Outcome)
      modifies this
      ensures (o, script) == Next(old(script))
      ensures log == old(log) + [s]
    {
      if script == [] {
        o := NoAnswer;
      } else {
        o := script[0];
        script := script[1..];
      }
      log := log + [s];
    }
  }

  /** The axios instance with its two interceptors. */
  class Client {
    const window: Window
    const net: Network

    constructor (window: Window, net: Network)
      ensures this.window == window && this.net == net
    {
      this.window := window;
      this.net := net;
    }

    function WorldOf(): World
      reads window, net
    {
      World(window.storage, window.href, net.script, net.log)
    }

    /** `api(config)`: the promise the caller awaits. */
    method Request(q: RequestConfig) returns (reply: Reply<Response>)
      modifies window, net, q
      decreases if q.retry then 0 else 2
      ensures var s := Call(old(WorldOf()), old(q.Value()));
              WorldOf() == s.world && q.Value() == s.req && reply == s.reply
      ensures window.route == old(window.route)
    {
      ghost var w0, q0 := WorldOf(), q.Value();
      // request interceptor
      var token := window.GetItem(AccessKey);
      if token.Some? && token.value != "" {
        q.headers := q.headers[Authorization := Bearer(token.value)];
      }
      var outcome := net.Send(Dispatch(q.Value()));
      var settled := Settle(outcome);
      if settled.Resolved? || Status(settled.error) != Some(401) || q.retry {
        return settled;
      }
      // response interceptor, 401 on a request not yet retried
      q.retry := true;
      ghost var w1, q1 := WorldOf(), q.Value();
      assert Call(w0, q0) == Refresh(w1, q1);
      var refreshToken := window.GetItem(RefreshKey);
      if refreshToken.None? || refreshToken.value == "" {
        reply := ExpireSession(MissingRefreshToken);
        return;
      }
      var answer := net.Send(RefreshCall(refreshToken.value));
      var refreshed := Settle(answer);
      if refreshed.Rejected? {
        reply := ExpireSession(refreshed.error);
        return;
      }
      var access := Property(refreshed.value.data, "access");
      if access.None? {
        reply := ExpireSession(TypeError);
        return;
      }
      var renewed := JsString(access.value);
      window.SetItem(AccessKey, renewed);
      q.headers := q.headers[Authorization := Bearer(renewed)];
      reply := Request(q);
    }

    /** The catch block of the response interceptor. */
    method ExpireSession(e: Failure) returns (reply: Reply<Response>)
      modifies window
      ensures window.storage == old(window.storage) - {AccessKey, RefreshKey}
      ensures window.href == Some(LoginPath) && window.route == old(window.route)
      ensures reply == Rejected(e)
    {
      window.RemoveItem(AccessKey);
      window.RemoveItem(RefreshKey);
      window.Redirect(LoginPath);
      reply := Rejected(e);
    }
  }
}
