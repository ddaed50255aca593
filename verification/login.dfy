/** src/components/pages/Login.jsx: the sign-in form's submit handler. */
module Login {
  import opened Wrappers
  import opened Json
  import opened Http
  import opened Browser
  import opened Ui
  import opened Api
  import ApiProperties

  const FailureMessage := "Invalid email or password"

  /** The login request as the page hands it to the client (Login.jsx:23). */
  function LoginRequest(email: string, password: string): (q: Req)
    ensures q.verb == Post && q.path == "/login/" && !q.retry && q.headers == JsonHeaders
    ensures q.body.JsonBody? && q.body.json.Obj? && |q.body.json.fields| == 2
    ensures Lookup(q.body.json.fields, "email") == Str(email)
    ensures Lookup(q.body.json.fields, "password") == Str(password)
  {
    Req(Post, "/login/", JsonHeaders, JsonBody(Obj([("email", Str(email)), ("password", Str(password))])), false)
  }

  /** Where the page leaves the store, the router and the toast. */
  datatype Landing = Landing(storage: Storage, route: Option<string>, toast: Toast)

  /** What the handler does with the settled login promise (Login.jsx:23-29).
      On success both tokens are written as `String(...)` of the response
      fields and nothing else; any failure, a body whose fields cannot be
      read included, leaves the store alone and shows the same message. */
  function AfterLogin(storage: Storage, reply: Reply<Response>): (r: Landing)
    ensures reply.Resolved? && Property(reply.value.data, "access").Some? ==>
              && r.storage == storage[AccessKey := JsString(Property(reply.value.data, "access").value)]
                                     [RefreshKey := JsString(Property(reply.value.data, "refresh").value)]
              && r.route == Some("/")
              && r.toast == SuccessToast("Login successful!")
    ensures forall k :: k != AccessKey && k != RefreshKey ==> Item(r.storage, k) == Item(storage, k)
    ensures r.route.None? <==> r.toast == ErrorToast(FailureMessage)
    ensures r.route.None? ==> r.storage == storage
    ensures r.route.None? <==> reply.Rejected? || Property(reply.value.data, "access").None?
    ensures reply.Rejected? ==> r.route.None?
  {
    if reply.Rejected? then Landing(storage, None, ErrorToast(FailureMessage))
    else
      var access := Property(reply.value.data, "access");
      var refresh := Property(reply.value.data, "refresh");
      if access.None? || refresh.None? then Landing(storage, None, ErrorToast(FailureMessage))
      else Landing(storage[AccessKey := JsString(access.value)][RefreshKey := JsString(refresh.value)],
                   Some("/"), SuccessToast("Login successful!"))
  }

  /** The login request goes through the intercepting client: a stored
      (possibly stale) access token rides along as a bearer header, and a 401
      on it enters the refresh path like any other request. */
  lemma LoginGoesThroughClient(w: World, email: string, password: string)
    ensures var s := Call(w, LoginRequest(email, password));
            && |s.world.log| > |w.log|
            && s.world.log[|w.log|].url == BaseUrl + "/login/"
            && (UsableToken(w.storage).Some? ==>
                  && Authorization in s.world.log[|w.log|].headers
                  && s.world.log[|w.log|].headers[Authorization] == Bearer(w.storage[AccessKey]))
            && (ApiProperties.Unauthorized(ApiProperties.NthOutcome(w.script, 0)) ==> s.req.retry)
  {
    ApiProperties.BearerOnFirstSend(w, LoginRequest(email, password));
    ApiProperties.AtMostOneRefresh(w, LoginRequest(email, password));
  }

  class LoginPage {
    const api: Client
    var email: string
    var password: string
    var isLoading: bool

    constructor (api: Client)
      ensures this.api == api && email == "" && password == "" && !isLoading
    {
      this.api := api;
      email, password := "", "";
      isLoading := false;
    }

    /** `handleSubmit` (Login.jsx:18-32). */
    method HandleSubmit() returns (toast: Toast)
      modifies this`isLoading, api.window, api.net
      ensures var s := Call(old(api.WorldOf()), LoginRequest(old(email), old(password)));
              var after := AfterLogin(s.world.storage, s.reply);
              && api.window.storage == after.storage
              && api.window.route == after.route.GetOr(old(api.window.route))
              && api.window.href == s.world.href
              && api.net.script == s.world.script && api.net.log == s.world.log
              && toast == after.toast
      ensures !isLoading && email == old(email) && password == old(password)
    {
      isLoading := true;
      var config := new RequestConfig(Post, "/login/", map[],
                                      JsonBody(Obj([("email", Str(email)), ("password", Str(password))])));
      assert config.Value() == LoginRequest(email, password);
      var reply := api.Request(config);
      toast := Land(reply);
      isLoading := false;
    }

    /** Lines 24-29: the page's handling of the settled login promise, on
        the store and the router. */
    method Land(reply: Reply<Response>) returns (toast: Toast)
      modifies api.window`storage, api.window`route
      ensures var after := AfterLogin(old(api.window.storage), reply);
              && api.window.storage == after.storage
              && api.window.route == after.route.GetOr(old(api.window.route))
              && toast == after.toast
    {
      var access := if reply.Resolved? then Property(reply.value.data, "access") else None;
      if access.Some? {
        api.window.SetItem(AccessKey, JsString(access.value));
        var refresh := Property(reply.value.data, "refresh");
        api.window.SetItem(RefreshKey, JsString(refresh.value));
        toast := SuccessToast("Login successful!");
        api.window.Navigate("/");
      } else {
        toast := ErrorToast(FailureMessage);
      }
    }
  }
}
