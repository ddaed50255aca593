/** How the pieces of the session fit together: what login writes is what the
    request interceptor attaches, and what logout removes stops it. */
module Session {
  import opened Json
  import opened Http
  import opened Browser
  import opened Api
  import ApiProperties
  import Login
  import Navbar

  /** After a successful login whose response carries a non-empty access
      token, the next request through the client carries that token as a
      bearer header and the navbar shows the user as signed in; after logout
      the next request goes out with its own headers only and the navbar
      shows the user as signed out. */
  lemma LoginThenLogout(storage: Storage, reply: Reply<Response>, q: Req, href: Wrappers.Option<string>,
                        script: seq<Outcome>, log: seq<Sent>)
    requires reply.Resolved? && Property(reply.value.data, "access").Some?
    requires JsString(Property(reply.value.data, "access").value) != ""
    ensures var signedIn := Login.AfterLogin(storage, reply).storage;
            var sent := Call(World(signedIn, href, script, log), q).world.log;
            && Navbar.IsAuthenticated(signedIn)
            && |sent| > |log| && Authorization in sent[|log|].headers
            && sent[|log|].headers[Authorization] == Bearer(JsString(Property(reply.value.data, "access").value))
    ensures var signedOut := Navbar.SignedOut(Login.AfterLogin(storage, reply).storage);
            var sent := Call(World(signedOut, href, script, log), q).world.log;
            && !Navbar.IsAuthenticated(signedOut)
            && |sent| > |log| && sent[|log|].headers == q.headers
  {
    var signedIn := Login.AfterLogin(storage, reply).storage;
    assert signedIn[AccessKey] == JsString(Property(reply.value.data, "access").value);
    ApiProperties.BearerOnFirstSend(World(signedIn, href, script, log), q);
    ApiProperties.BearerOnFirstSend(World(Navbar.SignedOut(signedIn), href, script, log), q);
  }
}
