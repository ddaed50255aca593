/** What one request through the client does, case by case: the bearer rule,
    pass-through of successes and of errors other than a first 401, the
    one-shot refresh with exactly one replay, and the session teardown when
    the refresh cannot be done. */
module ApiProperties {
  import opened Wrappers
  import opened Json
  import opened Http
  import opened Browser
  import opened Api

  /** The request as the interceptor leaves it. */
  function Intercepted(w: World, q: Req): Req
  {
    q.(headers := WithBearer(w.storage, q.headers))
  }

  /** The outcome the network gives to the `k`-th call from now. */
  function NthOutcome(script: seq<Outcome>, k: nat): Outcome
  {
    if k < |script| then script[k] else NoAnswer
  }

  /** An answer with status 401. */
  predicate Unauthorized(o: Outcome)
  {
    o.Answered? && o.response.status == 401
  }

  /** A request already marked `_retry` is sent once and its outcome returned
      as axios settles it: no refresh, no change to the store, no redirect. */
  lemma RetriedRequestSentOnce(w: World, q: Req)
    requires q.retry
    ensures var s := Call(w, q);
            && s.world.storage == w.storage
            && s.world.href == w.href
            && s.world.log == w.log + [Dispatch(Intercepted(w, q))]
            && s.world.script == Next(w.script).1
            && s.req == Intercepted(w, q)
            && s.reply == Settle(NthOutcome(w.script, 0))
  {
  }

  /** Every call sends the request first, with `Authorization: Bearer <token>`
      exactly when a non-empty access token is stored, and otherwise with the
      caller's headers untouched. */
  lemma BearerOnFirstSend(w: World, q: Req)
    ensures Call(w, q).world.log[|w.log|] == Sent(q.verb, BaseUrl + q.path, WithBearer(w.storage, q.headers), q.body)
    ensures var first := Call(w, q).world.log[|w.log|];
            && (UsableToken(w.storage).Some? ==> first.headers[Authorization] == "Bearer " + w.storage[AccessKey])
            && (UsableToken(w.storage).None? ==> first.headers == q.headers)
  {
    var q1 := Intercepted(w, q);
    var t := Transmit(w, Dispatch(q1));
    var settled := Settle(t.1);
    if !settled.Resolved? && Status(settled.error) == Some(401) && !q.retry {
      var s := Refresh(t.0, q1.(retry := true));
      assert s.world.log[..|t.0.log|] == t.0.log;
      assert s.world.log[|w.log|] == s.world.log[..|t.0.log|][|w.log|];
    }
  }

  /** A 2xx answer reaches the caller unchanged and the store is untouched. */
  lemma SuccessPassesThrough(w: World, q: Req)
    requires Settle(NthOutcome(w.script, 0)).Resolved?
    ensures var s := Call(w, q);
            && s.reply == Resolved(w.script[0].response)
            && s.world.storage == w.storage
            && s.world.href == w.href
            && s.world.log == w.log + [Dispatch(Intercepted(w, q))]
  {
  }

  /** A transport failure, a non-401 error, or a 401 on a request already
      marked `_retry` is rejected unchanged, without a refresh and without
      touching the store. */
  lemma OtherErrorsPassThrough(w: World, q: Req)
    requires Settle(NthOutcome(w.script, 0)).Rejected?
    requires Status(Settle(NthOutcome(w.script, 0)).error) != Some(401) || q.retry
    ensures var s := Call(w, q);
            && s.reply == Settle(NthOutcome(w.script, 0))
            && s.world.storage == w.storage
            && s.world.href == w.href
            && s.world.log == w.log + [Dispatch(Intercepted(w, q))]
  {
  }

  /** A first 401 marks the request `_retry` before anything else, so the
      refresh is attempted once: at most three calls go out in all (request,
      refresh, replay), and only one for a request already retried. */
  lemma AtMostOneRefresh(w: World, q: Req)
    ensures var s := Call(w, q);
            && |w.log| < |s.world.log| <= |w.log| + (if q.retry then 1 else 3)
            && s.world.log[..|w.log|] == w.log
            && (Unauthorized(NthOutcome(w.script, 0)) ==> s.req.retry)
  {
    BearerOnFirstSend(w, q);
    var q1 := Intercepted(w, q);
    var t := Transmit(w, Dispatch(q1));
    var settled := Settle(t.1);
    if !settled.Resolved? && Status(settled.error) == Some(401) && !q.retry {
      var r := q1.(retry := true);
      var token := Item(t.0.storage, RefreshKey);
      if token.Some? && token.value != "" {
        var t2 := Transmit(t.0, RefreshCall(token.value));
        var refreshed := Settle(t2.1);
        if refreshed.Resolved? {
          var access := Property(refreshed.value.data, "access");
          if access.Some? {
            var renewed := JsString(access.value);
            RetriedRequestSentOnce(t2.0.(storage := t2.0.storage[AccessKey := renewed]),
                                   r.(headers := r.headers[Authorization := Bearer(renewed)]));
          }
        }
      }
    }
  }

  /** A first 401 with a stored refresh token posts exactly `{refresh: token}`
      to the fixed refresh URL, without a bearer header. When that succeeds,
      `access_token` becomes `String(data.access)`, `refresh_token` is kept,
      the original request is replayed exactly once with the new bearer
      header, and the caller receives whatever the replay settles to; a
      failed replay, a second 401 included, leaves the tokens in place. */
  lemma RefreshThenReplay(w: World, q: Req, token: string, access: Value)
    requires !q.retry
    requires Unauthorized(NthOutcome(w.script, 0))
    requires Item(w.storage, RefreshKey) == Some(token) && token != ""
    requires Settle(NthOutcome(w.script, 1)).Resolved?
    requires Property(NthOutcome(w.script, 1).response.data, "access") == Some(access)
    ensures var s := Call(w, q);
            var renewed := JsString(access);
            var first := Dispatch(Intercepted(w, q));
            && s.world.storage == w.storage[AccessKey := renewed]
            && s.world.storage[RefreshKey] == token
            && s.world.href == w.href
            && s.world.log == w.log + [first, RefreshCall(token),
                                      first.(headers := first.headers[Authorization := "Bearer " + renewed])]
            && s.reply == Settle(NthOutcome(w.script, 2))
            && s.req.retry
  {
    var q1 := Intercepted(w, q);
    var t := Transmit(w, Dispatch(q1));
    assert t.0.script == w.script[1..];
    assert Call(w, q) == Refresh(t.0, q1.(retry := true));
    var t2 := Transmit(t.0, RefreshCall(token));
    assert t2.0.script == w.script[2..];
    var renewed := JsString(access);
    var r := q1.(retry := true);
    var w3 := t2.0.(storage := t2.0.storage[AccessKey := renewed]);
    var q3 := r.(headers := r.headers[Authorization := Bearer(renewed)]);
    assert Refresh(t.0, r) == Call(w3, q3);
    RetriedRequestSentOnce(w3, q3);
    assert WithBearer(w3.storage, q3.headers) == q3.headers;
    assert Dispatch(Intercepted(w3, q3)) == Dispatch(q3);
  }

  /** When the refresh cannot be done (no usable refresh token, a rejected
      refresh call, or a refresh body whose `access` cannot be read), both
      tokens are removed, `username` stays, the page is redirected to /login,
      nothing is replayed, and the caller is rejected with the refresh error. */
  lemma RefreshFailureEndsSession(w: World, q: Req)
    requires !q.retry
    requires Unauthorized(NthOutcome(w.script, 0))
    requires var token := Item(w.storage, RefreshKey);
             || token.None? || token.value == ""
             || Settle(NthOutcome(w.script, 1)).Rejected?
             || Property(NthOutcome(w.script, 1).response.data, "access").None?
    ensures var s := Call(w, q);
            && s.world.storage == w.storage - {AccessKey, RefreshKey}
            && (UsernameKey in w.storage ==> Item(s.world.storage, UsernameKey) == Item(w.storage, UsernameKey))
            && s.world.href == Some(LoginPath)
            && s.reply.Rejected?
    ensures var s := Call(w, q);
            var token := Item(w.storage, RefreshKey);
            && (token.None? || token.value == "" ==>
                  s.reply == Rejected(MissingRefreshToken) && |s.world.log| == |w.log| + 1)
            && (token.Some? && token.value != "" ==>
                  |s.world.log| == |w.log| + 2 && s.world.log[|w.log| + 1] == RefreshCall(token.value)
                  && s.reply == (if Settle(NthOutcome(w.script, 1)).Rejected?
                                 then Settle(NthOutcome(w.script, 1)) else Rejected(TypeError)))
  {
    var q1 := Intercepted(w, q);
    var t := Transmit(w, Dispatch(q1));
    assert t.0.script == w.script[1..];
    assert Call(w, q) == Refresh(t.0, q1.(retry := true));
  }
}
