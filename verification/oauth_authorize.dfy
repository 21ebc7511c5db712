/** The second way to start the seller's authorization (`mp-oauth-authorize`). It takes the
    client id from the secret store, puts `redirect_uri` before `state` in the URL, and stores
    the state row without looking at the outcome, so the URL and the state are returned even
    when the row was not written. */
module OAuthAuthorize {
  import opened Wrappers
  import opened Tables
  import opened SearchParams
  import OAuthInitiate

  datatype Error = Unauthorized | NoCredentials

  /** The `error` text of the 400 reply. */
  function Message(e: Error): string {
    match e
    case Unauthorized => "Unauthorized"
    case NoCredentials => "Credenciais não encontradas"
  }

  datatype Response =
    | Authorized(authorizationUrl: OAuthInitiate.Url, state: string)
    | Failed(error: Error)

  function Status(r: Response): int {
    if r.Authorized? then 200 else 400
  }

  /** The query this handler builds, in the order of its `set` calls. */
  function AuthorizeQuery(clientId: string, state: string, redirectUri: string): seq<Pair> {
    [("client_id", clientId), ("response_type", "code"), ("platform_id", "mp"),
     ("redirect_uri", redirectUri), ("state", state)]
  }

  /** Both start handlers send the same parameters; only their order differs, and `get`
      reads the same value for every name. */
  lemma {:induction false} SameParametersAsInitiate(clientId: string, state: string, redirectUri: string, name: string)
    ensures Get(AuthorizeQuery(clientId, state, redirectUri), name)
            == Get(OAuthInitiate.AuthorizationQuery(clientId, state, redirectUri), name)
    ensures Get(AuthorizeQuery(clientId, state, redirectUri), "state") == Some(state)
  {
    var a := AuthorizeQuery(clientId, state, redirectUri);
    var b := OAuthInitiate.AuthorizationQuery(clientId, state, redirectUri);
    GetFirst(a, 4);
    if name == "client_id" {
      GetFirst(a, 0);
      GetFirst(b, 0);
    } else if name == "response_type" {
      GetFirst(a, 1);
      GetFirst(b, 1);
    } else if name == "platform_id" {
      GetFirst(a, 2);
      GetFirst(b, 2);
    } else if name == "redirect_uri" {
      GetFirst(a, 3);
      GetFirst(b, 4);
    } else if name != "state" {
      assert forall i :: 0 <= i < |a| ==> a[i].0 != name;
      assert forall i :: 0 <= i < |b| ==> b[i].0 != name;
    } else {
      GetFirst(b, 3);
    }
  }

  /** The five `set` calls, each naming a parameter the query does not hold yet, append the
      parameters in call order. */
  lemma {:induction false} SetsBuildQuery(clientId: string, state: string, redirectUri: string)
    ensures SetParam(SetParam(SetParam(SetParam(SetParam([], "client_id", clientId), "response_type", "code"),
                                       "platform_id", "mp"), "redirect_uri", redirectUri), "state", state)
            == AuthorizeQuery(clientId, state, redirectUri)
  {
    var p1 := [("client_id", clientId)];
    assert SetParam([], "client_id", clientId) == p1 by { SetNewName([], "client_id", clientId); }
    var p2 := p1 + [("response_type", "code")];
    assert SetParam(p1, "response_type", "code") == p2 by { SetNewName(p1, "response_type", "code"); }
    var p3 := p2 + [("platform_id", "mp")];
    assert SetParam(p2, "platform_id", "mp") == p3 by { SetNewName(p2, "platform_id", "mp"); }
    var p4 := p3 + [("redirect_uri", redirectUri)];
    assert SetParam(p3, "redirect_uri", redirectUri) == p4 by { SetNewName(p3, "redirect_uri", redirectUri); }
    assert SetParam(p4, "state", state) == p4 + [("state", state)] by { SetNewName(p4, "state", state); }
  }

  /** The five successive `searchParams.set` calls on a fresh URL object. */
  method BuildAuthorizationUrl(clientId: string, state: string, redirectUri: string) returns (url: OAuthInitiate.Url)
    ensures url == OAuthInitiate.Url(OAuthInitiate.AuthorizationEndpoint, AuthorizeQuery(clientId, state, redirectUri))
  {
    var q := new Query();
    q.Set("client_id", clientId);
    q.Set("response_type", "code");
    q.Set("platform_id", "mp");
    q.Set("redirect_uri", redirectUri);
    q.Set("state", state);
    SetsBuildQuery(clientId, state, redirectUri);
    url := OAuthInitiate.Url(OAuthInitiate.AuthorizationEndpoint, q.pairs);
  }

  /** The handler. `authorization` is the request header, `user` what the auth service reports
      for its token, `clientId` the `MP_CLIENT_ID` secret when the lookup finds one, `state`
      the fresh UUID, and `insertFails` whether the unchecked state insert fails. */
  method Authorize(db: Database, authorization: Option<string>, user: Option<AuthUser>, clientId: Option<string>,
                   supabaseUrl: string, state: string, now: int, insertFails: bool)
    returns (resp: Response)
    modifies db`oauthStates
    ensures !Present(authorization) || user.None? ==> resp == Failed(Unauthorized)
    ensures Present(authorization) && user.Some? && clientId.None? ==> resp == Failed(NoCredentials)
    ensures resp.Failed? || insertFails ==> db.oauthStates == old(db.oauthStates)
    ensures resp.Authorized? ==>
              && Present(authorization) && user.Some? && clientId.Some?
              && resp.state == state
              && resp.authorizationUrl == OAuthInitiate.Url(OAuthInitiate.AuthorizationEndpoint,
                                            AuthorizeQuery(clientId.value, state, OAuthInitiate.RedirectUri(supabaseUrl)))
              && (!insertFails ==> db.oauthStates == old(db.oauthStates) + [OAuthInitiate.StateRow(state, user.value.id, now)])
    ensures Present(authorization) && user.Some? && clientId.Some? ==> resp.Authorized?
  {
    if !Present(authorization) || user.None? {
      return Failed(Unauthorized);
    }
    if clientId.None? {
      return Failed(NoCredentials);
    }
    var url := BuildAuthorizationUrl(clientId.value, state, OAuthInitiate.RedirectUri(supabaseUrl));
    if !insertFails {
      db.oauthStates := db.oauthStates + [OAuthInitiate.StateRow(state, user.value.id, now)];
    }
    resp := Authorized(url, state);
  }
}
