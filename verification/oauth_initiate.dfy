/** Starting the seller's authorization (`mp-oauth-initiate`): the authorization-code grant of
    section 4.1 of RFC 6749. The handler stores a fresh `state` value for the caller, valid for
    ten minutes, and answers with the processor's authorization URL carrying that state, the
    CSRF protection of section 10.12 of RFC 6749. */
module OAuthInitiate {
  import opened Wrappers
  import opened Tables
  import opened SearchParams

  /** How long a state row is accepted, in milliseconds: ten minutes. */
  const StateLifetime := 10 * 60 * 1000

  const AuthorizationEndpoint := "https://auth.mercadopago.com/authorization"

  /** Where the processor sends the browser back: the callback function. */
  function RedirectUri(supabaseUrl: string): string {
    supabaseUrl + "/functions/v1/mp-oauth-callback"
  }

  /** `${value}` of an environment variable that may be unset. */
  function EnvText(value: Option<string>): (s: string)
    ensures value.Some? ==> s == value.value
    ensures value.None? ==> s == "undefined"
  {
    value.GetOr("undefined")
  }

  /** A URL: the address without its query, and the query's pairs. */
  datatype Url = Url(address: string, query: seq<Pair>)

  datatype Error = NotAuthenticated | StateNotStored

  /** The `error` text of the 500 reply. */
  function Message(e: Error): string {
    match e
    case NotAuthenticated => "Usuário inválido ou não autenticado."
    case StateNotStored => "Não foi possível iniciar o processo de autorização."
  }

  datatype Response = Started(authorizationUrl: Url) | Failed(error: Error)

  function Status(r: Response): int {
    if r.Started? then 200 else 500
  }

  /** The row that records a state issued at `now` for `userId`. */
  function StateRow(state: string, userId: Id, now: int): (row: OAuthState)
    ensures row.state == state && row.userId == userId
    ensures row.expiresAt - now == StateLifetime
  {
    OAuthState(state, userId, now + StateLifetime)
  }

  /** The query the handler builds, in the order of its `set` calls. */
  function AuthorizationQuery(clientId: string, state: string, redirectUri: string): seq<Pair> {
    [("client_id", clientId), ("response_type", "code"), ("platform_id", "mp"),
     ("state", state), ("redirect_uri", redirectUri)]
  }

  /** The URL asks for an authorization code and carries the state it was issued with, and
      each parameter is read back as set. */
  lemma {:induction false} AuthorizationQueryParameters(clientId: string, state: string, redirectUri: string)
    ensures var q := AuthorizationQuery(clientId, state, redirectUri);
            && Get(q, "client_id") == Some(clientId) && Get(q, "response_type") == Some("code")
            && Get(q, "platform_id") == Some("mp") && Get(q, "state") == Some(state)
            && Get(q, "redirect_uri") == Some(redirectUri)
  {
    var q := AuthorizationQuery(clientId, state, redirectUri);
    GetFirst(q, 0);
    GetFirst(q, 1);
    GetFirst(q, 2);
    GetFirst(q, 3);
    GetFirst(q, 4);
  }

  /** The five `set` calls, each naming a parameter the query does not hold yet, append the
      parameters in call order. */
  lemma {:induction false} SetsBuildQuery(clientId: string, state: string, redirectUri: string)
    ensures SetParam(SetParam(SetParam(SetParam(SetParam([], "client_id", clientId), "response_type", "code"),
                                       "platform_id", "mp"), "state", state), "redirect_uri", redirectUri)
            == AuthorizationQuery(clientId, state, redirectUri)
  {
    var p1 := [("client_id", clientId)];
    assert SetParam([], "client_id", clientId) == p1 by { SetNewName([], "client_id", clientId); }
    var p2 := p1 + [("response_type", "code")];
    assert SetParam(p1, "response_type", "code") == p2 by { SetNewName(p1, "response_type", "code"); }
    var p3 := p2 + [("platform_id", "mp")];
    assert SetParam(p2, "platform_id", "mp") == p3 by { SetNewName(p2, "platform_id", "mp"); }
    var p4 := p3 + [("state", state)];
    assert SetParam(p3, "state", state) == p4 by { SetNewName(p3, "state", state); }
    assert SetParam(p4, "redirect_uri", redirectUri) == p4 + [("redirect_uri", redirectUri)] by { SetNewName(p4, "redirect_uri", redirectUri); }
  }

  /** The five successive `searchParams.set` calls on a fresh URL object. */
  method BuildAuthorizationUrl(clientId: string, state: string, redirectUri: string) returns (url: Url)
    ensures url == Url(AuthorizationEndpoint, AuthorizationQuery(clientId, state, redirectUri))
  {
    var q := new Query();
    q.Set("client_id", clientId);
    q.Set("response_type", "code");
    q.Set("platform_id", "mp");
    q.Set("state", state);
    q.Set("redirect_uri", redirectUri);
    SetsBuildQuery(clientId, state, redirectUri);
    url := Url(AuthorizationEndpoint, q.pairs);
  }

  /** The handler. `user` is what the auth service reports for the caller's token, `state`
      the fresh UUID, `now` the clock, and `insertFails` whether the state insert fails. */
  method Initiate(db: Database, user: Option<AuthUser>, supabaseUrl: string, clientId: Option<string>,
                  state: string, now: int, insertFails: bool)
    returns (resp: Response)
    modifies db`oauthStates
    ensures user.None? ==> resp == Failed(NotAuthenticated)
    ensures user.Some? && insertFails ==> resp == Failed(StateNotStored)
    ensures user.Some? && !insertFails ==> resp.Started?
    ensures resp.Failed? <==> db.oauthStates == old(db.oauthStates)
    ensures resp.Started? ==>
              && user.Some? && !insertFails
              && db.oauthStates == old(db.oauthStates) + [StateRow(state, user.value.id, now)]
              && resp.authorizationUrl == Url(AuthorizationEndpoint, AuthorizationQuery(EnvText(clientId), state, RedirectUri(supabaseUrl)))
  {
    if user.None? {
      return Failed(NotAuthenticated);
    }
    if insertFails {
      return Failed(StateNotStored);
    }
    db.oauthStates := db.oauthStates + [StateRow(state, user.value.id, now)];
    var url := BuildAuthorizationUrl(EnvText(clientId), state, RedirectUri(supabaseUrl));
    resp := Started(url);
  }
}
