/** Finishing the seller's authorization (`mp-oauth-callback`): the redirect endpoint of the
    authorization-code grant (section 4.1.2 of RFC 6749). It exchanges the code for tokens
    (section 4.1.3 of RFC 6749), and only then checks the `state` against the stored rows. It
    finds or creates the caller's seller record, stores the base64 of both tokens under the
    seller id, and deletes the state. The reply is an HTML page that posts `MP_AUTH_SUCCESS` or
    `MP_AUTH_ERROR` to the window that opened it. */
module OAuthCallback {
  import opened Wrappers
  import opened Seqs
  import opened Text
  import opened Tables
  import opened Base64
  import OAuthInitiate
  import OrderCheckout
  import AppointmentCheckout

  /** The query parameters `code`, `state` and `error` of the redirect. */
  datatype Query = Query(code: Option<string>, state: Option<string>, error: Option<string>)

  /** The form the code exchange posts to the token endpoint. */
  datatype Exchange = AuthorizationCode(clientId: string, clientSecret: string, code: string, redirectUri: string)

  /** The token endpoint's answer: the issued tokens, or a non-OK status. */
  datatype TokenReply =
    | Issued(accessToken: string, refreshToken: string, publicKey: Option<string>, mpUserId: string, expiresIn: int)
    | Refused(status: int)

  datatype Error =
    | MissingCodeOrState
    | NoCredentials
    | ExchangeFailed(status: int)
    | InvalidState
    | ProfileMissing
    | SellerNotCreated
    | TokenNotEncodable
    | TokensNotStored

  /** The `error` of the failure page; `TokenNotEncodable` is the runtime's `btoa` exception. */
  function Message(e: Error): string {
    match e
    case MissingCodeOrState => "Código ou state não fornecidos"
    case NoCredentials => "Credenciais MP não encontradas"
    case ExchangeFailed(status) => "Erro ao obter tokens: " + IntToString(status)
    case InvalidState => "State inválido ou expirado"
    case ProfileMissing => "Perfil do usuário não encontrado"
    case SellerNotCreated => "Erro ao criar perfil de vendedor"
    case TokenNotEncodable => "The string to be encoded contains characters outside of the Latin1 range."
    case TokensNotStored => "Erro ao armazenar credenciais"
  }

  /** The page returned: the processor reported an error, the seller is connected, or a step
      failed. */
  datatype Page = Denied(reason: string) | Connected | Failed(error: Error)

  /** The `type` of the message the page posts to its opener; the denial page posts none. */
  function PostedType(p: Page): (t: Option<string>)
    ensures t.None? <==> p.Denied?
  {
    match p
    case Denied(_) => None
    case Connected => Some("MP_AUTH_SUCCESS")
    case Failed(_) => Some("MP_AUTH_ERROR")
  }

  /** The code exchange the handler sends, once both parameters and both secrets are there. */
  function ExchangeRequest(q: Query, clientId: Option<string>, clientSecret: Option<string>,
                           supabaseUrl: string): (r: Option<Exchange>)
    ensures r.Some? <==> Present(q.code) && Present(q.state) && clientId.Some? && clientSecret.Some?
    ensures r.Some? ==> r.value.code == q.code.value && r.value.redirectUri == OAuthInitiate.RedirectUri(supabaseUrl)
  {
    if !Present(q.code) || !Present(q.state) || clientId.None? || clientSecret.None? then None
    else Some(AuthorizationCode(clientId.value, clientSecret.value, q.code.value, OAuthInitiate.RedirectUri(supabaseUrl)))
  }

  /** The row filter `.eq('state', state).gt('expires_at', now)`. */
  function LiveState(state: string, now: int): OAuthState -> bool {
    (s: OAuthState) => s.state == state && s.expiresAt > now
  }

  /** The state lookup, with `.single()`. */
  function StateOwner(states: seq<OAuthState>, state: string, now: int): Option<OAuthState> {
    Single(states, LiveState(state, now))
  }

  /** What the checks before any write establish: the state, its owner and the issued tokens. */
  datatype Grant = Grant(state: string, userId: Id, accessToken: string, refreshToken: string,
                         publicKey: Option<string>, mpUserId: string, expiresIn: int)

  /** The checks in their order: parameters, secrets, code exchange, then the state. */
  function Validate(q: Query, clientId: Option<string>, clientSecret: Option<string>, reply: TokenReply,
                    states: seq<OAuthState>, now: int): (r: Result<Grant, Error>)
    ensures !Present(q.code) || !Present(q.state) ==> r == Failure(MissingCodeOrState)
    ensures Present(q.code) && Present(q.state) && (clientId.None? || clientSecret.None?) ==> r == Failure(NoCredentials)
    ensures Present(q.code) && Present(q.state) && clientId.Some? && clientSecret.Some? && reply.Refused? ==>
              r == Failure(ExchangeFailed(reply.status))
    ensures r.Success? <==>
              && Present(q.code) && Present(q.state) && clientId.Some? && clientSecret.Some? && reply.Issued?
              && StateOwner(states, q.state.value, now).Some?
    ensures r.Success? ==>
              && r.value.state == q.state.value
              && r.value.userId == StateOwner(states, q.state.value, now).value.userId
              && r.value.accessToken == reply.accessToken && r.value.refreshToken == reply.refreshToken
  {
    if !Present(q.code) || !Present(q.state) then Failure(MissingCodeOrState)
    else if clientId.None? || clientSecret.None? then Failure(NoCredentials)
    else if reply.Refused? then Failure(ExchangeFailed(reply.status))
    else
      match StateOwner(states, q.state.value, now)
      case None => Failure(InvalidState)
      case Some(row) =>
        Success(Grant(q.state.value, row.userId, reply.accessToken, reply.refreshToken,
                      reply.publicKey, reply.mpUserId, reply.expiresIn))
  }

  /** A state issued by either start handler is accepted by the callback exactly while it has
      not expired, provided no other row carries the same value. */
  lemma {:induction false} IssuedStateIsAcceptedUntilExpiry(states: seq<OAuthState>, state: string, userId: Id,
                                                            issuedAt: int, now: int)
    requires forall i :: 0 <= i < |states| ==> states[i].state != state
    ensures var row := OAuthInitiate.StateRow(state, userId, issuedAt);
            && (now < issuedAt + OAuthInitiate.StateLifetime ==> StateOwner(states + [row], state, now) == Some(row))
            && (now >= issuedAt + OAuthInitiate.StateLifetime ==> StateOwner(states + [row], state, now).None?)
  {
    var row := OAuthInitiate.StateRow(state, userId, issuedAt);
    var p := LiveState(state, now);
    assert forall i :: 0 <= i < |states| ==> !p(states[i]);
    if now < issuedAt + OAuthInitiate.StateLifetime {
      SingleAppendFresh(states, p, row);
    } else {
      FilterEmpty(states, p);
      FilterAppend(states, [row], p);
    }
  }

  /** `.delete().eq('state', state)`: every row with that state goes. */
  function Consume(states: seq<OAuthState>, state: string): (r: seq<OAuthState>)
    ensures forall i :: 0 <= i < |r| ==> r[i].state != state
  {
    Filter(states, (s: OAuthState) => s.state != state)
  }

  /** Once a callback has consumed its state, a second callback with the same state fails,
      whatever the token endpoint answers and whenever it arrives: replay is refused. */
  lemma {:induction false} ConsumedStateIsRefused(q: Query, clientId: Option<string>, clientSecret: Option<string>,
                                                  reply: TokenReply, states: seq<OAuthState>, now: int)
    requires q.state.Some?
    ensures !Validate(q, clientId, clientSecret, reply, Consume(states, q.state.value), now).Success?
  {
    var rest := Consume(states, q.state.value);
    var p := LiveState(q.state.value, now);
    FilterEmpty(rest, p);
  }

  /** The seller lookup `.eq('user_id', userId).single()`. */
  function SellerOf(sellers: seq<Seller>, userId: Id): Option<Seller> {
    Single(sellers, (s: Seller) => s.userId == userId)
  }

  /** The profile lookup `.eq('user_id', userId).single()`. */
  function ProfileOf(profiles: seq<Profile>, userId: Id): Option<Profile> {
    Single(profiles, (p: Profile) => p.userId == userId)
  }

  /** `full_name || 'Minha Loja'`. */
  function BusinessName(p: Profile): (name: string)
    ensures name != ""
    ensures Present(p.fullName) ==> name == p.fullName.value
  {
    if Present(p.fullName) then p.fullName.value else "Minha Loja"
  }

  /** The seller row created for a user without one. */
  function NewSeller(id: Id, g: Grant, p: Profile): (s: Seller)
    ensures s.id == id && s.userId == g.userId && s.profileId == p.id && s.mpUserId == Some(g.mpUserId)
  {
    Seller(id, g.userId, p.id, BusinessName(p), Some(g.mpUserId))
  }

  /** The token row for the seller: both tokens in base64, the expiry `expires_in` seconds
      from now. `btoa` throws (None) on a token outside Latin-1. */
  function TokenRowFor(sellerId: Id, g: Grant, now: int): (r: Option<TokenRow>)
    ensures r.Some? <==> IsByteString(g.accessToken) && IsByteString(g.refreshToken)
    ensures r.Some? ==>
              && r.value.sellerId == sellerId && r.value.userId.None?
              && Atob(r.value.encryptedAccessToken) == Some(g.accessToken)
              && Atob(r.value.encryptedRefreshToken) == Some(g.refreshToken)
              && r.value.expiresAt == now + g.expiresIn * 1000
  {
    var access, refresh := Btoa(g.accessToken), Btoa(g.refreshToken);
    if access.None? || refresh.None? then None
    else
      AtobBtoa(g.accessToken);
      AtobBtoa(g.refreshToken);
      Some(TokenRow(sellerId, None, access.value, refresh.value, g.publicKey, g.mpUserId, now + g.expiresIn * 1000))
  }

  /** A first connection makes the order checkout's lookup by `seller_id` find the new row and
      decode the access token the processor issued. */
  lemma {:induction false} FirstConnectionIsUsable(tokens: seq<TokenRow>, sellerId: Id, g: Grant, now: int)
    requires TokenRowFor(sellerId, g, now).Some?
    requires forall i :: 0 <= i < |tokens| ==> tokens[i].sellerId != sellerId
    ensures var row := TokenRowFor(sellerId, g, now).value;
            && OrderCheckout.TokenBySellerId(tokens + [row], sellerId) == Some(row)
            && Atob(row.encryptedAccessToken) == Some(g.accessToken)
  {
    var row := TokenRowFor(sellerId, g, now).value;
    SingleAppendFresh(tokens, OrderCheckout.ForSeller(sellerId), row);
  }

  /** The "upsert" names no conflict column, so it conflicts only on the generated primary key
      and always inserts. A seller who connects again then holds two rows, and the order
      checkout's `.single()` lookup finds none. */
  lemma {:induction false} ReconnectionHidesToken(tokens: seq<TokenRow>, sellerId: Id, g: Grant, now: int, i: nat)
    requires TokenRowFor(sellerId, g, now).Some?
    requires i < |tokens| && tokens[i].sellerId == sellerId
    ensures OrderCheckout.TokenBySellerId(tokens + [TokenRowFor(sellerId, g, now).value], sellerId).None?
  {
    SingleAppendDuplicate(tokens, OrderCheckout.ForSeller(sellerId), TokenRowFor(sellerId, g, now).value, i);
  }

  /** The rows the callback writes carry no `user_id`, so the appointment checkout, which looks
      tokens up by `user_id`, never finds a seller connected this way. */
  lemma {:induction false} CallbackTokensStayInvisibleToAppointments(
    tokens: seq<TokenRow>, sellerId: Id, g: Grant, now: int,
    user: Option<AuthUser>, req: AppointmentCheckout.Request, headers: AppointmentCheckout.Headers,
    profiles: seq<Profile>, services: seq<Service>)
    requires TokenRowFor(sellerId, g, now).Some?
    requires forall i :: 0 <= i < |tokens| ==> tokens[i].userId.None?
    ensures !AppointmentCheckout.Validate(user, req, headers, profiles, services,
                                          tokens + [TokenRowFor(sellerId, g, now).value]).Success?
  {
    var after := tokens + [TokenRowFor(sellerId, g, now).value];
    assert forall i :: 0 <= i < |after| ==> after[i].userId.None? by {
      forall i | 0 <= i < |after| ensures after[i].userId.None? {
        if i < |tokens| { assert after[i] == tokens[i]; }
      }
    }
    AppointmentCheckout.CallbackTokensAreNotFound(user, req, headers, profiles, services, after);
  }

  /** The seller the tokens are stored for: the user's existing seller, or the new one. */
  function SellerIdFor(sellers: seq<Seller>, userId: Id, newSellerId: Id): Id {
    match SellerOf(sellers, userId)
    case Some(s) => s.id
    case None => newSellerId
  }

  /** The handler. `reply` is the token endpoint's answer, `newSellerId` the id the store gives
      a created seller, and the flags say which writes fail; the state delete is unchecked. */
  method Complete(db: Database, q: Query, clientId: Option<string>, clientSecret: Option<string>, supabaseUrl: string,
                  reply: TokenReply, now: int, newSellerId: Id,
                  sellerInsertFails: bool, tokenStoreFails: bool, deleteFails: bool)
    returns (page: Page, sent: Option<Exchange>)
    modifies db`sellers, db`tokens, db`oauthStates
    ensures Present(q.error) ==> page == Denied(q.error.value) && sent.None?
    ensures !Present(q.error) ==> sent == ExchangeRequest(q, clientId, clientSecret, supabaseUrl)
    ensures var v := Validate(q, clientId, clientSecret, reply, old(db.oauthStates), now);
            !Present(q.error) && v.Failure? ==> page == Failed(v.error)
    ensures !page.Connected? ==> db.oauthStates == old(db.oauthStates) && db.tokens == old(db.tokens)
    ensures var v := Validate(q, clientId, clientSecret, reply, old(db.oauthStates), now);
            Present(q.error) || v.Failure? ==> db.sellers == old(db.sellers)
    ensures var v := Validate(q, clientId, clientSecret, reply, old(db.oauthStates), now);
            !Present(q.error) && v.Success? ==>
              var g := v.value;
              var existing := SellerOf(old(db.sellers), g.userId);
              var profile := ProfileOf(db.profiles, g.userId);
              var created := existing.None? && profile.Some? && !sellerInsertFails;
              var row := TokenRowFor(SellerIdFor(old(db.sellers), g.userId, newSellerId), g, now);
              && db.sellers == (if created then old(db.sellers) + [NewSeller(newSellerId, g, profile.value)] else old(db.sellers))
              && (existing.None? && profile.None? ==> page == Failed(ProfileMissing))
              && (existing.None? && profile.Some? && sellerInsertFails ==> page == Failed(SellerNotCreated))
              && (existing.Some? || created ==>
                    && (row.None? ==> page == Failed(TokenNotEncodable))
                    && (row.Some? && tokenStoreFails ==> page == Failed(TokensNotStored))
                    && (row.Some? && !tokenStoreFails ==> page == Connected))
              && (page == Connected ==>
                    && db.tokens == old(db.tokens) + [row.value]
                    && db.oauthStates == (if deleteFails then old(db.oauthStates) else Consume(old(db.oauthStates), g.state)))
  {
    if Present(q.error) {
      return Denied(q.error.value), None;
    }
    sent := ExchangeRequest(q, clientId, clientSecret, supabaseUrl);
    var v := Validate(q, clientId, clientSecret, reply, db.oauthStates, now);
    if v.Failure? {
      return Failed(v.error), sent;
    }
    var g := v.value;
    var seller := SellerOf(db.sellers, g.userId);
    var sellerId: Id;
    if seller.Some? {
      sellerId := seller.value.id;
    } else {
      var profile := ProfileOf(db.profiles, g.userId);
      if profile.None? {
        return Failed(ProfileMissing), sent;
      }
      if sellerInsertFails {
        return Failed(SellerNotCreated), sent;
      }
      db.sellers := db.sellers + [NewSeller(newSellerId, g, profile.value)];
      sellerId := newSellerId;
    }
    var row := TokenRowFor(sellerId, g, now);
    if row.None? {
      return Failed(TokenNotEncodable), sent;
    }
    if tokenStoreFails {
      return Failed(TokensNotStored), sent;
    }
    db.tokens := db.tokens + [row.value];
    if !deleteFails {
      db.oauthStates := Consume(db.oauthStates, g.state);
    }
    page := Connected;
  }
}
