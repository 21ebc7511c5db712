/** The appointment checkout (`mp-create-appointment-preference`): a chain of guards picks the
    redirect base, the customer profile, the requested services, their single seller and that
    seller's processor token; the handler then totals the services, submits a payment
    preference with a flat 1.00 marketplace fee, reserves the first free queue position of
    the chosen day and shift, and records one `pending_payment` appointment per requested
    service id. */
module AppointmentCheckout {
  import opened Wrappers
  import opened Seqs
  import opened Text
  import Base64
  import opened Tables
  import opened Processor

  /** The JSON body: `service_ids`, `scheduled_date` (`YYYY-MM-DD`), `time_slot` and the
      optional `app_base_url`. */
  datatype Request = Request(serviceIds: Option<seq<Id>>, scheduledDate: string, timeSlot: string,
                             appBaseUrl: Option<string>)

  /** The headers the handler reads besides `Authorization`: `origin`, and the origin of the
      `referer` header, absent when that header is missing or does not parse as a URL. */
  datatype Headers = Headers(origin: Option<string>, refererOrigin: Option<string>)

  datatype Error =
    | Unauthorized
    | NoBaseUrl
    | NoServices
    | ProfileNotFound
    | ServicesNotFound
    | NoSeller
    | SeveralSellers
    | SellerNotConnected
    | TokenUndecodable
    | PreferenceRejected(status: int, body: string)
    | SlotFull
    | InsertFailed(message: string)

  /** The `error` text of the 400 reply. */
  function Message(e: Error): string {
    match e
    case Unauthorized => "Unauthorized"
    case NoBaseUrl => "Não foi possível determinar a URL base do aplicativo para os redirecionamentos."
    case NoServices => "Nenhum serviço fornecido"
    case ProfileNotFound => "Perfil do cliente não encontrado"
    case ServicesNotFound => "Serviços não encontrados ou inativos"
    case NoSeller => "Serviços sem vendedor associado. Configure o vendedor do(s) serviço(s)."
    case SeveralSellers => "Selecione serviços de um único vendedor por transação."
    case SellerNotConnected => "Vendedor não conectado ao Mercado Pago."
    case TokenUndecodable => "Failed to decode base64"
    case PreferenceRejected(status, body) => "Erro ao criar preferência: " + IntToString(status) + " - " + body
    case SlotFull => "Turno lotado. Escolha outro horário."
    case InsertFailed(message) => message
  }

  /** The reply: 200 with the preference and the new appointment ids, or 400 with an error. */
  datatype Response =
    | Reserved(preferenceId: string, initPoint: string, appointmentIds: seq<Id>, totalAmount: real)
    | Failed(error: Error)

  /** What the guard chain establishes before anything is sent to the processor. */
  datatype Checkout = Checkout(baseUrl: string, serviceIds: seq<Id>, profile: Profile,
                               services: seq<Service>, sellerUserId: Id, accessToken: string)

  /** The marketplace fee every appointment preference carries. */
  const FlatFee: real := 1.0

  /** The last queue position a shift has. */
  const MaxPosition := 5

  /** `app_base_url || origin || refererOrigin`: the first truthy candidate. */
  function BaseUrl(appBaseUrl: Option<string>, origin: Option<string>, refererOrigin: Option<string>): (r: Option<string>)
    ensures r.Some? <==> Present(appBaseUrl) || Present(origin) || Present(refererOrigin)
    ensures r.Some? ==> Present(r)
    ensures Present(appBaseUrl) ==> r == appBaseUrl
    ensures !Present(appBaseUrl) && Present(origin) ==> r == origin
    ensures !Present(appBaseUrl) && !Present(origin) && Present(refererOrigin) ==> r == refererOrigin
  {
    FirstPresent(FirstPresent(appBaseUrl, origin), refererOrigin)
  }

  function BackUrlsFor(base: string): BackUrls {
    BackUrls(base + "/agendamento-confirmado", base + "/agendamento-erro", base + "/agendamento-pendente")
  }

  /** The customer profile: `profiles.eq('user_id', userId).single()`. */
  function ProfileOf(profiles: seq<Profile>, userId: Id): Option<Profile> {
    Single(profiles, (p: Profile) => p.userId == userId)
  }

  predicate IsRequested(ids: seq<Id>, s: Service) {
    s.id in ids && s.isActive
  }

  /** `services.in('id', ids).eq('is_active', true)`: each matching row once, however often
      its id was requested. */
  function ResolvedServices(services: seq<Service>, ids: seq<Id>): seq<Service> {
    Filter(services, (s: Service) => IsRequested(ids, s))
  }

  /** `Array.from(new Set(services.map(s => s.seller_id).filter(Boolean)))`: the distinct
      non-empty seller ids in order of first appearance. */
  function DistinctSellers(services: seq<Service>): (r: seq<Id>)
    ensures forall i, j :: 0 <= i < j < |r| ==> r[i] != r[j]
    decreases |services|
  {
    if services == [] then []
    else
      var rest := DistinctSellers(services[..|services| - 1]);
      var s := services[|services| - 1];
      if Present(s.sellerId) && s.sellerId.value !in rest then rest + [s.sellerId.value] else rest
  }

  /** The distinct sellers are exactly the non-empty seller ids of the services. */
  lemma {:induction false} DistinctSellersMembers(services: seq<Service>, id: Id)
    ensures id in DistinctSellers(services) <==> exists i :: 0 <= i < |services| && services[i].sellerId == Some(id) && id != ""
    decreases |services|
  {
    if services != [] {
      var init := services[..|services| - 1];
      DistinctSellersMembers(init, id);
      assert forall i :: 0 <= i < |init| ==> init[i] == services[i];
      if exists i :: 0 <= i < |services| && services[i].sellerId == Some(id) && id != "" {
        var i :| 0 <= i < |services| && services[i].sellerId == Some(id) && id != "";
        if i < |init| {
          assert init[i].sellerId == Some(id);
        }
      }
    }
  }

  /** The seller's token row, looked up on the `user_id` column with `.maybeSingle()`. */
  function HasUserId(userId: Id): TokenRow -> bool {
    (t: TokenRow) => t.userId == Some(userId)
  }

  function TokenByUserId(tokens: seq<TokenRow>, userId: Id): Option<TokenRow> {
    Single(tokens, HasUserId(userId))
  }

  /** The guards the handler runs before it contacts the processor, in their order. */
  function Validate(user: Option<AuthUser>, req: Request, headers: Headers, profiles: seq<Profile>,
                    services: seq<Service>, tokens: seq<TokenRow>): (r: Result<Checkout, Error>)
    ensures user.None? ==> r == Failure(Unauthorized)
    ensures user.Some? && BaseUrl(req.appBaseUrl, headers.origin, headers.refererOrigin).None? ==> r == Failure(NoBaseUrl)
    ensures (user.Some? && BaseUrl(req.appBaseUrl, headers.origin, headers.refererOrigin).Some? &&
             (req.serviceIds.None? || req.serviceIds == Some([]))) ==> r == Failure(NoServices)
    ensures r.Success? ==>
              && user.Some?
              && BaseUrl(req.appBaseUrl, headers.origin, headers.refererOrigin) == Some(r.value.baseUrl)
              && req.serviceIds == Some(r.value.serviceIds) && r.value.serviceIds != []
              && ProfileOf(profiles, user.value.id) == Some(r.value.profile)
              && r.value.services == ResolvedServices(services, r.value.serviceIds)
              && r.value.services != []
              && DistinctSellers(r.value.services) == [r.value.sellerUserId]
  {
    if user.None? then Failure(Unauthorized)
    else
      var base := BaseUrl(req.appBaseUrl, headers.origin, headers.refererOrigin);
      if base.None? then Failure(NoBaseUrl)
      else if req.serviceIds.None? || req.serviceIds.value == [] then Failure(NoServices)
      else
        var ids := req.serviceIds.value;
        var profile := ProfileOf(profiles, user.value.id);
        if profile.None? then Failure(ProfileNotFound)
        else
          var resolved := ResolvedServices(services, ids);
          if resolved == [] then Failure(ServicesNotFound)
          else
            var sellers := DistinctSellers(resolved);
            if |sellers| == 0 then Failure(NoSeller)
            else if |sellers| > 1 then Failure(SeveralSellers)
            else
              var token := TokenByUserId(tokens, sellers[0]);
              if token.None? || token.value.encryptedAccessToken == "" then Failure(SellerNotConnected)
              else
                match Base64.Atob(token.value.encryptedAccessToken)
                case None => Failure(TokenUndecodable)
                case Some(accessToken) =>
                  Success(Checkout(base.value, ids, profile.value, resolved, sellers[0], accessToken))
  }

  /** A checkout that passes the guards bills active, requested services of exactly one
      seller: every service naming a seller names that one, and at least one does. */
  lemma {:induction false} CheckoutHasOneSeller(user: Option<AuthUser>, req: Request, headers: Headers,
                                                 profiles: seq<Profile>, services: seq<Service>, tokens: seq<TokenRow>)
    requires Validate(user, req, headers, profiles, services, tokens).Success?
    ensures var c := Validate(user, req, headers, profiles, services, tokens).value;
            && (forall i :: 0 <= i < |c.services| ==> c.services[i] in services && c.services[i].isActive && c.services[i].id in c.serviceIds)
            && (forall i :: 0 <= i < |c.services| && Present(c.services[i].sellerId) ==> c.services[i].sellerId.value == c.sellerUserId)
            && (exists i :: 0 <= i < |c.services| && c.services[i].sellerId == Some(c.sellerUserId))
  {
    var c := Validate(user, req, headers, profiles, services, tokens).value;
    var sellers := DistinctSellers(c.services);
    assert sellers == [c.sellerUserId];
    DistinctSellersMembers(c.services, c.sellerUserId);
    forall i | 0 <= i < |c.services|
      ensures c.services[i] in services && c.services[i].isActive && c.services[i].id in c.serviceIds
    {
      FilterMembership(services, (s: Service) => IsRequested(c.serviceIds, s), c.services[i]);
    }
    forall i | 0 <= i < |c.services| && Present(c.services[i].sellerId)
      ensures c.services[i].sellerId.value == c.sellerUserId
    {
      DistinctSellersMembers(c.services, c.services[i].sellerId.value);
    }
  }

  /** A checkout that passes the guards was authorised by the seller's stored token: exactly
      one token row carries the seller's id in `user_id`, and the access token sent to the
      processor is the base64 decoding of the stored value. */
  lemma {:induction false} CheckoutUsesSellerToken(user: Option<AuthUser>, req: Request, headers: Headers,
                                                    profiles: seq<Profile>, services: seq<Service>, tokens: seq<TokenRow>)
    requires Validate(user, req, headers, profiles, services, tokens).Success?
    ensures var c := Validate(user, req, headers, profiles, services, tokens).value;
            exists t :: t in tokens && t.userId == Some(c.sellerUserId) && t.encryptedAccessToken != ""
                        && Base64.Atob(t.encryptedAccessToken) == Some(c.accessToken)
  {
    var c := Validate(user, req, headers, profiles, services, tokens).value;
    var t := TokenByUserId(tokens, c.sellerUserId).value;
    assert t in tokens && t.userId == Some(c.sellerUserId);
  }

  /** Token rows written by the OAuth callback carry `seller_id` and no `user_id`; the lookup
      on `user_id` never finds them, so a store holding only such rows turns every request
      that reaches the token guard into `SellerNotConnected`. */
  lemma {:induction false} CallbackTokensAreNotFound(user: Option<AuthUser>, req: Request, headers: Headers,
                                                     profiles: seq<Profile>, services: seq<Service>, tokens: seq<TokenRow>)
    requires forall i :: 0 <= i < |tokens| ==> tokens[i].userId.None?
    ensures !Validate(user, req, headers, profiles, services, tokens).Success?
  {
    forall id: Id ensures TokenByUserId(tokens, id).None? {
      FilterEmpty(tokens, HasUserId(id));
    }
  }

  function Price(s: Service): real {
    s.price
  }

  /** The preference line of one service: quantity 1 at the service price, described by the
      service description or by the scheduled date. */
  function LineItem(s: Service, scheduledDate: string): (item: PreferenceItem)
    ensures item.quantity == 1 && item.unitPrice == s.price
    ensures ItemAmount(item) == s.price
  {
    PreferenceItem(s.name, if Present(s.description) then s.description.value else "Agendamento para " + scheduledDate,
                   1, s.price, "BRL")
  }

  function LineItems(services: seq<Service>, scheduledDate: string): (items: seq<PreferenceItem>)
    ensures |items| == |services|
    decreases |services|
  {
    if services == [] then []
    else LineItems(services[..|services| - 1], scheduledDate) + [LineItem(services[|services| - 1], scheduledDate)]
  }

  /** The k-th preference line is the line of the k-th service. */
  lemma {:induction false} LineItemsAt(services: seq<Service>, scheduledDate: string, k: nat)
    requires k < |services|
    ensures LineItems(services, scheduledDate)[k] == LineItem(services[k], scheduledDate)
    decreases |services|
  {
    if k < |services| - 1 {
      LineItemsAt(services[..|services| - 1], scheduledDate, k);
    }
  }

  /** The preference lines add up to the total the handler reports: one unit of each service. */
  lemma {:induction false} LineItemsSumToTotal(services: seq<Service>, scheduledDate: string)
    ensures Sum(LineItems(services, scheduledDate), ItemAmount) == Sum(services, Price)
    ensures forall i :: 0 <= i < |services| ==> LineItems(services, scheduledDate)[i].quantity == 1
                                                && LineItems(services, scheduledDate)[i].unitPrice == services[i].price
    decreases |services|
  {
    forall i | 0 <= i < |services|
      ensures LineItems(services, scheduledDate)[i] == LineItem(services[i], scheduledDate)
    {
      LineItemsAt(services, scheduledDate, i);
    }
    if services != [] {
      var init := services[..|services| - 1];
      LineItemsSumToTotal(init, scheduledDate);
      var items := LineItems(services, scheduledDate);
      assert items[..|services| - 1] == LineItems(init, scheduledDate);
    }
  }

  /** The loop at lines 84-97: accumulate the total and push one line per service. */
  method Totals(services: seq<Service>, scheduledDate: string) returns (total: real, items: seq<PreferenceItem>)
    ensures total == Sum(services, Price)
    ensures items == LineItems(services, scheduledDate)
  {
    total, items := 0.0, [];
    for i := 0 to |services|
      invariant total == Sum(services[..i], Price)
      invariant items == LineItems(services[..i], scheduledDate)
    {
      assert services[..i + 1][..i] == services[..i];
      total := total + services[i].price;
      items := items + [LineItem(services[i], scheduledDate)];
    }
    assert services[..|services|] == services;
  }

  function PreferenceFor(c: Checkout, user: AuthUser, req: Request, supabaseUrl: string,
                         sponsorUserId: Option<string>, now: int): Preference {
    Preference(
      LineItems(c.services, req.scheduledDate),
      Some(Payer(c.profile.fullName, user.email)),
      BackUrlsFor(c.baseUrl),
      Some("approved"),
      NotificationUrl(supabaseUrl),
      Some("appointment_" + IntToString(now) + "_" + c.profile.id),
      [("customer_id", c.profile.id), ("service_ids", Join(c.serviceIds, ',')),
       ("scheduled_date", req.scheduledDate), ("time_slot", req.timeSlot),
       ("type", "appointment"), ("seller_user_id", c.sellerUserId)],
      Some(FlatFee),
      if Present(sponsorUserId) then sponsorUserId else None)
  }

  /** The exclusive upper bound `T23:59:59` of the queue query leaves out the day's last second. */
  const DayEnd := 86399

  /** An appointment holds a queue position of `date` and `slot` when it is `scheduled`; a
      `pending_payment` reservation does not. */
  predicate Occupies(a: Appointment, date: string, slot: string) {
    && a.scheduledTime.date == date && 0 <= a.scheduledTime.second < DayEnd
    && a.timeSlot == Some(slot) && a.status == Scheduled
  }

  /** The non-null `queue_position`s of the appointments occupying `date` and `slot`. */
  function Occupied(appts: seq<Appointment>, date: string, slot: string): (occ: seq<int>)
    ensures |occ| <= |appts|
    decreases |appts|
  {
    if appts == [] then []
    else
      var init := appts[..|appts| - 1];
      var a := appts[|appts| - 1];
      Occupied(init, date, slot) + (if Occupies(a, date, slot) && a.queuePosition.Some? then [a.queuePosition.value] else [])
  }

  /** A position is occupied exactly when some appointment occupying the shift holds it. */
  lemma {:induction false} OccupiedPositions(appts: seq<Appointment>, date: string, slot: string, q: int)
    ensures q in Occupied(appts, date, slot) <==>
              exists a :: a in appts && Occupies(a, date, slot) && a.queuePosition == Some(q)
    decreases |appts|
  {
    if appts != [] {
      var init := appts[..|appts| - 1];
      var a := appts[|appts| - 1];
      assert appts == init + [a];
      OccupiedPositions(init, date, slot, q);
      if exists b :: b in appts && Occupies(b, date, slot) && b.queuePosition == Some(q) {
        var b :| b in appts && Occupies(b, date, slot) && b.queuePosition == Some(q);
        if b != a {
          assert b in init;
        }
      }
    }
  }

  lemma {:induction false} OccupiedAppend(xs: seq<Appointment>, ys: seq<Appointment>, date: string, slot: string)
    ensures Occupied(xs + ys, date, slot) == Occupied(xs, date, slot) + Occupied(ys, date, slot)
    decreases |ys|
  {
    if ys == [] {
      assert xs + ys == xs;
    } else {
      var yinit := ys[..|ys| - 1];
      assert (xs + ys)[..|xs + ys| - 1] == xs + yinit;
      OccupiedAppend(xs, yinit, date, slot);
    }
  }

  function FirstFreeFrom(occ: seq<int>, q: int): (p: int)
    requires 1 <= q <= MaxPosition + 1
    ensures 1 <= p <= MaxPosition
    ensures (exists k :: q <= k <= MaxPosition && k !in occ) ==> q <= p && p !in occ && forall k :: q <= k < p ==> k in occ
    ensures (forall k :: q <= k <= MaxPosition ==> k in occ) ==> p == 1
    decreases MaxPosition + 1 - q
  {
    if q > MaxPosition then 1 else if q !in occ then q else FirstFreeFrom(occ, q + 1)
  }

  /** The position reserved for a new booking: the smallest of 1..5 not in `occ`, and 1 when
      all five are taken. */
  function FirstFree(occ: seq<int>): (p: int)
    ensures 1 <= p <= MaxPosition
    ensures (exists k :: 1 <= k <= MaxPosition && k !in occ) ==> p !in occ && forall k :: 1 <= k < p ==> k in occ
    ensures (forall k :: 1 <= k <= MaxPosition ==> k in occ) ==> p == 1
  {
    FirstFreeFrom(occ, 1)
  }

  /** The search loop at lines 195-201, `break` at the first free position. */
  method NextPosition(occ: seq<int>) returns (p: int)
    ensures p == FirstFree(occ)
  {
    p := 1;
    for i := 1 to MaxPosition + 1
      invariant forall k :: 1 <= k < i ==> k in occ
      invariant p == 1
    {
      if i !in occ {
        p := i;
        break;
      }
    }
  }

  /** A sequence holding every element of a set is at least as long as the set is large. */
  lemma {:induction false} CoverLength(s: seq<int>, a: set<int>)
    requires forall x :: x in a ==> x in s
    ensures |a| <= |s|
    decreases |s|
  {
    if s != [] {
      var rest := a - {s[0]};
      forall x | x in rest ensures x in s[1..] {
        assert x in s && x != s[0];
      }
      CoverLength(s[1..], rest);
    } else {
      assert forall x :: x !in a;
      assert a == {};
    }
  }

  /** Fewer than five occupied entries always leave one of the five positions free, so the
      reserved position is unoccupied whenever the shift is not reported full. */
  lemma {:induction false} ShortQueueLeavesFreePosition(occ: seq<int>)
    requires |occ| < MaxPosition
    ensures FirstFree(occ) !in occ
  {
    if forall k :: 1 <= k <= MaxPosition ==> k in occ {
      CoverLength(occ, {1, 2, 3, 4, 5});
      assert false;
    }
  }

  /** The full test counts entries, not distinct positions: duplicated positions can make a
      shift full while one of its five positions is still free. */
  lemma FullShiftWithFreePosition()
    ensures exists occ: seq<int> :: |occ| >= MaxPosition && FirstFree(occ) !in occ
  {
    var occ := [1, 1, 2, 3, 4];
    assert 5 !in occ;
    assert FirstFree(occ) == 5;
  }

  /** `getTimeForSlot`: the reference hour of a shift, 10:00 for an unknown one. */
  function TimeForSlot(slot: string): (second: int)
    ensures second == 10 * 3600 || second == 14 * 3600 || second == 18 * 3600
    ensures slot == "afternoon" ==> second == 14 * 3600
    ensures slot == "evening" ==> second == 18 * 3600
    ensures slot != "afternoon" && slot != "evening" ==> second == 10 * 3600
  {
    match slot
    case "morning" => 10 * 3600
    case "afternoon" => 14 * 3600
    case "evening" => 18 * 3600
    case _ => 10 * 3600
  }

  function ReservationNote(slot: string, position: int, preferenceId: string): string {
    "Turno: " + slot + " - Posição: " + IntToString(position) + " - Preferência MP: " + preferenceId
  }

  function Reservation(id: Id, userId: Id, serviceId: Id, req: Request, position: int, preferenceId: string): Appointment {
    Appointment(id, userId, serviceId, DateTime(req.scheduledDate, TimeForSlot(req.timeSlot)), PendingPayment, "app",
                Some(ReservationNote(req.timeSlot, position, preferenceId)), Some(req.timeSlot), Some(position))
  }

  /** One reservation per requested id, in request order; the k-th gets the store id `newId(k)`. */
  function Reservations(userId: Id, req: Request, ids: seq<Id>, position: int, preferenceId: string,
                        newId: int -> Id): (r: seq<Appointment>)
    ensures |r| == |ids|
    ensures forall k :: 0 <= k < |ids| ==> r[k] == Reservation(newId(k), userId, ids[k], req, position, preferenceId)
    decreases |ids|
  {
    if ids == [] then []
    else
      var init := Reservations(userId, req, ids[..|ids| - 1], position, preferenceId, newId);
      var last := Reservation(newId(|ids| - 1), userId, ids[|ids| - 1], req, position, preferenceId);
      assert forall k :: 0 <= k < |ids| ==>
               (init + [last])[k] == Reservation(newId(k), userId, ids[k], req, position, preferenceId) by {
        forall k | 0 <= k < |ids|
          ensures (init + [last])[k] == Reservation(newId(k), userId, ids[k], req, position, preferenceId)
        {
          if k < |init| {
            assert ids[..|ids| - 1][k] == ids[k];
          }
        }
      }
      init + [last]
  }

  lemma {:induction false} NothingScheduledOccupiesNothing(appts: seq<Appointment>, date: string, slot: string)
    requires forall i :: 0 <= i < |appts| ==> appts[i].status != Scheduled
    ensures Occupied(appts, date, slot) == []
    decreases |appts|
  {
    if appts != [] {
      NothingScheduledOccupiesNothing(appts[..|appts| - 1], date, slot);
    }
  }

  /** Reservations are `pending_payment`, so they do not count against the shift: a second
      checkout for the same shift, before the first is paid, reserves the same position. */
  lemma {:induction false} ReservationsDoNotOccupy(appts: seq<Appointment>, userId: Id, req: Request, ids: seq<Id>,
                                                   position: int, preferenceId: string, newId: int -> Id, date: string, slot: string)
    ensures Occupied(appts + Reservations(userId, req, ids, position, preferenceId, newId), date, slot) == Occupied(appts, date, slot)
  {
    var r := Reservations(userId, req, ids, position, preferenceId, newId);
    OccupiedAppend(appts, r, date, slot);
    NothingScheduledOccupiesNothing(r, date, slot);
    assert appts + [] == appts;
  }

  /** Once paid and marked `scheduled`, a reservation lies inside the window the queue query
      counts for the requested day and shift, at its reserved position. */
  lemma ConfirmedReservationOccupies(id: Id, userId: Id, serviceId: Id, req: Request, position: int, preferenceId: string)
    ensures var a := Reservation(id, userId, serviceId, req, position, preferenceId).(status := Scheduled);
            Occupies(a, req.scheduledDate, req.timeSlot) && position in Occupied([a], req.scheduledDate, req.timeSlot)
  {
    var a := Reservation(id, userId, serviceId, req, position, preferenceId).(status := Scheduled);
    assert a in [a];
  }

  /** How many of `ids` are inserted when the insert for `failAt`, if any, fails. */
  function Inserted(ids: seq<Id>, failAt: Option<nat>): (n: nat)
    ensures n <= |ids|
    ensures n < |ids| <==> failAt.Some? && failAt.value < |ids|
  {
    if failAt.Some? && failAt.value < |ids| then failAt.value else |ids|
  }

  lemma ReservationsStep(userId: Id, req: Request, ids: seq<Id>, k: nat, position: int, preferenceId: string,
                         newId: int -> Id)
    requires k < |ids|
    ensures Reservations(userId, req, ids[..k + 1], position, preferenceId, newId)
            == Reservations(userId, req, ids[..k], position, preferenceId, newId)
               + [Reservation(newId(k), userId, ids[k], req, position, preferenceId)]
  {
    assert ids[..k + 1][..k] == ids[..k];
  }

  /** The first `n` reservations are the reservations of the first `n` ids. */
  lemma ReservationsPrefix(userId: Id, req: Request, ids: seq<Id>, n: nat, position: int, preferenceId: string,
                           newId: int -> Id)
    requires n <= |ids|
    ensures Reservations(userId, req, ids, position, preferenceId, newId)[..n]
            == Reservations(userId, req, ids[..n], position, preferenceId, newId)
  {
  }

  /** The inserts at lines 219-239: the loop prepares one insert per requested id, in order,
      and `Promise.all` runs them; `failAt` is the first insert the store refuses, if one is,
      and the inserts before it take effect. */
  method InsertReservations(db: Database, userId: Id, req: Request, ids: seq<Id>, position: int,
                            preferenceId: string, newId: int -> Id, failAt: Option<nat>) returns (created: seq<Id>)
    modifies db`appointments
    ensures |created| == Inserted(ids, failAt) && forall k :: 0 <= k < |created| ==> created[k] == newId(k)
    ensures db.appointments == old(db.appointments) + Reservations(userId, req, ids[..|created|], position, preferenceId, newId)
  {
    var pending: seq<Appointment> := [];
    for k := 0 to |ids|
      invariant pending == Reservations(userId, req, ids[..k], position, preferenceId, newId)
      invariant db.appointments == old(db.appointments)
    {
      ReservationsStep(userId, req, ids, k, position, preferenceId, newId);
      pending := pending + [Reservation(newId(k), userId, ids[k], req, position, preferenceId)];
    }
    assert ids[..|ids|] == ids;
    var n := Inserted(ids, failAt);
    ReservationsPrefix(userId, req, ids, n, position, preferenceId, newId);
    db.appointments := db.appointments + pending[..n];
    created := seq(n, k requires 0 <= k < n => newId(k));
  }

  /** Lines 179-254, once the processor has created the preference `preferenceId`: the shift's
      occupied positions, the full-shift refusal, the reservations and the reply. */
  method Reserve(db: Database, userId: Id, req: Request, ids: seq<Id>, preferenceId: string, initPoint: string,
                 total: real, newId: int -> Id, failAt: Option<nat>, storeMessage: string)
    returns (resp: Response)
    modifies db`appointments
    ensures var occ := Occupied(old(db.appointments), req.scheduledDate, req.timeSlot);
            && (resp == Failed(SlotFull) <==> |occ| >= MaxPosition)
            && (resp == Failed(SlotFull) ==> db.appointments == old(db.appointments))
            && (resp != Failed(SlotFull) ==>
                  && FirstFree(occ) !in occ
                  && db.appointments == old(db.appointments)
                       + Reservations(userId, req, ids[..Inserted(ids, failAt)], FirstFree(occ), preferenceId, newId))
    ensures resp.Failed? ==> resp == Failed(SlotFull) || (resp == Failed(InsertFailed(storeMessage)) && Inserted(ids, failAt) < |ids|)
    ensures resp.Reserved? ==>
              && Inserted(ids, failAt) == |ids|
              && db.appointments == old(db.appointments)
                   + Reservations(userId, req, ids, FirstFree(Occupied(old(db.appointments), req.scheduledDate, req.timeSlot)), preferenceId, newId)
              && resp == Reserved(preferenceId, initPoint, resp.appointmentIds, total)
              && |resp.appointmentIds| == |ids|
              && forall k :: 0 <= k < |ids| ==> resp.appointmentIds[k] == newId(k)
  {
    var occ := Occupied(db.appointments, req.scheduledDate, req.timeSlot);
    var position := NextPosition(occ);
    if position > MaxPosition || |occ| >= MaxPosition {
      return Failed(SlotFull);
    }
    ShortQueueLeavesFreePosition(occ);
    var created := InsertReservations(db, userId, req, ids, position, preferenceId, newId, failAt);
    if |created| < |ids| {
      return Failed(InsertFailed(storeMessage));
    }
    assert ids[..|ids|] == ids;
    resp := Reserved(preferenceId, initPoint, created, total);
  }

  /** The handler. `reply` is what the processor answers to the submitted preference and
      `newId(k)` the store id of the k-th inserted appointment, `failAt` the first insert the
      store refuses, with `storeMessage` as its error; `sent` is the submission, if any. */
  method CreateAppointmentPreference(db: Database, user: Option<AuthUser>, req: Request, headers: Headers,
                                     supabaseUrl: string, sponsorUserId: Option<string>, now: int,
                                     reply: PreferenceReply, newId: int -> Id, failAt: Option<nat>, storeMessage: string)
    returns (resp: Response, sent: Option<Submission>)
    modifies db`appointments
    ensures var v := Validate(user, req, headers, db.profiles, db.services, db.tokens);
            && (v.Failure? ==> resp == Failed(v.error) && sent.None?)
            && (v.Success? ==> sent == Some(Submission(v.value.accessToken, PreferenceFor(v.value, user.value, req, supabaseUrl, sponsorUserId, now))))
    ensures sent.Some? && reply.Rejected? ==> resp == Failed(PreferenceRejected(reply.status, reply.body))
    ensures resp == Failed(SlotFull) <==>
              sent.Some? && reply.Created? && |Occupied(old(db.appointments), req.scheduledDate, req.timeSlot)| >= MaxPosition
    ensures resp.Failed? && !resp.error.InsertFailed? ==> db.appointments == old(db.appointments)
    ensures resp.Failed? && resp.error.InsertFailed? ==>
              var c := Validate(user, req, headers, db.profiles, db.services, db.tokens).value;
              var occ := Occupied(old(db.appointments), req.scheduledDate, req.timeSlot);
              && sent.Some? && reply.Created? && |occ| < MaxPosition
              && Inserted(c.serviceIds, failAt) < |c.serviceIds| && resp.error.message == storeMessage
              && db.appointments == old(db.appointments)
                   + Reservations(user.value.id, req, c.serviceIds[..Inserted(c.serviceIds, failAt)], FirstFree(occ), reply.id, newId)
    ensures sent.Some? && reply.Created? ==>
              var c := Validate(user, req, headers, db.profiles, db.services, db.tokens).value;
              var occ := Occupied(old(db.appointments), req.scheduledDate, req.timeSlot);
              && (|occ| < MaxPosition && Inserted(c.serviceIds, failAt) == |c.serviceIds| ==> resp.Reserved?)
              && (|occ| < MaxPosition && Inserted(c.serviceIds, failAt) < |c.serviceIds| ==>
                    resp == Failed(InsertFailed(storeMessage)))
    ensures resp.Reserved? ==>
              var c := Validate(user, req, headers, db.profiles, db.services, db.tokens).value;
              var occ := Occupied(old(db.appointments), req.scheduledDate, req.timeSlot);
              && sent.Some? && reply.Created? && Inserted(c.serviceIds, failAt) == |c.serviceIds|
              && resp.preferenceId == reply.id && resp.initPoint == reply.initPoint
              && resp.totalAmount == Sum(c.services, Price)
              && |occ| < MaxPosition && FirstFree(occ) !in occ
              && db.appointments == old(db.appointments) + Reservations(user.value.id, req, c.serviceIds, FirstFree(occ), reply.id, newId)
              && |resp.appointmentIds| == |c.serviceIds|
              && forall k :: 0 <= k < |c.serviceIds| ==> resp.appointmentIds[k] == newId(k)
  {
    var v := Validate(user, req, headers, db.profiles, db.services, db.tokens);
    if v.Failure? {
      return Failed(v.error), None;
    }
    var c := v.value;
    var total, items := Totals(c.services, req.scheduledDate);
    var preference := PreferenceFor(c, user.value, req, supabaseUrl, sponsorUserId, now);
    sent := Some(Submission(c.accessToken, preference.(items := items)));
    if reply.Rejected? {
      return Failed(PreferenceRejected(reply.status, reply.body)), sent;
    }
    resp := Reserve(db, user.value.id, req, c.serviceIds, reply.id, reply.initPoint, total, newId, failAt, storeMessage);
  }
}
