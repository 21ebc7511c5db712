/** Re-billing an appointment (`mp-create-payment-preference`): an appointment still
    `pending_payment` and owned by the caller gets a fresh one-item preference, authorised by a
    platform token from a `client_credentials` grant (section 4.4 of RFC 6749), and its notes
    are overwritten with the new preference id. */
module RetryCheckout {
  import opened Wrappers
  import opened Seqs
  import opened Text
  import opened Tables
  import opened Processor
  import AppointmentCheckout

  datatype Error =
    | Unauthorized
    | NoAppointmentId
    | NotPending
    | ProfileMissing
    | NotOwner
    | NoCredentials
    | TokenDenied
    | ServiceMissing
    | PreferenceRejected(status: int)

  /** The `error` text of the 400 reply; a missing joined row surfaces as the runtime's
      TypeError when the handler reads a field of it. */
  function Message(e: Error): string {
    match e
    case Unauthorized => "Unauthorized"
    case NoAppointmentId => "ID do agendamento é obrigatório"
    case NotPending => "Agendamento não encontrado ou não está pendente de pagamento"
    case ProfileMissing => "Cannot read properties of null (reading 'user_id')"
    case NotOwner => "Acesso negado - este agendamento não pertence ao usuário"
    case NoCredentials => "Credenciais do Mercado Pago não configuradas"
    case TokenDenied => "Erro ao obter token do Mercado Pago"
    case ServiceMissing => "Cannot read properties of null (reading 'name')"
    case PreferenceRejected(status) => "Erro ao criar preferência: " + IntToString(status)
  }

  datatype Response =
    | Rebilled(preferenceId: string, initPoint: string, appointmentId: Id, amount: real)
    | Failed(error: Error)

  /** The token request of the client-credentials grant, sent with the platform's credentials. */
  datatype Grant = ClientCredentials(clientId: string, clientSecret: string)

  /** The token endpoint's answer: an access token, or a non-OK status. */
  datatype GrantReply = Granted(accessToken: string) | Denied(status: int)

  /** What the guards establish: the appointment and its customer's profile. */
  datatype Rebill = Rebill(appointment: Appointment, profile: Profile, clientId: string, clientSecret: string)

  /** `appointments.eq('id', id).eq('status', 'pending_payment').single()`. */
  function PendingAppointment(appts: seq<Appointment>, id: Id): Option<Appointment> {
    Single(appts, (a: Appointment) => a.id == id && a.status == PendingPayment)
  }

  /** The profile embedded through `customer_id`, which references `profiles.user_id`. */
  function CustomerProfile(profiles: seq<Profile>, customerId: Id): Option<Profile> {
    Find(profiles, (p: Profile) => p.userId == customerId)
  }

  /** The guards, in their order, up to the credentials check. */
  function Validate(user: Option<AuthUser>, appointmentId: Option<Id>, appts: seq<Appointment>,
                    profiles: seq<Profile>, clientId: Option<string>, clientSecret: Option<string>): (r: Result<Rebill, Error>)
    ensures user.None? ==> r == Failure(Unauthorized)
    ensures user.Some? && !Present(appointmentId) ==> r == Failure(NoAppointmentId)
    ensures r.Success? ==>
              && user.Some? && Present(appointmentId)
              && PendingAppointment(appts, appointmentId.value) == Some(r.value.appointment)
              && r.value.appointment.status == PendingPayment
              && r.value.profile.userId == user.value.id
              && r.value.appointment.customerId == user.value.id
              && Present(clientId) && Present(clientSecret)
  {
    if user.None? then Failure(Unauthorized)
    else if !Present(appointmentId) then Failure(NoAppointmentId)
    else
      var appointment := PendingAppointment(appts, appointmentId.value);
      if appointment.None? then Failure(NotPending)
      else
        var profile := CustomerProfile(profiles, appointment.value.customerId);
        if profile.None? then Failure(ProfileMissing)
        else if profile.value.userId != user.value.id then Failure(NotOwner)
        else if !Present(clientId) || !Present(clientSecret) then Failure(NoCredentials)
        else Success(Rebill(appointment.value, profile.value, clientId.value, clientSecret.value))
  }

  /** Only the appointment's own customer gets past the ownership guard: a caller whose id is
      not the appointment's `customer_id` is refused. */
  lemma {:induction false} OnlyOwnerMayRebill(user: AuthUser, appointmentId: Id, appts: seq<Appointment>,
                                              profiles: seq<Profile>, clientId: Option<string>, clientSecret: Option<string>)
    requires PendingAppointment(appts, appointmentId).Some?
    requires PendingAppointment(appts, appointmentId).value.customerId != user.id
    ensures !Validate(Some(user), Some(appointmentId), appts, profiles, clientId, clientSecret).Success?
    ensures appointmentId != "" && CustomerProfile(profiles, PendingAppointment(appts, appointmentId).value.customerId).Some? ==>
              Validate(Some(user), Some(appointmentId), appts, profiles, clientId, clientSecret) == Failure(NotOwner)
  {
  }

  /** A reservation made by the appointment checkout can be re-billed by the customer who made
      it, as long as its id is unique, the customer has a profile and the platform credentials
      are configured. */
  lemma {:induction false} ReservationCanBeRebilled(user: AuthUser, req: AppointmentCheckout.Request, serviceId: Id,
                                                    position: int, preferenceId: string, id: Id, i: nat,
                                                    appts: seq<Appointment>, profiles: seq<Profile>,
                                                    clientId: string, clientSecret: string)
    requires id != "" && clientId != "" && clientSecret != ""
    requires i < |appts| && appts[i] == AppointmentCheckout.Reservation(id, user.id, serviceId, req, position, preferenceId)
    requires forall j :: 0 <= j < |appts| && j != i ==> appts[j].id != id
    requires exists p :: p in profiles && p.userId == user.id
    ensures Validate(Some(user), Some(id), appts, profiles, Some(clientId), Some(clientSecret)).Success?
  {
    FilterOne(appts, (a: Appointment) => a.id == id && a.status == PendingPayment, i);
  }

  /** The date part of the appointment's ISO timestamp. */
  function ScheduledDate(a: Appointment): string {
    a.scheduledTime.date
  }

  /** `${origin}` of a header that may be missing: JavaScript renders `null` as "null". */
  function OriginText(origin: Option<string>): (s: string)
    ensures origin.None? ==> s == "null"
    ensures origin.Some? ==> s == origin.value
  {
    origin.GetOr("null")
  }

  /** The one-item preference for the appointment's service. */
  function RetryPreference(b: Rebill, service: Service, user: AuthUser, origin: Option<string>,
                           supabaseUrl: string, now: int): (p: Preference)
    ensures |p.items| == 1 && p.items[0].quantity == 1 && p.items[0].unitPrice == service.price
    ensures Sum(p.items, ItemAmount) == service.price
    ensures p.marketplaceFee.None?
  {
    var date := ScheduledDate(b.appointment);
    var base := OriginText(origin);
    var item := PreferenceItem(service.name, if Present(service.description) then service.description.value else "Agendamento para " + date,
                               1, service.price, "BRL");
    assert [item][..0] == [];
    Preference(
      [item],
      Some(Payer(b.profile.fullName, user.email)),
      BackUrls(base + "/agendamento-confirmado", base + "/agendamento-erro", base + "/agendamento-pendente"),
      Some("approved"),
      NotificationUrl(supabaseUrl),
      Some("appointment_retry_" + IntToString(now) + "_" + b.profile.id),
      [("customer_id", b.profile.id), ("appointment_id", b.appointment.id), ("service_id", service.id),
       ("scheduled_date", date), ("type", "appointment_retry")],
      None,
      None)
  }

  function RetryNote(preferenceId: string): string {
    "Preferência MP atualizada: " + preferenceId
  }

  /** `appointments.update({notes}).eq('id', id)`: every row with that id gets the note. */
  function WithNotes(appts: seq<Appointment>, id: Id, note: string): (r: seq<Appointment>)
    ensures |r| == |appts|
    ensures forall k :: 0 <= k < |appts| ==>
              if appts[k].id == id then r[k] == appts[k].(notes := Some(note)) else r[k] == appts[k]
  {
    seq(|appts|, k requires 0 <= k < |appts| => if appts[k].id == id then appts[k].(notes := Some(note)) else appts[k])
  }

  /** The overwrite drops the reservation text: a reservation's notes began with its shift and
      position, the new notes do not, while the reserved position itself stays on the row. */
  lemma RetryOverwritesReservationNote(id: Id, userId: Id, serviceId: Id, req: AppointmentCheckout.Request,
                                       position: int, preferenceId: string, newPreferenceId: string)
    ensures var a := AppointmentCheckout.Reservation(id, userId, serviceId, req, position, preferenceId);
            var updated := WithNotes([a], id, RetryNote(newPreferenceId))[0];
            && StartsWith(a.notes.value, "Turno: ") && !StartsWith(updated.notes.value, "Turno: ")
            && updated.queuePosition == Some(position) && updated.timeSlot == a.timeSlot
  {
    var a := AppointmentCheckout.Reservation(id, userId, serviceId, req, position, preferenceId);
    var note := RetryNote(newPreferenceId);
    assert note[0] == 'P';
    assert a.notes.value[..7] == "Turno: ";
  }

  function ServiceNamed(id: Id): Service -> bool {
    (s: Service) => s.id == id
  }

  /** The handler. `grantReply` and `reply` are the answers of the token endpoint and the
      preference endpoint; `updateFails` says whether the notes update fails. */
  method CreatePaymentPreference(db: Database, user: Option<AuthUser>, appointmentId: Option<Id>,
                                 origin: Option<string>, supabaseUrl: string,
                                 clientId: Option<string>, clientSecret: Option<string>,
                                 grantReply: GrantReply, reply: PreferenceReply, now: int, updateFails: bool)
    returns (resp: Response, grant: Option<Grant>, sent: Option<Submission>)
    modifies db`appointments
    ensures var v := Validate(user, appointmentId, old(db.appointments), db.profiles, clientId, clientSecret);
            && (v.Failure? ==> resp == Failed(v.error) && grant.None? && sent.None?)
            && (v.Success? ==> grant == Some(ClientCredentials(v.value.clientId, v.value.clientSecret)))
    ensures grant.Some? && grantReply.Denied? ==> resp == Failed(TokenDenied) && sent.None?
    ensures sent.Some? ==> grantReply.Granted? && sent.value.bearer == grantReply.accessToken
    ensures var v := Validate(user, appointmentId, old(db.appointments), db.profiles, clientId, clientSecret);
            v.Success? && grantReply.Granted? ==>
              var service := Find(db.services, ServiceNamed(v.value.appointment.serviceId));
              && (service.None? ==> resp == Failed(ServiceMissing) && sent.None?)
              && (service.Some? ==>
                    sent == Some(Submission(grantReply.accessToken,
                                            RetryPreference(v.value, service.value, user.value, origin, supabaseUrl, now))))
    ensures sent.Some? && reply.Rejected? ==> resp == Failed(PreferenceRejected(reply.status))
    ensures sent.Some? && reply.Created? ==> resp.Rebilled?
    ensures !resp.Rebilled? || updateFails ==> db.appointments == old(db.appointments)
    ensures resp.Rebilled? ==>
              var b := Validate(user, appointmentId, old(db.appointments), db.profiles, clientId, clientSecret).value;
              && sent.Some? && reply.Created?
              && (exists s :: s in db.services && s.id == b.appointment.serviceId
                              && sent.value.preference == RetryPreference(b, s, user.value, origin, supabaseUrl, now)
                              && resp.amount == s.price)
              && resp.preferenceId == reply.id && resp.initPoint == reply.initPoint
              && resp.appointmentId == b.appointment.id
              && (!updateFails ==> db.appointments == WithNotes(old(db.appointments), b.appointment.id, RetryNote(reply.id)))
  {
    var v := Validate(user, appointmentId, db.appointments, db.profiles, clientId, clientSecret);
    if v.Failure? {
      return Failed(v.error), None, None;
    }
    var b := v.value;
    grant := Some(ClientCredentials(b.clientId, b.clientSecret));
    if grantReply.Denied? {
      return Failed(TokenDenied), grant, None;
    }
    var service := Find(db.services, ServiceNamed(b.appointment.serviceId));
    if service.None? {
      return Failed(ServiceMissing), grant, None;
    }
    var preference := RetryPreference(b, service.value, user.value, origin, supabaseUrl, now);
    sent := Some(Submission(grantReply.accessToken, preference));
    if reply.Rejected? {
      return Failed(PreferenceRejected(reply.status)), grant, sent;
    }
    var s := service.value;
    assert s in db.services && s.id == b.appointment.serviceId && preference == RetryPreference(b, s, user.value, origin, supabaseUrl, now);
    if !updateFails {
      db.appointments := WithNotes(db.appointments, b.appointment.id, RetryNote(reply.id));
    }
    resp := Rebilled(reply.id, reply.initPoint, b.appointment.id, service.value.price);
  }
}
