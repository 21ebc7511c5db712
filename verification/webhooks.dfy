/** The processor's notification endpoint (`mp-webhooks`): an optional HMAC-SHA256 signature
    check (RFC 2104) over a manifest built from the `x-signature` and `x-request-id` headers,
    an idempotency ledger keyed by event id, and dispatch by topic. The two topic handlers only
    log, so dispatch is recorded as which handler ran. */
module Webhooks {
  import opened Wrappers
  import opened Seqs
  import opened Text
  import opened Tables

  /** The JSON values the handler inspects; `Missing` is JavaScript's `undefined`. */
  datatype Json = Missing | Null | Bool(b: bool) | Num(n: int) | Str(s: string)

  /** JavaScript truthiness of a JSON value. */
  predicate Truthy(v: Json) {
    match v
    case Bool(b) => b
    case Num(n) => n != 0
    case Str(s) => s != ""
    case _ => false
  }

  /** `${v}` and `v.toString()`. */
  function JsonText(v: Json): string {
    match v
    case Missing => "undefined"
    case Null => "null"
    case Bool(b) => if b then "true" else "false"
    case Num(n) => IntToString(n)
    case Str(s) => s
  }

  /** The parsed notification: `data.data?.id`, `data.id`, `data.topic` and `data.type`. */
  datatype Notification = Notification(dataId: Json, id: Json, topic: Json, kind: Json)

  /** The request body: text that is not JSON, or a parsed notification. */
  datatype Body = Malformed | Parsed(notification: Notification)

  datatype Headers = Headers(signature: Option<string>, requestId: Option<string>)

  function Keyed(key: string): string -> bool {
    (part: string) => StartsWith(part, key)
  }

  /** The value of the first comma-separated part of `header` that starts with `key`, with the
      key removed; parts are not trimmed. */
  function SignatureField(header: string, key: string): (r: Option<string>)
    ensures r.Some? ==> exists part :: part in Split(header, ',') && StartsWith(part, key) && r.value == part[|key|..]
    ensures r.None? ==> forall i :: 0 <= i < |Split(header, ',')| ==> !StartsWith(Split(header, ',')[i], key)
  {
    match Find(Split(header, ','), Keyed(key))
    case None => None
    case Some(part) => Some(part[|key|..])
  }

  /** The signed text: `id:<data.data.id>;request-id:<x-request-id>;ts:<ts>;`. */
  function Manifest(dataId: Json, requestId: string, ts: string): string {
    "id:" + JsonText(dataId) + ";request-id:" + requestId + ";ts:" + ts + ";"
  }

  /** The outcome of the signature gate. */
  datatype Verdict = Unchecked | Genuine | Forged

  /** The gate at lines 31-57; `hmac(key, text)` is the hex HMAC-SHA256 digest. */
  function CheckSignature(n: Notification, h: Headers, secret: Option<string>,
                          hmac: (string, string) -> string): (v: Verdict)
    ensures v != Unchecked <==>
              && Present(h.signature) && Present(h.requestId) && secret.Some?
              && Present(SignatureField(h.signature.value, "ts=")) && Present(SignatureField(h.signature.value, "v1="))
    ensures v != Unchecked ==>
              (v == Genuine <==> hmac(secret.value, Manifest(n.dataId, h.requestId.value, SignatureField(h.signature.value, "ts=").value))
                                 == SignatureField(h.signature.value, "v1=").value)
  {
    if !Present(h.signature) || !Present(h.requestId) || secret.None? then Unchecked
    else
      var ts := SignatureField(h.signature.value, "ts=");
      var v1 := SignatureField(h.signature.value, "v1=");
      if !Present(ts) || !Present(v1) then Unchecked
      else if hmac(secret.value, Manifest(n.dataId, h.requestId.value, ts.value)) != v1.value then Forged
      else Genuine
  }

  /** A header in the form the processor sends, `ts=<ts>,v1=<digest of the manifest>`, passes
      the gate: the parse recovers both values and the digest matches. */
  lemma {:induction false} SignedHeaderIsGenuine(n: Notification, requestId: string, secret: string, ts: string,
                                                 hmac: (string, string) -> string)
    requires requestId != "" && ts != "" && ',' !in ts
    requires hmac(secret, Manifest(n.dataId, requestId, ts)) != "" && ',' !in hmac(secret, Manifest(n.dataId, requestId, ts))
    ensures var header := "ts=" + ts + ",v1=" + hmac(secret, Manifest(n.dataId, requestId, ts));
            CheckSignature(n, Headers(Some(header), Some(requestId)), Some(secret), hmac) == Genuine
  {
    var digest := hmac(secret, Manifest(n.dataId, requestId, ts));
    HeaderFields(ts, digest);
  }

  /** A header `ts=<ts>,v1=<digest>` splits at its one comma into its two fields. */
  lemma HeaderSplits(ts: string, digest: string)
    requires ',' !in ts && ',' !in digest
    ensures Split("ts=" + ts + ",v1=" + digest, ',') == ["ts=" + ts, "v1=" + digest]
  {
    var first, second := "ts=" + ts, "v1=" + digest;
    assert ",v1=" == [','] + "v1=";
    Regroup(first, [','], "v1=", digest);
    SplitConcat(first, second, ',');
    assert ',' !in "ts=" && ',' !in "v1=";
    NotInConcat(',', "ts=", ts);
    NotInConcat(',', "v1=", digest);
    SplitWithoutSeparator(first, ',');
    SplitWithoutSeparator(second, ',');
  }

  /** Both fields of a header `ts=<ts>,v1=<digest>` read back what was written. */
  lemma HeaderFields(ts: string, digest: string)
    requires ',' !in ts && ',' !in digest
    ensures SignatureField("ts=" + ts + ",v1=" + digest, "ts=") == Some(ts)
    ensures SignatureField("ts=" + ts + ",v1=" + digest, "v1=") == Some(digest)
  {
    var first, second := "ts=" + ts, "v1=" + digest;
    HeaderSplits(ts, digest);
    StartsWithConcat("ts=", ts);
    StartsWithConcat("v1=", digest);
    assert !StartsWith(first, "v1=") by { assert first[0] == 't'; }
    FindIndexIs([first, second], Keyed("ts="), 0);
    FindIndexIs([first, second], Keyed("v1="), 1);
  }

  /** `data.data?.id || data.id`, kept only when truthy. */
  function EventId(n: Notification): (r: Option<Json>)
    ensures r.Some? ==> Truthy(r.value)
    ensures Truthy(n.dataId) ==> r == Some(n.dataId)
    ensures !Truthy(n.dataId) ==> (r.Some? <==> Truthy(n.id)) && (r.Some? ==> r.value == n.id)
  {
    if Truthy(n.dataId) then Some(n.dataId) else if Truthy(n.id) then Some(n.id) else None
  }

  /** `data.topic || data.type || 'unknown'`. */
  function EventType(n: Notification): string {
    if Truthy(n.topic) then JsonText(n.topic) else if Truthy(n.kind) then JsonText(n.kind) else "unknown"
  }

  datatype Topic = Payment | MerchantOrders

  /** Which topic handler runs: `payment` first, then `merchant_orders`, matching either field. */
  function Route(n: Notification): (r: Option<Topic>)
    ensures r == Some(Payment) <==> n.topic == Str("payment") || n.kind == Str("payment")
    ensures r == Some(MerchantOrders) <==>
              !(n.topic == Str("payment") || n.kind == Str("payment"))
              && (n.topic == Str("merchant_orders") || n.kind == Str("merchant_orders"))
  {
    if n.topic == Str("payment") || n.kind == Str("payment") then Some(Payment)
    else if n.topic == Str("merchant_orders") || n.kind == Str("merchant_orders") then Some(MerchantOrders)
    else None
  }

  /** The ledger lookup `.eq('event_id', key).single()` finds a row. */
  predicate Seen(events: seq<WebhookEvent>, key: string) {
    Single(events, (e: WebhookEvent) => e.eventId == key).Some?
  }

  predicate DistinctEventIds(events: seq<WebhookEvent>) {
    forall i, j :: 0 <= i < j < |events| ==> events[i].eventId != events[j].eventId
  }

  /** In a ledger without repeated ids, an id is seen exactly when a row carries it. */
  lemma {:induction false} SeenInDistinctLedger(events: seq<WebhookEvent>, key: string)
    requires DistinctEventIds(events)
    ensures Seen(events, key) <==> exists i :: 0 <= i < |events| && events[i].eventId == key
  {
    var p := (e: WebhookEvent) => e.eventId == key;
    if i :| 0 <= i < |events| && events[i].eventId == key {
      FilterOne(events, p, i);
    } else if Seen(events, key) {
      var e := Single(events, p).value;
      assert e in events;
    }
  }

  /** Once an event is recorded it is seen: a redelivery of the same id is answered without
      running a handler, and the ledger keeps its ids distinct. */
  lemma {:induction false} RecordedEventIsSeen(events: seq<WebhookEvent>, key: string, kind: string)
    requires DistinctEventIds(events) && !Seen(events, key)
    ensures DistinctEventIds(events + [WebhookEvent(key, kind)])
    ensures Seen(events + [WebhookEvent(key, kind)], key)
  {
    SeenInDistinctLedger(events, key);
    var after := events + [WebhookEvent(key, kind)];
    assert after[|events|].eventId == key;
    SeenInDistinctLedger(after, key);
  }

  /** `processPaymentWebhook` and `processMerchantOrderWebhook`: both only log the id they
      would act on, `data.data?.id` when truthy, and swallow their own errors. */
  function HandledId(n: Notification): (r: Option<string>)
    ensures r.Some? <==> Truthy(n.dataId)
  {
    if Truthy(n.dataId) then Some(JsonText(n.dataId)) else None
  }

  /** The handler. `secret` is the webhook secret row, when one exists, and `insertFails` says
      whether the (unchecked) ledger insert fails. Returns the HTTP status and which topic
      handler ran. */
  method Receive(db: Database, body: Body, h: Headers, secret: Option<string>,
                 hmac: (string, string) -> string, insertFails: bool)
    returns (status: int, dispatched: Option<Topic>)
    modifies db`webhookEvents
    ensures body.Malformed? ==> status == 500 && dispatched.None? && db.webhookEvents == old(db.webhookEvents)
    ensures body.Parsed? && CheckSignature(body.notification, h, secret, hmac) == Forged ==>
              status == 401 && dispatched.None? && db.webhookEvents == old(db.webhookEvents)
    ensures body.Parsed? && CheckSignature(body.notification, h, secret, hmac) != Forged ==>
              var n := body.notification;
              var replay := EventId(n).Some? && Seen(old(db.webhookEvents), JsonText(EventId(n).value));
              && status == 200
              && (replay ==> dispatched.None? && db.webhookEvents == old(db.webhookEvents))
              && (!replay ==> dispatched == Route(n))
              && (!replay && EventId(n).Some? && !insertFails ==>
                    db.webhookEvents == old(db.webhookEvents) + [WebhookEvent(JsonText(EventId(n).value), EventType(n))])
              && (EventId(n).None? || insertFails ==> db.webhookEvents == old(db.webhookEvents))
    ensures DistinctEventIds(old(db.webhookEvents)) ==> DistinctEventIds(db.webhookEvents)
  {
    if body.Malformed? {
      return 500, None;
    }
    var n := body.notification;
    if CheckSignature(n, h, secret, hmac) == Forged {
      return 401, None;
    }
    var eventId := EventId(n);
    if eventId.Some? && Seen(db.webhookEvents, JsonText(eventId.value)) {
      return 200, None;
    }
    dispatched := Route(n);
    if eventId.Some? && !insertFails {
      if DistinctEventIds(db.webhookEvents) {
        RecordedEventIsSeen(db.webhookEvents, JsonText(eventId.value), EventType(n));
      }
      db.webhookEvents := db.webhookEvents + [WebhookEvent(JsonText(eventId.value), EventType(n))];
    }
    status := 200;
  }
}
