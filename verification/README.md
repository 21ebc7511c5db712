# Barbershop bookings and marketplace with Mercado Pago split payments

A barbershop web application built on Supabase lets customers pick services, book a shift on a
calendar and pay through Mercado Pago. Sellers connect their own Mercado Pago account through
OAuth and sell products in a marketplace. Each sale is a payment split between the seller and
the marketplace, which keeps a fee. This project is a Dafny model of the application's core:

- **Appointment checkout** (`mp-create-appointment-preference`). A chain of guards picks the
  redirect base, the customer profile, the requested active services, their single seller and
  that seller's stored token. The handler then totals the services and submits a payment
  preference with a flat fee of 1.00. It reserves the first free queue position of the shift
  and records one `pending_payment` appointment per requested service.
- **Order checkout** (`mp-create-preference`). Cart lines are checked against active products
  and their stock. All products must belong to one connected seller. The total is
  Σ price × quantity, and the fee is a percentage of it (10 by default). A `pending` order is
  stored, followed by its items.
- **Re-billing a reservation** (`mp-create-payment-preference`). The owner of a
  `pending_payment` appointment gets a new one-item preference paid with a platform token. The
  appointment's notes are overwritten with the new preference id.
- **Notifications** (`mp-webhooks`). An optional HMAC-SHA256 signature check (RFC 2104) runs
  over the manifest `id:…;request-id:…;ts:…;`. A ledger of processed event ids makes
  redelivery harmless. Notifications are dispatched by topic.
- **Seller onboarding** (`mp-oauth-initiate`, `mp-oauth-authorize`, `mp-oauth-callback`). This
  is the authorization-code grant of section 4.1 of RFC 6749. A `state` row valid for ten
  minutes is stored (the CSRF protection of section 10.12 of RFC 6749). The authorization URL is built
  with `URLSearchParams.set`. The callback exchanges the code, checks the state, finds or
  creates the seller, stores both tokens in base64 and deletes the state.
- **Client pages.**
  - Service selection (`Index.tsx`, `Services.tsx`).
  - The booking calendar (`SchedulingCalendar.tsx`): shifts, occupancy, blocked days, and
    booking with queue rows.
  - The daily queue (`Queue.tsx`): today's active rows ordered by position, the next customer,
    and starting an appointment. A handler that finishes one is defined but never wired to
    the page.
  - The marketplace cart (`Marketplace.tsx`).
  - The new-product form (`ProductForm.tsx`).
  - The seller's dashboard (`SellerDashboard.tsx`) and the split-payment dashboard
    (`SplitPaymentDashboard.tsx`).

The database is a class `Tables.Database` with one sequence of rows per table. Handlers are
methods that change only the tables they write, named field by field in their `modifies`
clauses. The following outside inputs become parameters of the handler that uses them:

- what the auth service, the vault and the environment return;
- the processor's replies;
- the ids the store assigns;
- UUIDs, the clock and `Math.random`;
- the HMAC function;
- whether a write fails.

A `.single()` or `.maybeSingle()` lookup returns a row exactly when one row matches.

Several behaviours of the code are stated and proved as lemmas:

- A reservation does not count against its shift until it is paid
  (`ReservationsDoNotOccupy`).
- The "full shift" test counts entries, not distinct positions (`FullShiftWithFreePosition`).
- An 18:00 booking counts in two shifts (`EighteenHundredCountsTwice`).
- Stock is checked line by line (`StockIsCheckedPerLine`).
- Re-billing erases the shift note of a reservation (`RetryOverwritesReservationNote`).
- The OAuth callback's token "upsert" always inserts, so a reconnecting seller is no longer
  found by the order checkout (`ReconnectionHidesToken`).
- Tokens written by the callback carry no `user_id`, so the appointment checkout, which looks
  tokens up by `user_id`, never finds them (`CallbackTokensStayInvisibleToAppointments`).

Behaviour worth noting, which the model keeps as the code has it:

- the appointment checkout counts only `scheduled` appointments against a shift, so a
  `pending_payment` reservation holds no position;
- the OAuth callback deletes the state only after the tokens are stored;
- the tokens go into the `encrypted_access_token` and `encrypted_refresh_token` columns as
  plain base64 (`btoa`, marked "Base64 simples por ora" at
  `mp-oauth-callback/index.ts:146`), not encrypted;
- a body that is not JSON makes the webhook answer 500;
- the queue page defines `handleCompleteAppointment` (`src/pages/Queue.tsx:76-98`) but passes
  only `onStart` and `canStart` to each queue item (`src/pages/Queue.tsx:147-151`), whose one
  button starts the appointment, so no path on the page completes one. The handler is still
  modelled as `DailyQueue.CompleteAppointment`.

## Model

| member | source | states |
|---|---|---|
| AppointmentCheckout.BaseUrl | supabase/functions/mp-create-appointment-preference/index.ts:44-55 | the redirect base is the first non-empty of `app_base_url`, the `origin` header and the referer's origin, and is absent only when all three are |
| AppointmentCheckout.DistinctSellers | supabase/functions/mp-create-appointment-preference/index.ts:100 | no seller id occurs twice in the result |
| AppointmentCheckout.DistinctSellersMembers | supabase/functions/mp-create-appointment-preference/index.ts:100 | the result holds exactly the non-empty seller ids of the services |
| AppointmentCheckout.Validate | supabase/functions/mp-create-appointment-preference/index.ts:28-122 | the guard chain: no user gives Unauthorized, no base gives NoBaseUrl, no ids give NoServices; a success carries the caller's profile, the active requested services and their one seller |
| AppointmentCheckout.CheckoutHasOneSeller | supabase/functions/mp-create-appointment-preference/index.ts:73-107 | a checkout that passes bills only active, requested services, and every one naming a seller names the same seller, who appears at least once |
| AppointmentCheckout.CheckoutUsesSellerToken | supabase/functions/mp-create-appointment-preference/index.ts:110-122 | the access token sent is the base64 decoding of a stored, non-empty token whose `user_id` is the seller |
| AppointmentCheckout.CallbackTokensAreNotFound | supabase/functions/mp-create-appointment-preference/index.ts:111-121 | with token rows that carry no `user_id`, no request passes the guards |
| AppointmentCheckout.LineItems | supabase/functions/mp-create-appointment-preference/index.ts:87-97 | one preference line per service |
| AppointmentCheckout.LineItemsAt | supabase/functions/mp-create-appointment-preference/index.ts:87-97 | the k-th preference line is the line of the k-th service |
| AppointmentCheckout.LineItem | supabase/functions/mp-create-appointment-preference/index.ts:90-96 | a service's line is one unit at the service price |
| AppointmentCheckout.LineItemsSumToTotal | supabase/functions/mp-create-appointment-preference/index.ts:84-97 | the lines charge exactly Σ price, one unit of each service at its price |
| AppointmentCheckout.Totals | supabase/functions/mp-create-appointment-preference/index.ts:84-97 | the loop computes Σ price and the preference lines |
| AppointmentCheckout.OccupiedPositions | supabase/functions/mp-create-appointment-preference/index.ts:179-194 | the occupied positions are exactly the non-null positions of `scheduled` appointments of that day and shift |
| AppointmentCheckout.FirstFree | supabase/functions/mp-create-appointment-preference/index.ts:195-201 | the position is in 1..5, is the smallest free one, and is 1 when all five are taken |
| AppointmentCheckout.NextPosition | supabase/functions/mp-create-appointment-preference/index.ts:195-201 | the search loop with its `break` returns the first free position |
| AppointmentCheckout.ShortQueueLeavesFreePosition | supabase/functions/mp-create-appointment-preference/index.ts:204-206 | with fewer than five occupied entries the reserved position is free |
| AppointmentCheckout.FullShiftWithFreePosition | supabase/functions/mp-create-appointment-preference/index.ts:204-206 | there is a shift reported full whose first free position is still free |
| AppointmentCheckout.TimeForSlot | supabase/functions/mp-create-appointment-preference/index.ts:209-216 | afternoon is 14:00, evening is 18:00, and morning or any other shift is 10:00 |
| AppointmentCheckout.Reservations | supabase/functions/mp-create-appointment-preference/index.ts:219-231 | one reservation per requested id, in order, each with the k-th store id |
| AppointmentCheckout.ReservationsPrefix | supabase/functions/mp-create-appointment-preference/index.ts:219-239 | the first n reservations are the reservations of the first n ids |
| AppointmentCheckout.NothingScheduledOccupiesNothing | supabase/functions/mp-create-appointment-preference/index.ts:185 | appointments none of which is `scheduled` occupy no position |
| AppointmentCheckout.ReservationsDoNotOccupy | supabase/functions/mp-create-appointment-preference/index.ts:219-231 | adding reservations leaves the occupied positions of every day and shift unchanged |
| AppointmentCheckout.ConfirmedReservationOccupies | supabase/functions/mp-create-appointment-preference/index.ts:179-230 | a reservation marked `scheduled` lies in the queried window and occupies its position |
| AppointmentCheckout.InsertReservations | supabase/functions/mp-create-appointment-preference/index.ts:219-239 | the inserts up to the first refused one are appended, and their ids are returned |
| AppointmentCheckout.Reserve | supabase/functions/mp-create-appointment-preference/index.ts:179-254 | a full shift is refused exactly when it holds the maximum number of positions, and nothing is written then. Otherwise the reservations up to the first failing insert are appended at the first free position, and success returns one new id per service |
| AppointmentCheckout.CreateAppointmentPreference | supabase/functions/mp-create-appointment-preference/index.ts:28-268 | guard errors send nothing and write nothing. A rejected preference or a full shift writes nothing. An insert error keeps the inserts before it. Past the guards, a created preference on a shift with a free position whose inserts all succeed always ends in success, which reserves the first free position for every service and returns the ids and the total; an insert error there is reported as one |
| Base64.Btoa | supabase/functions/mp-oauth-callback/index.ts:146-147 | `btoa` succeeds exactly on Latin-1 text and yields a multiple of four characters |
| Base64.Atob | supabase/functions/mp-create-preference/index.ts:102 | a decoded token is a byte string |
| Base64.DecodeEncode | supabase/functions/mp-oauth-callback/index.ts:146 | decoding the base64 of any bytes gives them back |
| Base64.AtobBtoa | supabase/functions/mp-create-preference/index.ts:102 | `atob` restores every token `btoa` accepted |
| OrderCheckout.FeePercentage | supabase/functions/mp-create-preference/index.ts:39-42 | the fee percentage is the body's, or 10 when absent |
| OrderCheckout.ProductIds | supabase/functions/mp-create-preference/index.ts:60 | the i-th id is the i-th line's product |
| OrderCheckout.FindProduct | supabase/functions/mp-create-preference/index.ts:73 | a found product is listed with that id; none found means no product has it |
| OrderCheckout.LineError | supabase/functions/mp-create-preference/index.ts:73-79 | a line passes exactly when its product is found and its stock covers the quantity |
| OrderCheckout.FirstLineError | supabase/functions/mp-create-preference/index.ts:72-80 | no error exactly when every line passes; otherwise the error of the first failing line |
| OrderCheckout.CheckStock | supabase/functions/mp-create-preference/index.ts:72-80 | the loop returns the first failing line's error |
| OrderCheckout.StockIsCheckedPerLine | supabase/functions/mp-create-preference/index.ts:72-80 | two lines of one product can pass while together they exceed its stock |
| OrderCheckout.Validate | supabase/functions/mp-create-preference/index.ts:25-102 | no user gives Unauthorized, no items give NoItems; a success holds the requested active products, every line within stock, and the first product's seller |
| OrderCheckout.ValidCartProperties | supabase/functions/mp-create-preference/index.ts:59-102 | a cart that passes has active stored products of one seller, every line resolved within stock, and a stored token of that seller whose decoding is the token used |
| OrderCheckout.PreferenceLine | supabase/functions/mp-create-preference/index.ts:108-121 | a line yields at most one preference item, and none exactly when its product is unknown |
| OrderCheckout.PreferenceLineCharges | supabase/functions/mp-create-preference/index.ts:108-121 | a line's preference items charge price × quantity, and nothing for an unknown product |
| OrderCheckout.ItemOf | supabase/functions/mp-create-preference/index.ts:114-120 | the item of a found product carries its price and the requested quantity |
| OrderCheckout.PreferenceLinesSumToTotal | supabase/functions/mp-create-preference/index.ts:104-122 | the preference lines charge exactly the order total |
| OrderCheckout.Totals | supabase/functions/mp-create-preference/index.ts:104-122 | the loop computes the total and the preference lines |
| OrderCheckout.OrderItemFor | supabase/functions/mp-create-preference/index.ts:180-189 | an item's total is unit price × quantity and equals its line's amount |
| OrderCheckout.OrderItemsFor | supabase/functions/mp-create-preference/index.ts:180-189 | one item per requested line |
| OrderCheckout.OrderItemsSumToTotal | supabase/functions/mp-create-preference/index.ts:160-193 | every item belongs to the new order with its line's product and quantity, and the items add up to `total_amount` |
| OrderCheckout.Place | supabase/functions/mp-create-preference/index.ts:124-214 | the submitted preference carries the lines and the fee. A rejection writes nothing. An order-insert error writes nothing. An item-insert error leaves the order without items. A created preference with both inserts succeeding always ends in success, which stores a `pending` order and its items |
| OrderCheckout.CreatePreference | supabase/functions/mp-create-preference/index.ts:25-228 | guard errors send and write nothing; past the guards, as `Place`, including that a created preference with both inserts succeeding always ends in success |
| RetryCheckout.Validate | supabase/functions/mp-create-payment-preference/index.ts:24-75 | the guards in order; a success is the caller's own `pending_payment` appointment with platform credentials |
| RetryCheckout.OnlyOwnerMayRebill | supabase/functions/mp-create-payment-preference/index.ts:64-67 | a caller who is not the appointment's customer is refused, with NotOwner once the profile exists |
| RetryCheckout.ReservationCanBeRebilled | supabase/functions/mp-create-payment-preference/index.ts:45-67 | a reservation made by the appointment checkout passes the guards for its customer |
| RetryCheckout.OriginText | supabase/functions/mp-create-payment-preference/index.ts:113-115 | a missing `origin` header renders as "null" |
| RetryCheckout.RetryPreference | supabase/functions/mp-create-payment-preference/index.ts:100-127 | one line of quantity 1 at the service price, charging exactly that price, with no marketplace fee |
| RetryCheckout.WithNotes | supabase/functions/mp-create-payment-preference/index.ts:150-156 | rows with the id get the note and nothing else changes |
| RetryCheckout.RetryOverwritesReservationNote | supabase/functions/mp-create-payment-preference/index.ts:150-156 | the new note drops the reservation's shift text, while the position and shift columns stay |
| RetryCheckout.CreatePaymentPreference | supabase/functions/mp-create-payment-preference/index.ts:24-190 | guard errors request nothing. A denied grant sends nothing. Past the guards with a token, a missing service fails with nothing sent, and otherwise the preference built from the appointment, service and user is submitted with the granted token. A rejection reports its status; a created preference always ends in success, which returns the new preference and the service price and writes the note unless the update fails |
| Webhooks.SignatureField | supabase/functions/mp-webhooks/index.ts:41-43 | the value after the key in the first comma-separated part starting with it, or none when no part does |
| Webhooks.CheckSignature | supabase/functions/mp-webhooks/index.ts:28-57 | the check runs exactly when both headers, the secret, `ts` and `v1` are present, and passes exactly when the HMAC of the manifest equals `v1` |
| Webhooks.SignedHeaderIsGenuine | supabase/functions/mp-webhooks/index.ts:41-54 | a header `ts=…,v1=<digest>` made with the secret passes |
| Webhooks.EventId | supabase/functions/mp-webhooks/index.ts:60 | `data.data.id` when truthy, else `data.id` when truthy, else none |
| Webhooks.Route | supabase/functions/mp-webhooks/index.ts:78-82 | `payment` on either field wins; `merchant_orders` otherwise; nothing else dispatches |
| Webhooks.SeenInDistinctLedger | supabase/functions/mp-webhooks/index.ts:62-68 | in a ledger without repeats an id is seen exactly when a row carries it |
| Webhooks.RecordedEventIsSeen | supabase/functions/mp-webhooks/index.ts:85-92 | recording an unseen event keeps ids distinct and makes its redelivery seen |
| Webhooks.HandledId | supabase/functions/mp-webhooks/index.ts:102-133 | a topic handler acts exactly when `data.data.id` is truthy |
| Webhooks.Receive | supabase/functions/mp-webhooks/index.ts:9-100 | a malformed body gives 500 and a forged signature 401, both writing nothing. A replay gives 200 without dispatch. Otherwise 200 with dispatch by topic and the event recorded; the ledger keeps distinct ids |
| SearchParams.Get | supabase/functions/mp-oauth-callback/index.ts:16-18 | `get` returns a value stored under the name, and none exactly when no pair has the name |
| SearchParams.GetAfterSet | supabase/functions/mp-oauth-initiate/index.ts:51-55 | after `set` the name occurs once and reads back the value set |
| SearchParams.SetLeavesOthers | supabase/functions/mp-oauth-initiate/index.ts:51-55 | `set` leaves every other name's value unchanged |
| SearchParams.Query.constructor | supabase/functions/mp-oauth-initiate/index.ts:50 | a new URL object has no query |
| SearchParams.Query.Set | supabase/functions/mp-oauth-initiate/index.ts:51-55 | a `set` call replaces the pairs by the set result |
| OAuthInitiate.EnvText | supabase/functions/mp-oauth-initiate/index.ts:48-51 | an unset client id renders as "undefined" |
| OAuthInitiate.StateRow | supabase/functions/mp-oauth-initiate/index.ts:38-43 | the row carries the state and user and expires ten minutes after issue |
| OAuthInitiate.AuthorizationQueryParameters | supabase/functions/mp-oauth-initiate/index.ts:50-55 | the URL reads back the client id, `code`, `mp`, the issued state and the redirect URI |
| OAuthInitiate.SetsBuildQuery | supabase/functions/mp-oauth-initiate/index.ts:51-55 | each `set` of a new name appends it, so the query lists the parameters in call order |
| OAuthInitiate.BuildAuthorizationUrl | supabase/functions/mp-oauth-initiate/index.ts:50-55 | the five `set` calls give the endpoint with the query in call order |
| OAuthInitiate.Initiate | supabase/functions/mp-oauth-initiate/index.ts:17-69 | no user or a failed insert fails and stores nothing; a user with a successful insert always starts, storing the state row and returning the URL carrying that state |
| OAuthAuthorize.SameParametersAsInitiate | supabase/functions/mp-oauth-authorize/index.ts:52-57 | every parameter reads the same as in the other start handler; only the order differs |
| OAuthAuthorize.SetsBuildQuery | supabase/functions/mp-oauth-authorize/index.ts:53-57 | each `set` of a new name appends it, so the query lists the parameters in call order |
| OAuthAuthorize.BuildAuthorizationUrl | supabase/functions/mp-oauth-authorize/index.ts:52-57 | the five `set` calls give the endpoint with `redirect_uri` before `state` |
| OAuthAuthorize.Authorize | supabase/functions/mp-oauth-authorize/index.ts:14-93 | no header or user gives Unauthorized; no secret gives NoCredentials; otherwise the URL and state are returned, and the row is stored unless the unchecked insert fails |
| OAuthCallback.PostedType | supabase/functions/mp-oauth-callback/index.ts:165-197 | the page posts a message except when the processor reported an error |
| OAuthCallback.ExchangeRequest | supabase/functions/mp-oauth-callback/index.ts:29-71 | the code is exchanged exactly when code, state and both secrets are present, with the callback as redirect URI |
| OAuthCallback.Validate | supabase/functions/mp-oauth-callback/index.ts:29-97 | checks in order: parameters, secrets, exchange, then a live state; a success names the state's user and the issued tokens |
| OAuthCallback.IssuedStateIsAcceptedUntilExpiry | supabase/functions/mp-oauth-callback/index.ts:86-95 | a state issued by either start handler is accepted before its expiry and refused after |
| OAuthCallback.Consume | supabase/functions/mp-oauth-callback/index.ts:159-162 | no row with the state remains |
| OAuthCallback.ConsumedStateIsRefused | supabase/functions/mp-oauth-callback/index.ts:159-162 | once consumed, the same state never validates again |
| OAuthCallback.BusinessName | supabase/functions/mp-oauth-callback/index.ts:127 | the profile's name, or the non-empty "Minha Loja" |
| OAuthCallback.NewSeller | supabase/functions/mp-oauth-callback/index.ts:122-131 | the new seller carries the user, profile and processor user id |
| OAuthCallback.TokenRowFor | supabase/functions/mp-oauth-callback/index.ts:142-151 | the row exists exactly when both tokens are Latin-1; `atob` of its fields gives the tokens back; it expires `expires_in` seconds after now |
| OAuthCallback.FirstConnectionIsUsable | supabase/functions/mp-oauth-callback/index.ts:142-151 | after a first connection the order checkout finds the row and decodes the issued token |
| OAuthCallback.ReconnectionHidesToken | supabase/functions/mp-oauth-callback/index.ts:142-151 | after a reconnection the order checkout's lookup finds no row |
| OAuthCallback.CallbackTokensStayInvisibleToAppointments | supabase/functions/mp-oauth-callback/index.ts:142-151 | no appointment checkout passes with only callback-written tokens |
| OAuthCallback.Complete | supabase/functions/mp-oauth-callback/index.ts:14-198 | an error parameter gives the denial page. Every failure writes no token and keeps the states. A success finds or creates the seller, appends the token row and consumes the state unless the delete fails |
| Scheduling.SlotOf | src/components/SchedulingCalendar.tsx:28-32 | exactly morning, afternoon and evening are shifts, each its own entry |
| Scheduling.TotalsMatchCheckout | src/components/SchedulingCalendar.tsx:92-100 | over the same list of services, the shown total is what the appointment checkout charges; the duration is not negative |
| Scheduling.Occupancy | src/components/SchedulingCalendar.tsx:102-115 | zero without data, without a date or for an unknown shift |
| Scheduling.EighteenHundredCountsTwice | src/components/SchedulingCalendar.tsx:102-115 | a booking at 18:00 counts in the afternoon and in the evening |
| Scheduling.BookableDays | src/components/SchedulingCalendar.tsx:117-119 | a day is bookable exactly from Tuesday to Saturday and when it has not started |
| Scheduling.ScheduledTimeInsideSlot | src/components/SchedulingCalendar.tsx:138-140 | below capacity, the computed time lies inside the shift |
| Scheduling.ServerShiftTimesInsideWindows | src/components/SchedulingCalendar.tsx:28-32 | the server's hour for a shift lies inside the calendar's window for it |
| Scheduling.Bookings | src/components/SchedulingCalendar.tsx:143-154 | one `scheduled` appointment per service, in order, at the computed time |
| Scheduling.QueueRows | src/components/SchedulingCalendar.tsx:158-165 | one active queue row per booking at position occupancy + 1 |
| Scheduling.BookingsFillTheShift | src/components/SchedulingCalendar.tsx:143-165 | after booking, the shift's occupancy grows by the number of bookings |
| Scheduling.ErrorText | src/components/SchedulingCalendar.tsx:183 | the toast shows the message, or "Tente novamente." when it is empty |
| Scheduling.InsertBookings | src/components/SchedulingCalendar.tsx:143-172 | each service's appointment and queue row are appended, up to the first failing service |
| Scheduling.HandleSchedule | src/components/SchedulingCalendar.tsx:121-189 | missing input does nothing. An unknown or full shift is refused without writing. A failing insert keeps the services before it. Success books every service |
| ServiceSelection.Toggle | src/pages/Index.tsx:77-83 | a selected id is removed, any other is appended at the end |
| ServiceSelection.ToggleMembership | src/pages/Index.tsx:77-83 | a toggle flips the clicked id's membership and keeps every other id's |
| ServiceSelection.ToggleKeepsDistinct | src/pages/Services.tsx:48-56 | a selection without duplicates stays without duplicates |
| ServiceSelection.ToggleTwiceRestoresMembership | src/pages/Index.tsx:77-83 | toggling twice restores which ids are selected |
| ServiceSelection.ToggleTwiceReorders | src/pages/Index.tsx:77-83 | toggling twice can move an id to the end |
| ServiceSelection.ToggleOffDeletes | src/pages/Services.tsx:48-56 | deselecting removes the one place the id holds |
| ServiceSelection.PriceOf | src/pages/Index.tsx:104-105 | an unknown id costs 0; a known one costs the price of a service row with that id |
| ServiceSelection.LoadedTotal | src/pages/Services.tsx:58-64 | 0 before the services load, otherwise the selection's total |
| ServiceSelection.TotalAfterToggle | src/pages/Index.tsx:102-107 | selecting adds the id's price; deselecting takes it off |
| ServiceSelection.UnknownIdsAddNothing | src/pages/Index.tsx:102-107 | an id no service has leaves the total unchanged |
| ServiceSelection.ProceedToScheduling | src/pages/Index.tsx:90-100 | the calendar opens exactly for a non-empty selection, which it keeps |
| ServiceSelection.Scheduled | src/pages/Index.tsx:124-127 | after a booking the selection is empty and the calendar closed |
| ServiceSelection.SignOut | src/pages/Index.tsx:57-75 | a failed sign-out changes nothing; a successful one resets the page |
| ServiceSelection.ResetBlocksProceeding | src/pages/Index.tsx:124-127 | after a reset the total is 0 and proceeding is refused |
| ServiceSelection.Proceed | src/pages/Services.tsx:66-76 | the selection is handed over exactly when it is non-empty, unchanged |
| SplitDashboard.Prefix8 | src/components/SplitPaymentDashboard.tsx:62 | at most eight characters, a prefix of the id |
| SplitDashboard.PaymentId | src/components/SplitPaymentDashboard.tsx:62 | the preference id, or `mp_` and the id's prefix; never empty |
| SplitDashboard.Shown | src/components/SplitPaymentDashboard.tsx:66 | a status shows as approved exactly when it is paid or approved |
| SplitDashboard.RowOf | src/components/SplitPaymentDashboard.tsx:59-70 | seller amount + fee = total, a null fee is 0, and the row has a processed time exactly for a paid order |
| SplitDashboard.Rows | src/components/SplitPaymentDashboard.tsx:59-70 | one row per order |
| SplitDashboard.StatsOf | src/components/SplitPaymentDashboard.tsx:83-90 | counts every order; approved payments never exceed them |
| SplitDashboard.RevenueSplits | src/components/SplitPaymentDashboard.tsx:59-90 | the revenue card is the rows' seller amounts plus fees, and the fees card is their fees |
| SplitDashboard.Tab | src/components/SplitPaymentDashboard.tsx:232 | a tab holds only rows with its status |
| SplitDashboard.TabsFollowOrders | src/components/SplitPaymentDashboard.tsx:232-271 | a tab is the rows of exactly the orders shown with its status, in order |
| SplitDashboard.ApprovedCardMatchesTab | src/components/SplitPaymentDashboard.tsx:83-89 | with no order stored as approved, the approved card counts the approved tab |
| SellerDashboard.Recent | src/components/SellerDashboard.tsx:105 | the first five orders, or all of fewer |
| SellerDashboard.Load | src/components/SellerDashboard.tsx:52-106 | no seller or no orders keep zeros. Otherwise: all orders counted, pending orders counted (at most the total), active products counted, paid revenue, recent five |
| SellerDashboard.LoadFollowsTable | src/components/SellerDashboard.tsx:73-103 | when the reply is the seller's rows of the order table in any order, the cards count and add up exactly those rows and the recent list holds only the seller's orders |
| SellerDashboard.RecentAreNewest | src/components/SellerDashboard.tsx:89-105 | no order left out is newer than one shown |
| SellerDashboard.RevenueIsApprovedSellerShare | src/components/SellerDashboard.tsx:92-94 | the revenue equals the seller amounts of the split view's approved tab |
| SellerDashboard.RevenueCountsPaidOnly | src/components/SellerDashboard.tsx:92-94 | only a paid order adds its total less its fee |
| SellerDashboard.StatusLabel | src/components/SellerDashboard.tsx:120-129 | one of the five labels, "Pendente" exactly for pending and unknown statuses |
| DailyQueue.Join | src/pages/Queue.tsx:23-41 | no more items than queue rows |
| DailyQueue.JoinedRows | src/pages/Queue.tsx:23-41 | every item pairs one of the entries with the appointment its id finds |
| DailyQueue.JoinComplete | src/pages/Queue.tsx:23-41 | every entry whose appointment is in the table appears, paired with that appointment |
| DailyQueue.SortByPosition | src/pages/Queue.tsx:44 | the sort keeps the same items |
| DailyQueue.SortIsOrdered | src/pages/Queue.tsx:44 | the sort orders by position |
| DailyQueue.TodaysQueueShape | src/pages/Queue.tsx:18-50 | ordered by position; every item is an active row of the queue table dated today with the appointment its id finds, and every such row whose appointment is in the table appears |
| DailyQueue.NextInQueue | src/pages/Queue.tsx:120 | the first `scheduled` item, and none exactly when none is scheduled |
| DailyQueue.OneStartable | src/pages/Queue.tsx:150 | at most one item can be started, and it is scheduled |
| DailyQueue.WithStatus | src/pages/Queue.tsx:54-57 | rows with the id get the status; every other field and row is unchanged |
| DailyQueue.UpdateStatus | src/pages/Queue.tsx:54-57 | the table becomes the update's result |
| DailyQueue.ErrorText | src/pages/Queue.tsx:70 | the store's message, or the fallback when it is empty |
| DailyQueue.StartAppointment | src/pages/Queue.tsx:52-74 | an error exactly when the update fails, leaving the table; otherwise the appointment is in progress |
| DailyQueue.CompleteAppointment | src/pages/Queue.tsx:76-98 | an error exactly when the update fails, leaving the table; otherwise the appointment is completed (the handler is defined but no control on the page calls it) |
| DailyQueue.RefetchAfterUpdate | src/pages/Queue.tsx:52-66 | the refetched queue is the same list with that appointment restated |
| DailyQueue.StartedIsNoLongerNext | src/pages/Queue.tsx:120 | once started, the next item is a later one or none |
| DailyQueue.StartMovesTheQueueOn | src/pages/Queue.tsx:52-120 | starting the next customer and refetching moves the call on |
| ProductForm.ExtensionFollowsLastDot | src/components/ProductForm.tsx:61 | the extension is the text after the last dot, or the name without dots, and holds no dot |
| ProductForm.Form.constructor | src/components/ProductForm.tsx:22-28 | the form starts blank with a stock of "1" and no image |
| ProductForm.Form.ChooseImage | src/components/ProductForm.tsx:41-51 | a chosen file replaces the image and preview; a cancel changes nothing |
| ProductForm.Form.RemoveImage | src/components/ProductForm.tsx:53-56 | image and preview are cleared, the fields kept |
| ProductForm.Form.Submit | src/components/ProductForm.tsx:79-152 | incomplete fields do nothing. The upload happens before the user and seller checks. Each failure keeps the form and the table. Complete fields, a successful upload (or none), a signed-in user with one seller row and a successful insert always end in success, which inserts the seller's active product with the image URL and blanks the form |
| MarketplaceCart.Quantity | src/components/Marketplace.tsx:67 | a non-zero quantity comes from an entry; an absent key reads 0 |
| MarketplaceCart.AddedQuantities | src/components/Marketplace.tsx:64-73 | adding raises that quantity by one, keeps the others, and keeps keys unique and positive |
| MarketplaceCart.RemovedQuantities | src/components/Marketplace.tsx:75-85 | removing lowers a quantity above 1 and deletes one at 1; the others are kept, and so is well-formedness |
| MarketplaceCart.RemoveUndoesAdd | src/components/Marketplace.tsx:64-85 | add then remove gives back the cart, key order included |
| MarketplaceCart.PriceOf | src/components/Marketplace.tsx:89-90 | a listed product costs the price of a row with its id, and an unlisted product costs 0 |
| MarketplaceCart.TotalsFollowButtons | src/components/Marketplace.tsx:87-92 | '+' adds the price and one item; '−' on a product in the cart takes them off |
| MarketplaceCart.Listed | src/components/Marketplace.tsx:40-48 | exactly the active stored products with stock above zero |
| MarketplaceCart.PlusKeepsWithinStock | src/components/Marketplace.tsx:248-260 | clicking an enabled '+' never passes the stock |
| MarketplaceCart.CheckoutRequest | src/components/Marketplace.tsx:117-124 | one line per entry with its quantity, at the 10 % fee |
| MarketplaceCart.CheckoutRequestHasItems | src/components/Marketplace.tsx:104-124 | a non-empty cart's request passes the item guard and asks for the default fee |
| MarketplaceCart.Marketplace.constructor | src/components/Marketplace.tsx:28-30 | no products and an empty cart |
| MarketplaceCart.Marketplace.FetchProducts | src/components/Marketplace.tsx:38-62 | the listing on success; a failure keeps the old list |
| MarketplaceCart.Marketplace.AddToCart | src/components/Marketplace.tsx:64-73 | the cart becomes the added cart, well formed, with one more of the product |
| MarketplaceCart.Marketplace.RemoveFromCart | src/components/Marketplace.tsx:75-85 | the cart becomes the removed cart, still well formed |
| MarketplaceCart.Marketplace.ProcessCheckout | src/components/Marketplace.tsx:94-150 | no user or an empty cart sends nothing. Otherwise the cart is sent. It is cleared, with a redirect, only when the call succeeds |

## Left out

- Concurrency: `Promise.all` in the booking calendar and the appointment checkout is modelled
  as inserts taken one after the other that stop at the first refused one. Inserts that run in
  parallel after a failed one, and an appointment whose own queue row then fails, are not
  separated.
- Time zones and JavaScript `Date` are left out. A time is a date plus a second of the day.
  The `-03:00` day window of the queue query is date equality. The queue's "today" is the UTC
  date the caller passes.
- Floating point: money is `real`, so rounding, `toFixed`, and `NaN` from
  `parseFloat`/`parseInt`/`Number` are left out. The form's parsed price and stock are
  parameters.
- Read errors of the store are left out. A failed query behaves as no rows. The exception is
  the marketplace listing, whose failure keeps the previous list.
- The second query of a `.single()` relation (`order.profiles`, `services:service_id`) is a
  plain lookup in the related table. The queue join skips entries without an appointment,
  which referential integrity rules out.
- `.order(...)` is a stable sort by the key. The marketplace listing's `created_at` order and
  its `sellers!inner` join are left out of `MarketplaceCart.Listed`.
- CORS preflight answers, HTML page text, logging, toasts, and the loading and busy flags are
  left out.
- The topic handlers of the webhook only log. Settling a payment is not implemented in the
  code, so nothing is modelled for it.
- URL serialisation (`toString`, percent-encoding) is left out. A URL is its address plus its
  ordered query pairs.
- `Number(mercado_pago_user_id)` for the sponsor is kept as text. The `external_reference`
  clock is a parameter.
- The model's appointment row has no `updated_at` column, so the re-billing handler's write
  of it beside the note is dropped (`mp-create-payment-preference/index.ts:152-155`). Only
  the order row keeps `updated_at`, which the split dashboard reads.
- SellerDashboard.Load: the order list is the reply of the order query, a parameter. Its
  rows are tied to the order table by `LoadFollowsTable` up to order; the `created_at`
  order the store applies is taken as given (`RecentAreNewest` assumes it).
- Request bodies are already-parsed records. A JSON body that is not an object is not
  modelled.
- Vault secrets, environment variables (`SUPABASE_URL` assumed set), the HMAC digest, UUIDs
  and `Math.random` are parameters.
- The `is_active` default of a new product is taken as true. The product insert does not set
  it.
- The file reader's preview and the storage's public URL are parameters. Deleting an orphaned
  upload is not something the code does.
- `atob` accepts only canonical padded base64 here; the runtime is more lenient with
  whitespace and missing padding.
- AppointmentCheckout.CreateAppointmentPreference: a failing queue query (line 188) is not
  modelled; the query is assumed to answer.
