/** The rows of the relational store the functions read and write, and the store itself as
    one object holding a sequence of rows per table. Queries are filters over these
    sequences; inserts append; updates rewrite the matching rows; deletes drop them. */
module Tables {
  import opened Wrappers

  type Id = string

  /** An authenticated caller as the auth service reports it. */
  datatype AuthUser = AuthUser(id: Id, email: Option<string>)

  /** A point in time as the handlers use it: the calendar date (`YYYY-MM-DD`) and the
      second of that day. */
  datatype DateTime = DateTime(date: string, second: int)

  datatype Profile = Profile(id: Id, userId: Id, fullName: Option<string>)

  datatype Service = Service(id: Id, name: string, description: Option<string>, price: real,
                             durationMinutes: Option<int>, sellerId: Option<Id>, isActive: bool)

  datatype Product = Product(id: Id, name: string, description: Option<string>, price: real,
                             category: string, sellerId: Id, stockQuantity: int, isActive: bool,
                             imageUrl: Option<string>)

  datatype AppointmentStatus = PendingPayment | Scheduled | InProgress | Completed | Cancelled

  datatype Appointment = Appointment(id: Id, customerId: Id, serviceId: Id, scheduledTime: DateTime,
                                     status: AppointmentStatus, bookingType: string,
                                     notes: Option<string>, timeSlot: Option<string>,
                                     queuePosition: Option<int>)

  /** A row of `daily_queue`. */
  datatype QueueEntry = QueueEntry(appointmentId: Id, queuePosition: int, queueDate: string, isActive: bool)

  datatype Seller = Seller(id: Id, userId: Id, profileId: Id, businessName: string, mpUserId: Option<string>)

  /** A row of `mp_oauth_tokens`. The callback writes `seller_id` only; `userId` is the
      `user_id` column the appointment checkout filters on, which no modelled writer sets. */
  datatype TokenRow = TokenRow(sellerId: Id, userId: Option<Id>, encryptedAccessToken: string,
                               encryptedRefreshToken: string, publicKey: Option<string>,
                               mpUserId: string, expiresAt: int)

  /** A row of `mp_oauth_states`: the CSRF `state` value, its owner and its expiry (ms). */
  datatype OAuthState = OAuthState(state: string, userId: Id, expiresAt: int)

  datatype Order = Order(id: Id, buyerId: Id, sellerId: Id, totalAmount: real,
                         marketplaceFee: Option<real>, mpPreferenceId: Option<string>,
                         status: string, createdAt: int, updatedAt: int)

  datatype OrderItem = OrderItem(orderId: Id, productId: Id, quantity: int, unitPrice: real, totalPrice: real)

  /** A row of `processed_webhook_events`, the idempotency ledger. */
  datatype WebhookEvent = WebhookEvent(eventId: string, eventType: string)

  /** The store. Every handler names in its `modifies` clause exactly the tables it writes. */
  class Database {
    var profiles: seq<Profile>
    var services: seq<Service>
    var products: seq<Product>
    var appointments: seq<Appointment>
    var dailyQueue: seq<QueueEntry>
    var sellers: seq<Seller>
    var tokens: seq<TokenRow>
    var oauthStates: seq<OAuthState>
    var orders: seq<Order>
    var orderItems: seq<OrderItem>
    var webhookEvents: seq<WebhookEvent>

    constructor ()
      ensures profiles == [] && services == [] && products == [] && appointments == []
      ensures dailyQueue == [] && sellers == [] && tokens == [] && oauthStates == []
      ensures orders == [] && orderItems == [] && webhookEvents == []
    {
      profiles, services, products, appointments := [], [], [], [];
      dailyQueue, sellers, tokens, oauthStates := [], [], [], [];
      orders, orderItems, webhookEvents := [], [], [];
    }
  }
}
