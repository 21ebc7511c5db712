/** What the checkout builders send to the payment processor's preference endpoint, and the
    replies the processor can give. The processor itself is not modelled: its reply is an
    input of each handler. */
module Processor {
  import opened Wrappers

  datatype PreferenceItem = PreferenceItem(title: string, description: string, quantity: int,
                                           unitPrice: real, currencyId: string)

  datatype Payer = Payer(name: Option<string>, email: Option<string>)

  /** Where the processor sends the payer back after a successful, failed or pending payment. */
  datatype BackUrls = BackUrls(success: string, failure: string, pending: string)

  datatype Preference = Preference(items: seq<PreferenceItem>, payer: Option<Payer>, backUrls: BackUrls,
                                   autoReturn: Option<string>, notificationUrl: string, externalReference: Option<string>,
                                   metadata: seq<(string, string)>, marketplaceFee: Option<real>,
                                   sponsorId: Option<string>)

  /** What one preference line charges: unit price times quantity. */
  function ItemAmount(item: PreferenceItem): real {
    item.unitPrice * item.quantity as real
  }

  /** One POST to the preference endpoint: the bearer token it was authorised with and its body. */
  datatype Submission = Submission(bearer: string, preference: Preference)

  /** The processor's reply: a created preference, or a non-OK status with its body text. */
  datatype PreferenceReply = Created(id: string, initPoint: string) | Rejected(status: int, body: string)

  /** The webhook endpoint every preference names: `<SUPABASE_URL>/functions/v1/mp-webhooks`. */
  function NotificationUrl(supabaseUrl: string): string {
    supabaseUrl + "/functions/v1/mp-webhooks"
  }
}
