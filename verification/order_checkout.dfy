/** The marketplace order checkout (`mp-create-preference`): the buyer's cart lines are checked
    against active products and their stock, the products must share one seller who holds a
    processor token, the total Σ price × quantity and the percentage marketplace fee are
    computed, a preference is submitted, and a `pending` order followed by its items is
    recorded. */
module OrderCheckout {
  import opened Wrappers
  import opened Seqs
  import opened Text
  import Base64
  import opened Tables
  import opened Processor

  /** One requested cart line: `{product_id, quantity}`. */
  datatype LineRequest = LineRequest(productId: Id, quantity: int)

  /** The JSON body: `items` and the optional `marketplace_fee_percentage`. */
  datatype Request = Request(items: Option<seq<LineRequest>>, feePercentage: Option<real>)

  const DefaultFeePercentage: real := 10.0

  /** The fee percentage, 10 when the body leaves it out. */
  function FeePercentage(req: Request): (pct: real)
    ensures req.feePercentage.None? ==> pct == DefaultFeePercentage
    ensures req.feePercentage.Some? ==> pct == req.feePercentage.value
  {
    req.feePercentage.GetOr(DefaultFeePercentage)
  }

  datatype Error =
    | Unauthorized
    | NoItems
    | BuyerNotFound
    | ProductsNotFound
    | ProductMissing(productId: Id)
    | InsufficientStock(productName: string)
    | MixedSellers
    | SellerNotConnected
    | TokenUndecodable
    | PreferenceRejected(status: int)
    | OrderInsertFailed
    | ItemsInsertFailed

  /** The `error` text of the 400 reply. */
  function Message(e: Error): string {
    match e
    case Unauthorized => "Unauthorized"
    case NoItems => "Nenhum item fornecido"
    case BuyerNotFound => "Perfil do comprador não encontrado"
    case ProductsNotFound => "Produtos não encontrados ou inativos"
    case ProductMissing(id) => "Produto " + id + " não encontrado"
    case InsufficientStock(name) => "Estoque insuficiente para " + name
    case MixedSellers => "Todos os produtos devem ser do mesmo vendedor"
    case SellerNotConnected => "Vendedor não conectado ao Mercado Pago"
    case TokenUndecodable => "Failed to decode base64"
    case PreferenceRejected(status) => "Erro ao criar preferência: " + IntToString(status)
    case OrderInsertFailed => "Erro ao criar pedido"
    case ItemsInsertFailed => "Erro ao criar itens do pedido"
  }

  /** The reply: 200 with the preference, the new order and its amounts, or 400 with an error. */
  datatype Response =
    | Placed(preferenceId: string, initPoint: string, orderId: Id, totalAmount: real, marketplaceFee: real)
    | Failed(error: Error)

  /** What the guards establish before anything is sent to the processor. */
  datatype Cart = Cart(buyer: Profile, lines: seq<LineRequest>, products: seq<Product>, sellerId: Id, accessToken: string)

  function ProductIds(lines: seq<LineRequest>): (ids: seq<Id>)
    ensures |ids| == |lines| && forall i :: 0 <= i < |lines| ==> ids[i] == lines[i].productId
  {
    seq(|lines|, i requires 0 <= i < |lines| => lines[i].productId)
  }

  predicate IsRequested(ids: seq<Id>, p: Product) {
    p.id in ids && p.isActive
  }

  /** `products.in('id', productIds).eq('is_active', true)`. */
  function ActiveProducts(products: seq<Product>, lines: seq<LineRequest>): seq<Product> {
    Filter(products, (p: Product) => IsRequested(ProductIds(lines), p))
  }

  /** `products.find(p => p.id === id)`. */
  function FindProduct(products: seq<Product>, id: Id): (r: Option<Product>)
    ensures r.Some? ==> r.value in products && r.value.id == id
    ensures r.None? ==> forall i :: 0 <= i < |products| ==> products[i].id != id
  {
    Find(products, (p: Product) => p.id == id)
  }

  /** What the stock loop objects to in one line: an unknown product, or a quantity above the
      product's stock. */
  function LineError(products: seq<Product>, line: LineRequest): (r: Option<Error>)
    ensures r.None? <==> FindProduct(products, line.productId).Some?
                         && FindProduct(products, line.productId).value.stockQuantity >= line.quantity
  {
    match FindProduct(products, line.productId)
    case None => Some(ProductMissing(line.productId))
    case Some(p) => if p.stockQuantity < line.quantity then Some(InsufficientStock(p.name)) else None
  }

  /** The error of the first line the stock loop rejects. */
  function FirstLineError(products: seq<Product>, lines: seq<LineRequest>): (r: Option<Error>)
    ensures r.None? <==> forall i :: 0 <= i < |lines| ==> LineError(products, lines[i]).None?
    ensures r.Some? ==> exists i :: 0 <= i < |lines| && r == LineError(products, lines[i])
                                     && forall j :: 0 <= j < i ==> LineError(products, lines[j]).None?
    decreases |lines|
  {
    if lines == [] then None
    else if LineError(products, lines[0]).Some? then LineError(products, lines[0])
    else
      var r := FirstLineError(products, lines[1..]);
      assert forall i :: 0 <= i < |lines| - 1 ==> lines[1..][i] == lines[i + 1];
      r
  }

  /** The stock loop at lines 72-80, leaving at the first rejected line. */
  method CheckStock(products: seq<Product>, lines: seq<LineRequest>) returns (err: Option<Error>)
    ensures err == FirstLineError(products, lines)
  {
    for i := 0 to |lines|
      invariant FirstLineError(products, lines) == FirstLineError(products, lines[i..])
    {
      assert lines[i..][1..] == lines[i + 1..];
      var product := FindProduct(products, lines[i].productId);
      if product.None? {
        return Some(ProductMissing(lines[i].productId));
      }
      if product.value.stockQuantity < lines[i].quantity {
        return Some(InsufficientStock(product.value.name));
      }
    }
    return None;
  }

  /** Stock is checked line by line, not summed per product: two lines of one product can each
      fit the stock while together they exceed it. */
  lemma StockIsCheckedPerLine()
    ensures exists products: seq<Product>, lines: seq<LineRequest> ::
              |products| == 1 && |lines| == 2 && FirstLineError(products, lines).None? &&
              lines[0].productId == lines[1].productId == products[0].id &&
              lines[0].quantity + lines[1].quantity > products[0].stockQuantity
  {
    var p := Product("p", "Pomada", None, 30.0, "cabelo", "s", 1, true, None);
    var lines := [LineRequest("p", 1), LineRequest("p", 1)];
    assert FindProduct([p], "p") == Some(p);
    assert LineError([p], lines[0]).None? && LineError([p], lines[1]).None?;
    assert FirstLineError([p], lines).None?;
  }

  /** The buyer profile: `profiles.eq('user_id', userId).single()`. */
  function BuyerOf(profiles: seq<Profile>, userId: Id): Option<Profile> {
    Single(profiles, (p: Profile) => p.userId == userId)
  }

  function SellerProducts(products: seq<Product>, sellerId: Id): seq<Product> {
    Filter(products, (p: Product) => p.sellerId == sellerId)
  }

  /** The row filter `.eq('seller_id', sellerId)`. */
  function ForSeller(sellerId: Id): TokenRow -> bool {
    (t: TokenRow) => t.sellerId == sellerId
  }

  /** The seller's token row, looked up on the `seller_id` column with `.single()`. */
  function TokenBySellerId(tokens: seq<TokenRow>, sellerId: Id): Option<TokenRow> {
    Single(tokens, ForSeller(sellerId))
  }

  /** The guards the handler runs before it contacts the processor, in their order. */
  function Validate(user: Option<AuthUser>, req: Request, profiles: seq<Profile>, products: seq<Product>,
                    tokens: seq<TokenRow>): (r: Result<Cart, Error>)
    ensures user.None? ==> r == Failure(Unauthorized)
    ensures user.Some? && (req.items.None? || req.items == Some([])) ==> r == Failure(NoItems)
    ensures r.Success? ==>
              && req.items == Some(r.value.lines) && r.value.lines != []
              && r.value.products == ActiveProducts(products, r.value.lines) && r.value.products != []
              && FirstLineError(r.value.products, r.value.lines).None?
              && r.value.sellerId == r.value.products[0].sellerId
  {
    if user.None? then Failure(Unauthorized)
    else if req.items.None? || req.items.value == [] then Failure(NoItems)
    else
      var lines := req.items.value;
      var buyer := BuyerOf(profiles, user.value.id);
      if buyer.None? then Failure(BuyerNotFound)
      else
        var found := ActiveProducts(products, lines);
        if found == [] then Failure(ProductsNotFound)
        else if FirstLineError(found, lines).Some? then Failure(FirstLineError(found, lines).value)
        else
          var sellerId := found[0].sellerId;
          if |SellerProducts(found, sellerId)| != |found| then Failure(MixedSellers)
          else
            var token := TokenBySellerId(tokens, sellerId);
            if token.None? then Failure(SellerNotConnected)
            else
              match Base64.Atob(token.value.encryptedAccessToken)
              case None => Failure(TokenUndecodable)
              case Some(accessToken) => Success(Cart(buyer.value, lines, found, sellerId, accessToken))
  }

  /** A cart that passes the guards holds only active, requested products of a single seller,
      every line names one of them within its stock, and the seller has exactly one token row
      whose decoding is the access token used. */
  lemma {:induction false} ValidCartProperties(user: Option<AuthUser>, req: Request, profiles: seq<Profile>,
                                               products: seq<Product>, tokens: seq<TokenRow>)
    requires Validate(user, req, profiles, products, tokens).Success?
    ensures var c := Validate(user, req, profiles, products, tokens).value;
            && (forall i :: 0 <= i < |c.products| ==> c.products[i] in products && c.products[i].isActive
                                                      && c.products[i].sellerId == c.sellerId)
            && (forall i :: 0 <= i < |c.lines| ==>
                  (FindProduct(c.products, c.lines[i].productId).Some? &&
                   FindProduct(c.products, c.lines[i].productId).value.stockQuantity >= c.lines[i].quantity))
            && (exists t :: t in tokens && t.sellerId == c.sellerId && Base64.Atob(t.encryptedAccessToken) == Some(c.accessToken))
  {
    var c := Validate(user, req, profiles, products, tokens).value;
    FilterKeepsAll(c.products, (p: Product) => p.sellerId == c.sellerId);
    forall i | 0 <= i < |c.products| ensures c.products[i] in products && c.products[i].isActive {
      FilterMembership(products, (p: Product) => IsRequested(ProductIds(c.lines), p), c.products[i]);
    }
    forall i | 0 <= i < |c.lines|
      ensures FindProduct(c.products, c.lines[i].productId).Some?
      ensures FindProduct(c.products, c.lines[i].productId).value.stockQuantity >= c.lines[i].quantity
    {
      assert LineError(c.products, c.lines[i]).None?;
    }
    var t := TokenBySellerId(tokens, c.sellerId).value;
    assert t in tokens;
  }

  /** What a line adds to the total: price × quantity, nothing for an unknown product. */
  function LineAmount(products: seq<Product>, line: LineRequest): real {
    match FindProduct(products, line.productId)
    case None => 0.0
    case Some(p) => p.price * line.quantity as real
  }

  /** Σ price × quantity over the lines. */
  function OrderTotal(products: seq<Product>, lines: seq<LineRequest>): real
    decreases |lines|
  {
    if lines == [] then 0.0 else OrderTotal(products, lines[..|lines| - 1]) + LineAmount(products, lines[|lines| - 1])
  }

  /** The preference item of `quantity` units of a product: its name, its description or
      nothing, and its price in reais. */
  function ItemOf(p: Product, quantity: int): (item: PreferenceItem)
    ensures item.unitPrice == p.price && item.quantity == quantity
  {
    PreferenceItem(p.name, if Present(p.description) then p.description.value else "", quantity, p.price, "BRL")
  }

  /** The preference line of one cart line: none for an unknown product, else one at the
      product's price and the line's quantity. */
  function PreferenceLine(products: seq<Product>, line: LineRequest): (items: seq<PreferenceItem>)
    ensures |items| <= 1
    ensures items == [] <==> FindProduct(products, line.productId).None?
  {
    match FindProduct(products, line.productId)
    case None => []
    case Some(p) =>
      [ItemOf(p, line.quantity)]
  }

  /** A cart line's preference line charges what the line adds to the total: price ×
      quantity of a found product, nothing for an unknown one. */
  lemma PreferenceLineCharges(products: seq<Product>, line: LineRequest)
    ensures Sum(PreferenceLine(products, line), ItemAmount) == LineAmount(products, line)
  {
    var items := PreferenceLine(products, line);
    if items != [] {
      assert items[..0] == [];
    }
  }

  function PreferenceLines(products: seq<Product>, lines: seq<LineRequest>): (items: seq<PreferenceItem>)
    decreases |lines|
  {
    if lines == [] then []
    else PreferenceLines(products, lines[..|lines| - 1]) + PreferenceLine(products, lines[|lines| - 1])
  }

  /** The preference lines charge exactly the order total. */
  lemma {:induction false} PreferenceLinesSumToTotal(products: seq<Product>, lines: seq<LineRequest>)
    ensures Sum(PreferenceLines(products, lines), ItemAmount) == OrderTotal(products, lines)
    decreases |lines|
  {
    if lines != [] {
      var init := lines[..|lines| - 1];
      PreferenceLinesSumToTotal(products, init);
      SumAppend(PreferenceLines(products, init), PreferenceLine(products, lines[|lines| - 1]), ItemAmount);
      PreferenceLineCharges(products, lines[|lines| - 1]);
    }
  }

  /** The accumulation loop at lines 105-122: a line whose product is found adds price ×
      quantity to the total and pushes one preference item, and an unknown one adds nothing. */
  method Totals(products: seq<Product>, lines: seq<LineRequest>) returns (total: real, items: seq<PreferenceItem>)
    ensures total == OrderTotal(products, lines)
    ensures items == PreferenceLines(products, lines)
  {
    total, items := 0.0, [];
    for i := 0 to |lines|
      invariant total == OrderTotal(products, lines[..i])
      invariant items == PreferenceLines(products, lines[..i])
    {
      assert lines[..i + 1][..i] == lines[..i];
      total := total + LineAmount(products, lines[i]);
      items := items + PreferenceLine(products, lines[i]);
    }
    assert lines[..|lines|] == lines;
  }

  /** `(totalAmount * marketplace_fee_percentage) / 100`. */
  function Fee(total: real, pct: real): real {
    total * pct / 100.0
  }

  function PreferenceFor(items: seq<PreferenceItem>, fee: real, supabaseUrl: string): Preference {
    Preference(items, None,
               BackUrls(supabaseUrl + "/functions/v1/mp-payment-success",
                        supabaseUrl + "/functions/v1/mp-payment-failure",
                        supabaseUrl + "/functions/v1/mp-payment-pending"),
               Some("approved"), NotificationUrl(supabaseUrl), None, [], Some(fee), None)
  }

  predicate Resolves(products: seq<Product>, lines: seq<LineRequest>) {
    forall i :: 0 <= i < |lines| ==> FindProduct(products, lines[i].productId).Some?
  }

  /** The order item of one line: its product's price, and price × quantity. */
  function OrderItemFor(orderId: Id, products: seq<Product>, line: LineRequest): (item: OrderItem)
    requires FindProduct(products, line.productId).Some?
    ensures item.totalPrice == item.unitPrice * item.quantity as real
    ensures item.totalPrice == LineAmount(products, line)
  {
    var price := FindProduct(products, line.productId).value.price;
    OrderItem(orderId, line.productId, line.quantity, price, price * line.quantity as real)
  }

  /** The `orderItems` map at lines 180-189: one row per requested line. */
  function OrderItemsFor(orderId: Id, products: seq<Product>, lines: seq<LineRequest>): (r: seq<OrderItem>)
    requires Resolves(products, lines)
    ensures |r| == |lines|
    decreases |lines|
  {
    if lines == [] then []
    else OrderItemsFor(orderId, products, lines[..|lines| - 1]) + [OrderItemFor(orderId, products, lines[|lines| - 1])]
  }

  function ItemTotal(item: OrderItem): real {
    item.totalPrice
  }

  /** Every stored item belongs to the new order and records its line's product and quantity,
      and the item totals add up to the order's `total_amount`. */
  lemma {:induction false} OrderItemsSumToTotal(orderId: Id, products: seq<Product>, lines: seq<LineRequest>)
    requires Resolves(products, lines)
    ensures Sum(OrderItemsFor(orderId, products, lines), ItemTotal) == OrderTotal(products, lines)
    ensures forall k :: 0 <= k < |lines| ==>
              var item := OrderItemsFor(orderId, products, lines)[k];
              item.orderId == orderId && item.productId == lines[k].productId && item.quantity == lines[k].quantity
    decreases |lines|
  {
    if lines != [] {
      var init, last := lines[..|lines| - 1], lines[|lines| - 1];
      assert Resolves(products, init) by {
        forall i | 0 <= i < |init| ensures FindProduct(products, init[i].productId).Some? {
          assert init[i] == lines[i];
        }
      }
      OrderItemsSumToTotal(orderId, products, init);
      var items := OrderItemsFor(orderId, products, lines);
      var initItems := OrderItemsFor(orderId, products, init);
      assert items == initItems + [OrderItemFor(orderId, products, last)];
      assert items[..|lines| - 1] == initItems;
      forall k | 0 <= k < |lines|
        ensures items[k].orderId == orderId && items[k].productId == lines[k].productId && items[k].quantity == lines[k].quantity
      {
        if k < |init| {
          assert items[k] == initItems[k] && init[k] == lines[k];
        }
      }
    }
  }

  function PendingOrder(orderId: Id, c: Cart, total: real, fee: real, preferenceId: string, now: int): Order {
    Order(orderId, c.buyer.id, c.sellerId, total, Some(fee), Some(preferenceId), "pending", now, now)
  }

  /** Everything after the guards: submit the preference, then record the order and its
      items. `reply` is the processor's answer, `orderId` the id the store gives the new order,
      and the two flags say whether the order insert and the item insert fail. */
  method Place(db: Database, c: Cart, req: Request, supabaseUrl: string, reply: PreferenceReply,
               orderId: Id, now: int, orderInsertFails: bool, itemsInsertFails: bool)
    returns (resp: Response, sent: Submission)
    requires Resolves(c.products, c.lines)
    modifies db`orders, db`orderItems
    ensures var total := OrderTotal(c.products, c.lines);
            sent == Submission(c.accessToken, PreferenceFor(PreferenceLines(c.products, c.lines),
                                                            Fee(total, FeePercentage(req)), supabaseUrl))
    ensures reply.Rejected? ==> resp == Failed(PreferenceRejected(reply.status))
    ensures reply.Created? && orderInsertFails ==> resp == Failed(OrderInsertFailed)
    ensures reply.Created? && !orderInsertFails && itemsInsertFails ==> resp == Failed(ItemsInsertFailed)
    ensures reply.Created? && !orderInsertFails && !itemsInsertFails ==> resp.Placed?
    ensures reply.Rejected? || orderInsertFails ==> db.orders == old(db.orders)
    ensures reply.Created? && !orderInsertFails ==>
              var total := OrderTotal(c.products, c.lines);
              db.orders == old(db.orders) + [PendingOrder(orderId, c, total, Fee(total, FeePercentage(req)), reply.id, now)]
    ensures !resp.Placed? ==> db.orderItems == old(db.orderItems)
    ensures resp.Placed? ==>
              var total := OrderTotal(c.products, c.lines);
              && reply.Created? && !orderInsertFails && !itemsInsertFails
              && db.orderItems == old(db.orderItems) + OrderItemsFor(orderId, c.products, c.lines)
              && resp == Placed(reply.id, reply.initPoint, orderId, total, Fee(total, FeePercentage(req)))
  {
    var total, items := Totals(c.products, c.lines);
    var fee := Fee(total, FeePercentage(req));
    sent := Submission(c.accessToken, PreferenceFor(items, fee, supabaseUrl));
    if reply.Rejected? {
      return Failed(PreferenceRejected(reply.status)), sent;
    }
    if orderInsertFails {
      return Failed(OrderInsertFailed), sent;
    }
    db.orders := db.orders + [PendingOrder(orderId, c, total, fee, reply.id, now)];
    if itemsInsertFails {
      return Failed(ItemsInsertFailed), sent;
    }
    db.orderItems := db.orderItems + OrderItemsFor(orderId, c.products, c.lines);
    resp := Placed(reply.id, reply.initPoint, orderId, total, fee);
  }

  /** The handler: the guards in their order, then `Place`. */
  method CreatePreference(db: Database, user: Option<AuthUser>, req: Request, supabaseUrl: string,
                          reply: PreferenceReply, orderId: Id, now: int,
                          orderInsertFails: bool, itemsInsertFails: bool)
    returns (resp: Response, sent: Option<Submission>)
    modifies db`orders, db`orderItems
    ensures var v := Validate(user, req, db.profiles, db.products, db.tokens);
            v.Failure? ==> resp == Failed(v.error) && sent.None?
                           && db.orders == old(db.orders) && db.orderItems == old(db.orderItems)
    ensures var v := Validate(user, req, db.profiles, db.products, db.tokens);
            v.Success? ==>
              var c := v.value;
              var total := OrderTotal(c.products, c.lines);
              var fee := Fee(total, FeePercentage(req));
              && sent == Some(Submission(c.accessToken, PreferenceFor(PreferenceLines(c.products, c.lines), fee, supabaseUrl)))
              && (reply.Rejected? ==> resp == Failed(PreferenceRejected(reply.status)))
              && (reply.Created? && orderInsertFails ==> resp == Failed(OrderInsertFailed))
              && (reply.Created? && !orderInsertFails && itemsInsertFails ==> resp == Failed(ItemsInsertFailed))
              && (reply.Created? && !orderInsertFails && !itemsInsertFails ==> resp.Placed?)
              && (reply.Rejected? || orderInsertFails ==> db.orders == old(db.orders))
              && (reply.Created? && !orderInsertFails ==>
                    db.orders == old(db.orders) + [PendingOrder(orderId, c, total, fee, reply.id, now)])
              && (!resp.Placed? ==> db.orderItems == old(db.orderItems))
              && (resp.Placed? ==>
                    && reply.Created? && !orderInsertFails && !itemsInsertFails
                    && Resolves(c.products, c.lines)
                    && db.orderItems == old(db.orderItems) + OrderItemsFor(orderId, c.products, c.lines)
                    && resp == Placed(reply.id, reply.initPoint, orderId, total, fee))
  {
    var v := Validate(user, req, db.profiles, db.products, db.tokens);
    if v.Failure? {
      return Failed(v.error), None;
    }
    var c := v.value;
    ValidCartProperties(user, req, db.profiles, db.products, db.tokens);
    var submission;
    resp, submission := Place(db, c, req, supabaseUrl, reply, orderId, now, orderInsertFails, itemsInsertFails);
    sent := Some(submission);
  }
}
