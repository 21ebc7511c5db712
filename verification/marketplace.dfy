/** The marketplace page's cart (`Marketplace.tsx`): a map from product id to quantity, kept in
    the insertion order of its keys as JavaScript objects keep them. '+' and '−' change one
    entry; the header shows the item count and the total; checkout sends the cart to the order
    checkout function and clears the cart once the call has succeeded. */
module MarketplaceCart {
  import opened Wrappers
  import opened Seqs
  import opened Tables
  import OrderCheckout

  /** One key of the cart object and its quantity. */
  datatype Entry = Entry(productId: Id, quantity: int)

  function HasProduct(id: Id): Entry -> bool {
    (e: Entry) => e.productId == id
  }

  /** Every key occurs once and holds a positive quantity. */
  predicate WellFormed(cart: seq<Entry>) {
    && (forall i, j :: 0 <= i < j < |cart| ==> cart[i].productId != cart[j].productId)
    && (forall i :: 0 <= i < |cart| ==> cart[i].quantity >= 1)
  }

  /** `cart[id] || 0`. */
  function Quantity(cart: seq<Entry>, id: Id): (q: int)
    ensures q != 0 ==> exists i :: 0 <= i < |cart| && cart[i] == Entry(id, q)
    ensures (forall i :: 0 <= i < |cart| ==> cart[i].productId != id) ==> q == 0
  {
    match FindIndex(cart, HasProduct(id))
    case None => 0
    case Some(i) => cart[i].quantity
  }

  /** `addToCart`: `{...prev, [id]: (prev[id] || 0) + 1}`; an existing key keeps its place. */
  function Added(cart: seq<Entry>, id: Id): seq<Entry> {
    match FindIndex(cart, HasProduct(id))
    case None => cart + [Entry(id, 1)]
    case Some(i) => cart[i := Entry(id, cart[i].quantity + 1)]
  }

  /** `removeFromCart`: decrement above 1, otherwise `delete` (a no-op for an absent key). */
  function Removed(cart: seq<Entry>, id: Id): seq<Entry> {
    match FindIndex(cart, HasProduct(id))
    case None => cart
    case Some(i) =>
      if cart[i].quantity > 1 then cart[i := Entry(id, cart[i].quantity - 1)]
      else cart[..i] + cart[i + 1..]
  }

  /** Adding raises the product's quantity by one, treating an absent key as 0, and leaves
      every other quantity and the well-formedness of the cart as they were. */
  lemma {:induction false} AddedQuantities(cart: seq<Entry>, id: Id, other: Id)
    requires WellFormed(cart)
    ensures WellFormed(Added(cart, id))
    ensures Quantity(Added(cart, id), id) == Quantity(cart, id) + 1
    ensures other != id ==> Quantity(Added(cart, id), other) == Quantity(cart, other)
  {
    var after := Added(cart, id);
    match FindIndex(cart, HasProduct(id))
    case None =>
      FindIndexIs(after, HasProduct(id), |cart|);
      if other != id {
        match FindIndex(cart, HasProduct(other))
        case None =>
        case Some(k) => FindIndexIs(after, HasProduct(other), k);
      }
    case Some(i) =>
      FindIndexIs(after, HasProduct(id), i);
      if other != id {
        match FindIndex(cart, HasProduct(other))
        case None =>
        case Some(k) => FindIndexIs(after, HasProduct(other), k);
      }
  }

  /** Deleting a key shifts the later entries down by one and keeps the cart well formed. */
  lemma {:induction false} DeleteAt(cart: seq<Entry>, i: nat)
    requires WellFormed(cart) && i < |cart|
    ensures var after := cart[..i] + cart[i + 1..];
            && |after| == |cart| - 1
            && (forall j :: 0 <= j < |after| ==> after[j] == cart[if j < i then j else j + 1])
            && WellFormed(after)
  {
    var after := cart[..i] + cart[i + 1..];
    forall j | 0 <= j < |after| ensures after[j] == cart[if j < i then j else j + 1] {
    }
    forall a, b | 0 <= a < b < |after| ensures after[a].productId != after[b].productId {
      assert after[a] == cart[if a < i then a else a + 1];
      assert after[b] == cart[if b < i then b else b + 1];
    }
  }

  /** Removing lowers a quantity above 1 by one and drops a key at 1; other keys keep their
      quantities and the cart stays well formed, so no quantity ever falls below 1. */
  lemma {:induction false} RemovedQuantities(cart: seq<Entry>, id: Id, other: Id)
    requires WellFormed(cart)
    ensures WellFormed(Removed(cart, id))
    ensures Quantity(Removed(cart, id), id) == if Quantity(cart, id) > 1 then Quantity(cart, id) - 1 else 0
    ensures other != id ==> Quantity(Removed(cart, id), other) == Quantity(cart, other)
  {
    var after := Removed(cart, id);
    match FindIndex(cart, HasProduct(id))
    case None =>
    case Some(i) =>
      if cart[i].quantity > 1 {
        FindIndexIs(after, HasProduct(id), i);
        if other != id {
          match FindIndex(cart, HasProduct(other))
          case None =>
          case Some(k) => FindIndexIs(after, HasProduct(other), k);
        }
      } else {
        RemovedDeletes(cart, id, other, i);
      }
  }

  /** The deleting branch of `RemovedQuantities`. */
  lemma {:induction false} RemovedDeletes(cart: seq<Entry>, id: Id, other: Id, i: nat)
    requires WellFormed(cart) && FindIndex(cart, HasProduct(id)) == Some(i) && cart[i].quantity <= 1
    ensures WellFormed(Removed(cart, id))
    ensures Quantity(Removed(cart, id), id) == 0
    ensures other != id ==> Quantity(Removed(cart, id), other) == Quantity(cart, other)
  {
    var after := cart[..i] + cart[i + 1..];
    assert Removed(cart, id) == after;
    DeleteAt(cart, i);
    assert Quantity(after, id) == 0 by {
      forall j | 0 <= j < |after| ensures after[j].productId != id {
        assert after[j] == cart[if j < i then j else j + 1];
      }
    }
    if other != id {
      DeleteKeepsOthers(cart, i, other);
    }
  }

  /** Deleting one key leaves the quantity of every other key. */
  lemma {:induction false} DeleteKeepsOthers(cart: seq<Entry>, i: nat, other: Id)
    requires WellFormed(cart) && i < |cart| && cart[i].productId != other
    ensures Quantity(cart[..i] + cart[i + 1..], other) == Quantity(cart, other)
  {
    var after := cart[..i] + cart[i + 1..];
    DeleteAt(cart, i);
    match FindIndex(cart, HasProduct(other))
    case None =>
      forall j | 0 <= j < |after| ensures after[j].productId != other {
        assert after[j] == cart[if j < i then j else j + 1];
      }
    case Some(k) =>
      if k < i {
        FindIndexIs(after, HasProduct(other), k);
      } else {
        assert after[k - 1] == cart[k];
        forall j | 0 <= j < k - 1 ensures !HasProduct(other)(after[j]) {
          assert after[j] == cart[if j < i then j else j + 1];
        }
        FindIndexIs(after, HasProduct(other), k - 1);
      }
  }

  /** `addToCart(id)` followed by `removeFromCart(id)` gives back the cart, key order included. */
  lemma {:induction false} RemoveUndoesAdd(cart: seq<Entry>, id: Id)
    requires WellFormed(cart)
    ensures Removed(Added(cart, id), id) == cart
  {
    var after := Added(cart, id);
    match FindIndex(cart, HasProduct(id))
    case None =>
      FindIndexIs(after, HasProduct(id), |cart|);
      assert after[..|cart|] + after[|cart| + 1..] == cart;
    case Some(i) =>
      FindIndexIs(after, HasProduct(id), i);
      assert after[i := Entry(id, cart[i].quantity)] == cart;
  }

  /** An entry's contribution when each unit of a product weighs `w(id)`. */
  function Weighted(w: Id -> real): Entry -> real {
    (e: Entry) => w(e.productId) * e.quantity as real
  }

  /** `product?.price || 0`: the price of a listed product, 0 for an id not among them. */
  function PriceOf(products: seq<Product>, id: Id): (price: real)
    ensures (forall i :: 0 <= i < |products| ==> products[i].id != id) ==> price == 0.0
    ensures (exists i :: 0 <= i < |products| && products[i].id == id) ==>
              exists i :: 0 <= i < |products| && products[i].id == id && products[i].price == price
  {
    match Find(products, (p: Product) => p.id == id)
    case None => 0.0
    case Some(p) => p.price
  }

  function Price(products: seq<Product>): Id -> real {
    (id: Id) => PriceOf(products, id)
  }

  function Unit(): Id -> real {
    (id: Id) => 1.0
  }

  /** `getCartTotal`: Σ price × quantity over the entries. */
  function CartTotal(cart: seq<Entry>, products: seq<Product>): real {
    Sum(cart, Weighted(Price(products)))
  }

  /** The header's item count: Σ quantity. */
  function ItemCount(cart: seq<Entry>): real {
    Sum(cart, Weighted(Unit()))
  }

  /** Adding one unit of a product raises any weighted sum by that product's weight. */
  lemma {:induction false} AddedSum(cart: seq<Entry>, id: Id, w: Id -> real)
    ensures Sum(Added(cart, id), Weighted(w)) == Sum(cart, Weighted(w)) + w(id)
  {
    var f := Weighted(w);
    match FindIndex(cart, HasProduct(id))
    case None =>
      SumAppend(cart, [Entry(id, 1)], f);
      assert Sum([Entry(id, 1)], f) == f(Entry(id, 1)) by {
        assert [Entry(id, 1)][..0] == [];
      }
    case Some(i) =>
      var q := cart[i].quantity;
      assert cart[i] == Entry(id, q);
      SumUpdate(cart, f, i, Entry(id, q + 1));
      WeightStep(w, id, q);
  }

  /** One more unit adds one weight. */
  lemma UnitStep(weight: real, q: int)
    ensures weight * (q + 1) as real == weight * q as real + weight
  {
  }

  /** Removing one unit of a product in the cart lowers any weighted sum by its weight; removing
      an absent product changes nothing. */
  lemma {:induction false} RemovedSum(cart: seq<Entry>, id: Id, w: Id -> real)
    requires WellFormed(cart)
    ensures Sum(Removed(cart, id), Weighted(w)) == Sum(cart, Weighted(w)) - if Quantity(cart, id) > 0 then w(id) else 0.0
  {
    match FindIndex(cart, HasProduct(id))
    case None =>
    case Some(i) =>
      if cart[i].quantity > 1 {
        DecrementSum(cart, id, w, i);
      } else {
        DeleteSum(cart, id, w, i);
      }
  }

  /** The decrementing branch of `RemovedSum`. */
  lemma DecrementSum(cart: seq<Entry>, id: Id, w: Id -> real, i: nat)
    requires FindIndex(cart, HasProduct(id)) == Some(i) && cart[i].quantity > 1
    ensures Quantity(cart, id) > 0
    ensures Sum(Removed(cart, id), Weighted(w)) == Sum(cart, Weighted(w)) - w(id)
  {
    var q := cart[i].quantity;
    assert cart[i] == Entry(id, q);
    assert Removed(cart, id) == cart[i := Entry(id, q - 1)];
    SumUpdate(cart, Weighted(w), i, Entry(id, q - 1));
    WeightStep(w, id, q - 1);
  }

  /** One unit more of a product weighs that product's weight more. */
  lemma WeightStep(w: Id -> real, id: Id, q: int)
    ensures Weighted(w)(Entry(id, q + 1)) == Weighted(w)(Entry(id, q)) + w(id)
  {
    UnitStep(w(id), q);
  }

  /** The deleting branch of `RemovedSum`. */
  lemma DeleteSum(cart: seq<Entry>, id: Id, w: Id -> real, i: nat)
    requires WellFormed(cart)
    requires FindIndex(cart, HasProduct(id)) == Some(i) && cart[i].quantity <= 1
    ensures Quantity(cart, id) > 0
    ensures Sum(Removed(cart, id), Weighted(w)) == Sum(cart, Weighted(w)) - w(id)
  {
    assert cart[i] == Entry(id, 1);
    SumRemove(cart, Weighted(w), i);
  }

  /** The header's figures follow the buttons: '+' adds the product's price and one item, '−'
      on a product in the cart takes them away again. */
  lemma {:induction false} TotalsFollowButtons(cart: seq<Entry>, products: seq<Product>, id: Id)
    requires WellFormed(cart)
    ensures CartTotal(Added(cart, id), products) == CartTotal(cart, products) + PriceOf(products, id)
    ensures ItemCount(Added(cart, id)) == ItemCount(cart) + 1.0
    ensures Quantity(cart, id) > 0 ==>
              && CartTotal(Removed(cart, id), products) == CartTotal(cart, products) - PriceOf(products, id)
              && ItemCount(Removed(cart, id)) == ItemCount(cart) - 1.0
  {
    AddedSum(cart, id, Price(products));
    AddedSum(cart, id, Unit());
    RemovedSum(cart, id, Price(products));
    RemovedSum(cart, id, Unit());
  }

  /** The listing query: active products with stock above zero. */
  function Listed(store: seq<Product>): (r: seq<Product>)
    ensures forall p :: p in r <==> p in store && p.isActive && p.stockQuantity > 0
  {
    var keep := (p: Product) => p.isActive && p.stockQuantity > 0;
    assert forall p :: p in Filter(store, keep) <==> p in store && keep(p) by {
      forall p ensures p in Filter(store, keep) <==> p in store && keep(p) {
        FilterMembership(store, keep, p);
      }
    }
    Filter(store, keep)
  }

  /** Whether the product's '+' button is enabled: `cart[id] >= stock` disables it for a
      product in the cart, `stock === 0` for one not yet in it. */
  predicate PlusEnabled(cart: seq<Entry>, p: Product) {
    if Quantity(cart, p.id) != 0 then Quantity(cart, p.id) < p.stockQuantity else p.stockQuantity != 0
  }

  /** Clicking only enabled '+' buttons never takes a quantity past the stock. */
  lemma {:induction false} PlusKeepsWithinStock(cart: seq<Entry>, p: Product)
    requires WellFormed(cart) && 0 <= Quantity(cart, p.id) <= p.stockQuantity
    requires PlusEnabled(cart, p)
    ensures Quantity(Added(cart, p.id), p.id) <= p.stockQuantity
  {
    AddedQuantities(cart, p.id, p.id);
  }

  /** The body of the checkout call: one `{product_id, quantity}` per entry, fee 10 %. */
  function CheckoutRequest(cart: seq<Entry>): (r: OrderCheckout.Request)
    ensures r.items.Some? && |r.items.value| == |cart|
    ensures forall i :: 0 <= i < |cart| ==> r.items.value[i] == OrderCheckout.LineRequest(cart[i].productId, cart[i].quantity)
    ensures OrderCheckout.FeePercentage(r) == 10.0
  {
    OrderCheckout.Request(Some(seq(|cart|, i requires 0 <= i < |cart| => OrderCheckout.LineRequest(cart[i].productId, cart[i].quantity))),
                          Some(10.0))
  }

  /** What the function call returns: the order's `init_point`, or an error. */
  datatype InvokeReply = Invoked(initPoint: string) | InvokeFailed(message: string)

  /** The component's state: the listed products and the cart. */
  class Marketplace {
    var products: seq<Product>
    var cart: seq<Entry>

    constructor ()
      ensures products == [] && cart == []
    {
      products, cart := [], [];
    }

    /** `fetchProducts`: the listing on success; a failed query keeps the previous list. */
    method FetchProducts(store: seq<Product>, fails: bool)
      modifies this`products
      ensures products == if fails then old(products) else Listed(store)
    {
      if !fails {
        products := Listed(store);
      }
    }

    method AddToCart(id: Id)
      modifies this`cart
      ensures cart == Added(old(cart), id)
      ensures WellFormed(old(cart)) ==> WellFormed(cart) && Quantity(cart, id) == Quantity(old(cart), id) + 1
    {
      if WellFormed(cart) {
        AddedQuantities(cart, id, id);
      }
      cart := Added(cart, id);
    }

    method RemoveFromCart(id: Id)
      modifies this`cart
      ensures cart == Removed(old(cart), id)
      ensures WellFormed(old(cart)) ==> WellFormed(cart)
    {
      if WellFormed(cart) {
        RemovedQuantities(cart, id, id);
      }
      cart := Removed(cart, id);
    }

    /** `processCheckout`. Without a user or with an empty cart nothing is sent; otherwise the
        cart is sent, and it is cleared and the payment page redirect only when the call
        succeeds. */
    method ProcessCheckout(signedIn: bool, reply: InvokeReply)
      returns (sent: Option<OrderCheckout.Request>, redirect: Option<string>)
      modifies this`cart
      ensures !signedIn || old(cart) == [] ==> sent.None? && redirect.None? && cart == old(cart)
      ensures signedIn && old(cart) != [] ==> sent == Some(CheckoutRequest(old(cart)))
      ensures sent.Some? && reply.Invoked? ==> cart == [] && redirect == Some(reply.initPoint)
      ensures reply.InvokeFailed? ==> cart == old(cart) && redirect.None?
    {
      if !signedIn || |cart| == 0 {
        return None, None;
      }
      sent := Some(CheckoutRequest(cart));
      if reply.InvokeFailed? {
        return sent, None;
      }
      redirect := Some(reply.initPoint);
      cart := [];
    }
  }

  /** What checkout sends always gets past the order checkout's item guard and asks for the
      default fee. */
  lemma {:induction false} CheckoutRequestHasItems(cart: seq<Entry>)
    requires cart != []
    ensures CheckoutRequest(cart).items.value != []
    ensures OrderCheckout.FeePercentage(CheckoutRequest(cart)) == OrderCheckout.DefaultFeePercentage
  {
  }
}
