/** A seller's own dashboard (`SellerDashboard.tsx`): the seller row of the signed-in user, the
    number of active products, the order statistics and the five newest orders. */
module SellerDashboard {
  import opened Wrappers
  import opened Seqs
  import opened Tables
  import SplitDashboard

  datatype SellerStats = SellerStats(totalProducts: nat, totalOrders: nat, totalRevenue: real, pendingOrders: nat)

  /** The statistics before anything is loaded. */
  const NoStats := SellerStats(0, 0, 0.0, 0)

  /** What the dashboard shows: the cards and the recent orders list. */
  datatype View = View(stats: SellerStats, recentOrders: seq<Order>)

  /** How many orders the recent list shows. */
  const RecentCount := 5

  function OwnedBy(userId: Id): Seller -> bool {
    (s: Seller) => s.userId == userId
  }

  function ActiveOf(sellerId: Id): Product -> bool {
    (p: Product) => p.sellerId == sellerId && p.isActive
  }

  function IsPaid(o: Order): bool {
    o.status == "paid"
  }

  function IsPending(o: Order): bool {
    o.status == "pending"
  }

  /** What a paid order leaves the seller: its total less the marketplace fee (a null fee
      subtracts nothing). */
  function Net(o: Order): real {
    o.totalAmount - o.marketplaceFee.GetOr(0.0)
  }

  /** `totalRevenue`: the net of the paid orders only. */
  function Revenue(orders: seq<Order>): real {
    Sum(Filter(orders, IsPaid), Net)
  }

  /** `orders.slice(0, 5)`. */
  function Recent(orders: seq<Order>): (r: seq<Order>)
    ensures |r| == if |orders| < RecentCount then |orders| else RecentCount
    ensures r <= orders
  {
    if |orders| <= RecentCount then orders else orders[..RecentCount]
  }

  /** `fetchDashboardData`. The seller is read with `.single()`; `orders` is the reply of the
      seller's order query (absent when it returns no data), which the store sorts by
      `created_at`, newest first. Without a seller or without that reply the dashboard keeps its
      zero statistics and an empty list. */
  function Load(sellers: seq<Seller>, products: seq<Product>, userId: Id, orders: Option<seq<Order>>): (v: View)
    ensures Single(sellers, OwnedBy(userId)).None? || orders.None? ==> v == View(NoStats, [])
    ensures Single(sellers, OwnedBy(userId)).Some? && orders.Some? ==>
              && v.stats.totalOrders == |orders.value|
              && v.stats.pendingOrders == Count(orders.value, IsPending)
              && v.stats.pendingOrders <= v.stats.totalOrders
              && v.stats.totalProducts == Count(products, ActiveOf(Single(sellers, OwnedBy(userId)).value.id))
              && v.stats.totalRevenue == Revenue(orders.value)
              && v.recentOrders == Recent(orders.value)
  {
    match Single(sellers, OwnedBy(userId))
    case None => View(NoStats, [])
    case Some(seller) =>
      if orders.None? then View(NoStats, [])
      else
        var os := orders.value;
        View(SellerStats(Count(products, ActiveOf(seller.id)), |os|, Revenue(os), Count(os, IsPending)), Recent(os))
  }

  /** `.eq('seller_id', seller.id)` on the order table. */
  function OfSeller(sellerId: Id): Order -> bool {
    (o: Order) => o.sellerId == sellerId
  }

  /** When the reply holds exactly the seller's rows of the order table, in whatever order the
      store returns them, the cards count and add up those rows, and the recent list shows
      only orders of this seller. */
  lemma LoadFollowsTable(sellers: seq<Seller>, products: seq<Product>, userId: Id, table: seq<Order>, reply: seq<Order>)
    requires Single(sellers, OwnedBy(userId)).Some?
    requires multiset(reply) == multiset(Filter(table, OfSeller(Single(sellers, OwnedBy(userId)).value.id)))
    ensures var seller := Single(sellers, OwnedBy(userId)).value;
            var mine := Filter(table, OfSeller(seller.id));
            var v := Load(sellers, products, userId, Some(reply));
            && v.stats.totalOrders == |mine|
            && v.stats.pendingOrders == Count(mine, IsPending)
            && v.stats.totalRevenue == Revenue(mine)
            && forall o :: o in v.recentOrders ==> o in table && o.sellerId == seller.id
  {
    var seller := Single(sellers, OwnedBy(userId)).value;
    var mine := Filter(table, OfSeller(seller.id));
    MultisetSize(reply);
    MultisetSize(mine);
    FilterPermutation(reply, mine, IsPending);
    FilterPermutation(reply, mine, IsPaid);
    SumPermutation(Filter(reply, IsPaid), Filter(mine, IsPaid), Net);
    forall o | o in Recent(reply) ensures o in table && o.sellerId == seller.id {
      assert o in multiset(mine);
      FilterMembership(table, OfSeller(seller.id), o);
    }
  }

  /** Newest first, as the order query sorts. */
  predicate NewestFirst(orders: seq<Order>) {
    forall i, j :: 0 <= i < j < |orders| ==> orders[i].createdAt >= orders[j].createdAt
  }

  /** With the reply sorted newest first, the recent list holds the newest orders: none left
      out is newer than one shown. */
  lemma {:induction false} RecentAreNewest(orders: seq<Order>, i: nat, j: nat)
    requires NewestFirst(orders)
    requires i < |Recent(orders)| && |Recent(orders)| <= j < |orders|
    ensures Recent(orders)[i].createdAt >= orders[j].createdAt
  {
    assert Recent(orders)[i] == orders[i];
  }

  /** The revenue card adds up the seller's share of the paid orders, and so equals the seller
      amounts in the split view's approved tab when no order is stored as `approved`. */
  lemma {:induction false} RevenueIsApprovedSellerShare(orders: seq<Order>)
    requires forall i :: 0 <= i < |orders| ==> orders[i].status != "approved"
    ensures Revenue(orders) == Sum(SplitDashboard.Tab(SplitDashboard.Rows(orders), "approved"), SplitDashboard.RowSeller)
  {
    SplitDashboard.TabsFollowOrders(orders, "approved");
    SplitDashboard.FilterSame(orders, SplitDashboard.ShownAs("approved"), IsPaid);
    SellerShares(Filter(orders, IsPaid));
  }

  lemma {:induction false} SellerShares(orders: seq<Order>)
    ensures Sum(SplitDashboard.Rows(orders), SplitDashboard.RowSeller) == Sum(orders, Net)
    decreases |orders|
  {
    if orders != [] {
      SellerShares(orders[..|orders| - 1]);
      var rows := SplitDashboard.Rows(orders);
      assert rows[..|rows| - 1] == SplitDashboard.Rows(orders[..|orders| - 1]);
    }
  }

  /** Only paid orders earn: an order that is not paid changes no revenue, and a paid order
      adds its net. */
  lemma {:induction false} RevenueCountsPaidOnly(orders: seq<Order>, o: Order)
    ensures Revenue(orders + [o]) == Revenue(orders) + (if IsPaid(o) then Net(o) else 0.0)
  {
    FilterAppend(orders, [o], IsPaid);
    assert [o][..0] == [];
    SumAppend(Filter(orders, IsPaid), Filter([o], IsPaid), Net);
  }

  /** `getStatusBadge`'s label; a status outside the map reads as pending. */
  function StatusLabel(status: string): (text: string)
    ensures text in {"Pendente", "Pago", "Enviado", "Entregue", "Cancelado"}
    ensures status !in {"pending", "paid", "shipped", "delivered", "cancelled"} ==> text == "Pendente"
    ensures text == "Pendente" <==> status !in {"paid", "shipped", "delivered", "cancelled"}
  {
    match status
    case "paid" => "Pago"
    case "shipped" => "Enviado"
    case "delivered" => "Entregue"
    case "cancelled" => "Cancelado"
    case _ => "Pendente"
  }
}
