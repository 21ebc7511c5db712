/** The marketplace's split-payment view (`SplitPaymentDashboard.tsx`): every order shown as a
    payment split between the seller and the marketplace, the statistics over all orders, and
    the approved and pending tabs. */
module SplitDashboard {
  import opened Wrappers
  import opened Seqs
  import opened Tables

  /** One row of the view. */
  datatype SplitRow = SplitRow(id: Id, orderId: Id, paymentId: string, totalAmount: real, sellerAmount: real,
                               marketplaceFee: real, status: string, processedAt: Option<int>,
                               createdAt: int, order: Order)

  /** `marketplace_fee || 0`. */
  function Fee(o: Order): real {
    o.marketplaceFee.GetOr(0.0)
  }

  /** `id.slice(0, 8)`. */
  function Prefix8(id: string): (p: string)
    ensures |p| <= 8 && p <= id
    ensures |id| >= 8 ==> |p| == 8
  {
    if |id| <= 8 then id else id[..8]
  }

  /** The processor preference id, or a placeholder made of `mp_` and the order id's first
      eight characters when the order has none. */
  function PaymentId(o: Order): (r: string)
    ensures Present(o.mpPreferenceId) ==> r == o.mpPreferenceId.value
    ensures !Present(o.mpPreferenceId) ==> r == "mp_" + Prefix8(o.id)
    ensures r != ""
  {
    if Present(o.mpPreferenceId) then o.mpPreferenceId.value else "mp_" + Prefix8(o.id)
  }

  /** The status shown for an order status: a paid order reads as approved. */
  function Shown(status: string): (s: string)
    ensures s == "approved" <==> status == "paid" || status == "approved"
    ensures status != "paid" ==> s == status
  {
    if status == "paid" then "approved" else status
  }

  /** The row of one order. */
  function RowOf(o: Order): (r: SplitRow)
    ensures r.id == o.id && r.orderId == o.id && r.order == o && r.totalAmount == o.totalAmount
    ensures r.sellerAmount + r.marketplaceFee == o.totalAmount
    ensures o.marketplaceFee.None? ==> r.marketplaceFee == 0.0 && r.sellerAmount == o.totalAmount
    ensures r.status == Shown(o.status)
    ensures r.processedAt.Some? <==> o.status == "paid"
    ensures r.processedAt.Some? ==> r.processedAt.value == o.updatedAt
  {
    SplitRow(o.id, o.id, PaymentId(o), o.totalAmount, o.totalAmount - Fee(o), Fee(o), Shown(o.status),
             if o.status == "paid" then Some(o.updatedAt) else None, o.createdAt, o)
  }

  /** `orders.map(...)`: one row per order, in the order the query returned them. */
  function Rows(orders: seq<Order>): (rows: seq<SplitRow>)
    ensures |rows| == |orders|
    decreases |orders|
  {
    if orders == [] then [] else Rows(orders[..|orders| - 1]) + [RowOf(orders[|orders| - 1])]
  }

  lemma {:induction false} RowsAt(orders: seq<Order>, i: nat)
    requires i < |orders|
    ensures Rows(orders)[i] == RowOf(orders[i])
    decreases |orders|
  {
    if i < |orders| - 1 {
      RowsAt(orders[..|orders| - 1], i);
    }
  }

  /** The statistics cards. */
  datatype Stats = Stats(totalRevenue: real, totalFees: real, totalOrders: nat, approvedPayments: nat)

  function TotalAmount(o: Order): real {
    o.totalAmount
  }

  function IsPaid(o: Order): bool {
    o.status == "paid"
  }

  /** The second query's reduction over all orders, whatever their status. */
  function StatsOf(orders: seq<Order>): (s: Stats)
    ensures s.totalOrders == |orders|
    ensures s.approvedPayments <= s.totalOrders
    ensures (forall i :: 0 <= i < |orders| ==> !IsPaid(orders[i])) ==> s.approvedPayments == 0
  {
    FilterEmpty(orders, IsPaid);
    Stats(Sum(orders, TotalAmount), Sum(orders, Fee), |orders|, Count(orders, IsPaid))
  }

  function RowSeller(r: SplitRow): real {
    r.sellerAmount
  }

  function RowFee(r: SplitRow): real {
    r.marketplaceFee
  }

  /** The two queries agree: the revenue card is what the rows pay the sellers plus what they
      leave the marketplace, and the fees card is the rows' fees. */
  lemma {:induction false} RevenueSplits(orders: seq<Order>)
    ensures StatsOf(orders).totalRevenue == Sum(Rows(orders), RowSeller) + Sum(Rows(orders), RowFee)
    ensures StatsOf(orders).totalFees == Sum(Rows(orders), RowFee)
    decreases |orders|
  {
    if orders != [] {
      RevenueSplits(orders[..|orders| - 1]);
      var rows := Rows(orders);
      assert rows[..|rows| - 1] == Rows(orders[..|orders| - 1]);
    }
  }

  function StatusIs(status: string): SplitRow -> bool {
    (r: SplitRow) => r.status == status
  }

  function ShownAs(status: string): Order -> bool {
    (o: Order) => Shown(o.status) == status
  }

  /** A tab: the rows with the tab's status. */
  function Tab(rows: seq<SplitRow>, status: string): (t: seq<SplitRow>)
    ensures forall i :: 0 <= i < |t| ==> t[i].status == status
  {
    Filter(rows, StatusIs(status))
  }

  /** A tab lists the rows of exactly the orders shown with its status, in the same order:
      the approved tab holds the paid orders together with any stored as `approved`, and the
      pending tab exactly the pending orders. */
  lemma {:induction false} TabsFollowOrders(orders: seq<Order>, status: string)
    ensures Tab(Rows(orders), status) == Rows(Filter(orders, ShownAs(status)))
    decreases |orders|
  {
    if orders != [] {
      var init, last := orders[..|orders| - 1], orders[|orders| - 1];
      TabsFollowOrders(init, status);
      var kept := Filter(init, ShownAs(status));
      assert Rows(orders) == Rows(init) + [RowOf(last)];
      FilterAppend(Rows(init), [RowOf(last)], StatusIs(status));
      assert Filter([RowOf(last)], StatusIs(status)) == if ShownAs(status)(last) then [RowOf(last)] else [] by {
        assert [RowOf(last)][..0] == [];
      }
      assert Tab(Rows(orders), status) == Rows(kept) + Filter([RowOf(last)], StatusIs(status));
      if ShownAs(status)(last) {
        assert Filter(orders, ShownAs(status)) == kept + [last];
        RowsAppend(kept, last);
      } else {
        assert Filter(orders, ShownAs(status)) == kept;
      }
    }
  }

  lemma RowsAppend(orders: seq<Order>, o: Order)
    ensures Rows(orders + [o]) == Rows(orders) + [RowOf(o)]
  {
    assert (orders + [o])[..|orders|] == orders;
  }

  /** When no order is stored with the status `approved`, the approved card counts exactly the
      rows of the approved tab. */
  lemma {:induction false} ApprovedCardMatchesTab(orders: seq<Order>)
    requires forall i :: 0 <= i < |orders| ==> orders[i].status != "approved"
    ensures StatsOf(orders).approvedPayments == |Tab(Rows(orders), "approved")|
    decreases |orders|
  {
    TabsFollowOrders(orders, "approved");
    assert Filter(orders, ShownAs("approved")) == Filter(orders, IsPaid) by {
      FilterSame(orders, ShownAs("approved"), IsPaid);
    }
  }

  lemma {:induction false} FilterSame(xs: seq<Order>, p: Order -> bool, q: Order -> bool)
    requires forall i :: 0 <= i < |xs| ==> p(xs[i]) == q(xs[i])
    ensures Filter(xs, p) == Filter(xs, q)
    decreases |xs|
  {
    if xs != [] {
      FilterSame(xs[..|xs| - 1], p, q);
    }
  }
}
