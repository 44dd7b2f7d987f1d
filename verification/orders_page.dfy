/** The order list page: payment-method colours, status badges, the search
    filter, the revenue and order-count cards, the item-count label and the
    short order id. */
module OrdersPage {
  import opened Wrappers
  import opened Records
  import opened Text
  import opened Ui
  import Listing
  import OrderDetailDialog

  /** The pill colour of a payment method. */
  datatype Color = Green | PrimaryTint | Purple | Muted

  /** `getPaymentMethodColor`: chosen on the lower-cased method, muted otherwise. */
  function PaymentColor(payment: string): (c: Color)
    ensures c == Green <==> Lower(payment) == "cash"
    ensures c == PrimaryTint <==> Lower(payment) == "card"
    ensures c == Purple <==> Lower(payment) == "digital"
  {
    var m := Lower(payment);
    if m == "cash" then Green
    else if m == "card" then PrimaryTint
    else if m == "digital" then Purple
    else Muted
  }

  /** `getStatusColor`: chosen on the lower-cased status. */
  function StatusColor(status: string): (v: Variant)
    ensures v == Default <==> Lower(status) == "completed"
    ensures v == Destructive <==> Lower(status) == "cancelled"
    ensures v == Secondary <==> Lower(status) != "completed" && Lower(status) != "cancelled"
  {
    var s := Lower(status);
    if s == "completed" then Default
    else if s == "pending" then Secondary
    else if s == "cancelled" then Destructive
    else Secondary
  }

  /** Both classifiers ignore letter case. */
  lemma ClassifiersIgnoreCase(payment: string, status: string)
    ensures PaymentColor(Lower(payment)) == PaymentColor(payment)
    ensures StatusColor(Lower(status)) == StatusColor(status)
  {
    LowerIdempotent(payment);
    LowerIdempotent(status);
  }

  /** The colour and the detail dialog's icon pick out the same three methods. */
  lemma ColorAgreesWithIcon(payment: string)
    ensures PaymentColor(payment) == Green <==> OrderDetailDialog.PaymentIcon(payment) == OrderDetailDialog.CashIcon
    ensures PaymentColor(payment) == PrimaryTint <==> OrderDetailDialog.PaymentIcon(payment) == OrderDetailDialog.CardIcon
    ensures PaymentColor(payment) == Purple <==> OrderDetailDialog.PaymentIcon(payment) == OrderDetailDialog.DigitalIcon
    ensures PaymentColor(payment) == Muted <==> OrderDetailDialog.PaymentIcon(payment) == OrderDetailDialog.MoneyBagIcon
  {
  }

  /** The list's status badge ignores case and marks cancellations; the detail
      dialog's does neither, so the same order can show two different badges. */
  lemma StatusBadgesDisagree()
    ensures StatusColor("Completed") == Default
    ensures OrderDetailDialog.StatusBadge("Completed") == Secondary
    ensures StatusColor("cancelled") == Destructive
    ensures OrderDetailDialog.StatusBadge("cancelled") == Secondary
  {
    LowerWord("Completed", "completed");
    LowerWord("cancelled", "cancelled");
  }

  /** Lower-casing a word, checked one character at a time. */
  lemma LowerWord(s: string, t: string)
    requires |s| == |t| && forall i :: 0 <= i < |s| ==> LowerChar(s[i]) == t[i]
    ensures Lower(s) == t
  {
  }

  /** The search callback: the lower-cased term occurs in the lower-cased id, payment
      method, customer name or creator name (a missing name reads as ""). */
  predicate OrderMatches(term: string, o: OrderView) {
    var t := Lower(term);
    || Contains(Lower(o.row.id), t)
    || Contains(Lower(o.row.paymentMethod), t)
    || Contains(Lower(if o.customer.Some? then o.customer.value.name else ""), t)
    || Contains(Lower(o.creatorName.GetOr("")), t)
  }

  function SearchOrders(orders: seq<OrderView>, term: string): (r: seq<OrderView>)
    ensures forall o :: o in r <==> o in orders && OrderMatches(term, o)
    ensures forall o :: o in orders && Contains(Lower(o.row.id), Lower(term)) ==> o in r
    ensures |term| == 0 ==> r == orders
  {
    if |term| == 0 then
      forall i | 0 <= i < |orders| ensures OrderMatches(term, orders[i]) {
        ContainsEmpty(Lower(orders[i].row.id));
      }
      Listing.FilterKeepsAll(orders, (o: OrderView) => OrderMatches(term, o));
      Listing.Filter(orders, (o: OrderView) => OrderMatches(term, o))
    else
      Listing.Filter(orders, (o: OrderView) => OrderMatches(term, o))
  }

  /** `orders.reduce((sum, o) => sum + o.total_amount, 0)`. */
  function Revenue(orders: seq<OrderView>): real {
    if |orders| == 0 then 0.0 else Revenue(orders[..|orders| - 1]) + orders[|orders| - 1].row.totalAmount
  }

  /** Revenue adds up over any split of the list. */
  lemma {:induction false} RevenueAppend(a: seq<OrderView>, b: seq<OrderView>)
    ensures Revenue(a + b) == Revenue(a) + Revenue(b)
    decreases |b|
  {
    if |b| == 0 {
      assert a + b == a;
    } else {
      assert (a + b)[..|a + b| - 1] == a + b[..|b| - 1];
      RevenueAppend(a, b[..|b| - 1]);
    }
  }

  /** A single order's revenue is its total; with `RevenueAppend` this makes
      `Revenue` the plain sum of `total_amount`, whatever the fold's order. */
  lemma RevenueSingleton(o: OrderView)
    ensures Revenue([o]) == o.row.totalAmount
  {
  }

  /** The two summary cards: number of orders and revenue, over all orders (not the filtered list). */
  datatype Cards = Cards(orderCount: nat, revenue: real)

  function SummaryCards(orders: seq<OrderView>): (c: Cards)
    ensures c.orderCount == |orders|
    ensures c.revenue == Revenue(orders)
    ensures (forall i :: 0 <= i < |orders| ==> orders[i].row.totalAmount >= 0.0) ==> c.revenue >= 0.0
  {
    RevenueNonNegative(orders);
    Cards(|orders|, Revenue(orders))
  }

  lemma {:induction false} RevenueNonNegative(orders: seq<OrderView>)
    ensures (forall i :: 0 <= i < |orders| ==> orders[i].row.totalAmount >= 0.0) ==> Revenue(orders) >= 0.0
  {
    if |orders| > 0 {
      RevenueNonNegative(orders[..|orders| - 1]);
    }
  }

  /** `order_items?.length ?? 0`. */
  function ItemCount(o: OrderView): (n: nat)
    ensures o.items.None? ==> n == 0
    ensures o.items.Some? ==> n == |o.items.value|
  {
    if o.items.Some? then |o.items.value| else 0
  }

  /** "item", with an "s" unless the count is exactly 1. */
  function ItemWord(count: nat): (w: string)
    ensures w == "item" <==> count == 1
    ensures w == "items" <==> count != 1
  {
    if count != 1 then "items" else "item"
  }

  /** `id.slice(-8).toUpperCase()`: the last eight characters (or the whole id), upper-cased. */
  function ShortId(id: string): (r: string)
    ensures |r| == if |id| < 8 then |id| else 8
    ensures forall i :: 0 <= i < |r| ==> r[i] == UpperChar(id[|id| - |r| + i])
  {
    var tail := SliceLast(id, 8);
    assert forall i :: 0 <= i < |tail| ==> tail[i] == id[|id| - |tail| + i];
    Upper(tail)
  }
}
