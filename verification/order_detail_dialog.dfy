/** The order detail dialog: what it shows for one order from the order list —
    short id, payment icon, status badge, fallback labels, and the summary
    whose subtotal is reconstructed from the stored total and tax. */
module OrderDetailDialog {
  import opened Wrappers
  import opened Records
  import opened Text
  import opened Ui

  /** The emoji next to the payment method. */
  datatype Icon = CashIcon | CardIcon | DigitalIcon | MoneyBagIcon

  /** `getPaymentMethodIcon`: chosen on the lower-cased method, with a fallback. */
  function PaymentIcon(payment: string): (i: Icon)
    ensures i == CashIcon <==> Lower(payment) == "cash"
    ensures i == CardIcon <==> Lower(payment) == "card"
    ensures i == DigitalIcon <==> Lower(payment) == "digital"
  {
    var m := Lower(payment);
    if m == "cash" then CashIcon
    else if m == "card" then CardIcon
    else if m == "digital" then DigitalIcon
    else MoneyBagIcon
  }

  /** The summary's subtotal: `total_amount - tax_amount`. */
  function Subtotal(o: OrderRow): (r: real)
    ensures r + o.taxAmount == o.totalAmount
  {
    o.totalAmount - o.taxAmount
  }

  /** The status badge: `default` only for exactly "completed". */
  function StatusBadge(status: string): (v: Variant)
    ensures v == Default <==> status == "completed"
    ensures v != Destructive
  {
    if status == "completed" then Default else Secondary
  }

  /** An item's product name, or "Unknown Product" when missing or empty. */
  function ProductLabel(item: ItemView): (r: string)
    ensures TruthyOpt(item.productName) ==> r == item.productName.value
    ensures !TruthyOpt(item.productName) ==> r == "Unknown Product"
  {
    if TruthyOpt(item.productName) then item.productName.value else "Unknown Product"
  }

  /** "Processed By": the creator's name, or "System Admin" when missing or empty. */
  function CreatorLabel(o: OrderView): (r: string)
    ensures TruthyOpt(o.creatorName) ==> r == o.creatorName.value
    ensures !TruthyOpt(o.creatorName) ==> r == "System Admin"
  {
    if TruthyOpt(o.creatorName) then o.creatorName.value else "System Admin"
  }

  /** "Customer": the joined customer's name, or "Walk-in Customer" when there is none. */
  function CustomerLabel(o: OrderView): (r: string)
    ensures o.customer.Some? ==> r == o.customer.value.name
    ensures o.customer.None? ==> r == "Walk-in Customer"
  {
    match o.customer
    case Some(c) => c.name
    case None => "Walk-in Customer"
  }

  /** The item table's product column, one label per item in order; `None` shows "No items found". */
  function ItemLabels(items: Option<seq<ItemView>>): (r: Option<seq<string>>)
    ensures r.Some? <==> items.Some?
    ensures r.Some? ==> |r.value| == |items.value|
    ensures r.Some? ==> forall i :: 0 <= i < |r.value| ==> r.value[i] == ProductLabel(items.value[i])
  {
    match items
    case None => None
    case Some(xs) => Some(seq(|xs|, i requires 0 <= i < |xs| => ProductLabel(xs[i])))
  }

  /** Everything the dialog shows. */
  datatype Detail = Detail(
    shortId: string,
    icon: Icon,
    subtotal: real,
    tax: real,
    total: real,
    status: Variant,
    creator: string,
    customer: string,
    items: Option<seq<string>>)

  /** The dialog renders nothing without an order; otherwise the summary's three
      figures always add up, and the total and tax are the stored ones. */
  function Render(order: Option<OrderView>): (r: Option<Detail>)
    ensures r.Some? <==> order.Some?
    ensures r.Some? ==>
      && r.value.subtotal + r.value.tax == r.value.total
      && r.value.total == order.value.row.totalAmount
      && r.value.tax == order.value.row.taxAmount
      && |r.value.shortId| <= 8
  {
    match order
    case None => None
    case Some(o) =>
      Some(Detail(
        Upper(SliceLast(o.row.id, 8)),
        PaymentIcon(o.row.paymentMethod),
        Subtotal(o.row),
        o.row.taxAmount,
        o.row.totalAmount,
        StatusBadge(o.row.paymentStatus),
        CreatorLabel(o),
        CustomerLabel(o),
        ItemLabels(o.items)))
  }
}
