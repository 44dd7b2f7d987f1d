/** One checkout end to end: the page hands the cart and `getTotal() * 1.1` to the
    payment dialog, a handler submits them, the order route stores the order,
    and the page clears the cart when the request resolves. The request
    resolves exactly when the route answers with a success status. */
module Checkout {
  import opened Wrappers
  import opened Records
  import opened PosStore
  import opened PosPage
  import opened PaymentDialog
  import OrdersRoute
  import OrderDetailDialog

  /** Which of the dialog's three buttons was pressed. */
  datatype PayWith = PayCash | PayCard | PayDigital

  function Handler(how: PayWith, st: DialogState, cart: Cart, total: real, created: bool): Handled {
    match how
    case PayCash => HandleCash(st, cart, total, created)
    case PayCard => HandleCard(st, cart, total, created)
    case PayDigital => HandleDigital(st, cart, total, created)
  }

  /** The request body `createOrder` sends for a submission; the dialog passes no customer. */
  function RequestOf(s: Submission): OrdersRoute.OrderRequest {
    OrdersRoute.OrderRequest(s.cart, s.total, s.paymentMethod, None)
  }

  /** Whether a handler submits does not depend on how the request ends. */
  lemma SubmissionIndependentOfOutcome(how: PayWith, st: DialogState, cart: Cart, total: real, c1: bool, c2: bool)
    ensures Handler(how, st, cart, total, c1).submitted == Handler(how, st, cart, total, c2).submitted
  {
  }

  /** The page, the dialog's outcome and the tables after one button press. */
  datatype Flow = Flow(page: PageState, handled: Handled, store: OrdersRoute.Store)

  function Pay(page: PageState, dialog: DialogState, how: PayWith, store: OrdersRoute.Store, db: OrdersRoute.DbBehaviour): (r: Flow)
    ensures r.handled.submitted.None? ==> r.store == store && r.page == page
    ensures r.handled.submitted.Some? ==>
      r.handled.submitted.value.cart == page.cart && r.handled.submitted.value.total == CheckoutTotal(page.cart)
    ensures r.handled.successCalled <==>
      r.handled.submitted.Some? && !db.orderInsertFails && !db.itemsInsertFails
    ensures r.handled.successCalled ==> r.page == PageState([], false)
    ensures !r.handled.successCalled ==> r.page == page
  {
    var total := CheckoutTotal(page.cart);
    var probe := Handler(how, dialog, page.cart, total, false);
    if probe.submitted.None? then
      Flow(page, probe, store)
    else
      var out := OrdersRoute.PlaceOrder(store, RequestOf(probe.submitted.value), db);
      var h := Handler(how, dialog, page.cart, total, out.response.Ok?);
      SubmissionIndependentOfOutcome(how, dialog, page.cart, total, false, out.response.Ok?);
      Flow(if h.successCalled then PaymentSucceeded(page) else page, h, out.store)
  }

  /** Card and digital payments always submit: the cart is cleared exactly when
      both inserts succeed. */
  lemma CardOrDigitalClearsCartIffStored(page: PageState, dialog: DialogState, how: PayWith, store: OrdersRoute.Store, db: OrdersRoute.DbBehaviour)
    requires how != PayCash
    ensures Pay(page, dialog, how, store, db).page.cart == [] <==>
      page.cart == [] || (!db.orderInsertFails && !db.itemsInsertFails)
  {
  }

  /** A cash amount below the total touches neither the tables nor the page. */
  lemma InsufficientCashChangesNothing(page: PageState, dialog: DialogState, store: OrdersRoute.Store, db: OrdersRoute.DbBehaviour)
    requires dialog.cash.Entered? && dialog.cash.amount < CheckoutTotal(page.cart)
    ensures var r := Pay(page, dialog, PayCash, store, db);
      r.store == store && r.page == page && r.handled.toast == InsufficientAmount
  {
  }

  /** After a successful checkout the stored order's total is 1.1 times the cart's
      subtotal and its tax is 0.11 times it, while the page showed a tax of 0.1
      times it; the order detail dialog then shows a subtotal of 0.99 times it,
      and the stored item rows add up to the subtotal itself. */
  lemma StoredFiguresAfterCheckout(page: PageState, dialog: DialogState, how: PayWith, store: OrdersRoute.Store, db: OrdersRoute.DbBehaviour)
    requires Pay(page, dialog, how, store, db).handled.successCalled
    ensures var r := Pay(page, dialog, how, store, db);
      var o := r.store.orders[|store.orders|];
      && |r.store.orders| == |store.orders| + 1
      && o.totalAmount == 1.1 * Total(page.cart)
      && o.taxAmount == 0.11 * Total(page.cart)
      && CartSummary(page.cart).tax == 0.1 * Total(page.cart)
      && OrderDetailDialog.Subtotal(o) == 0.99 * Total(page.cart)
      && OrdersRoute.ItemsTotal(r.store.items[|store.items|..]) == Total(page.cart)
  {
    var total := CheckoutTotal(page.cart);
    var sub := Handler(how, dialog, page.cart, total, false).submitted.value;
    var req := RequestOf(sub);
    OrdersRoute.OrderRowWritten(store, req, db);
    var items := OrdersRoute.PlaceOrder(store, req, db).store.items;
    assert items == store.items + OrdersRoute.ItemsFor(db.newOrderId, page.cart);
    assert items[|store.items|..] == OrdersRoute.ItemsFor(db.newOrderId, page.cart);
    OrdersRoute.ItemsSumToCartTotal(db.newOrderId, page.cart);
  }

  /** Unless the cart is worth nothing, the tax the customer was shown is not the
      tax that is stored, and the detail dialog's subtotal is not the cart's. */
  lemma ShownAndStoredTaxDiffer(page: PageState, dialog: DialogState, how: PayWith, store: OrdersRoute.Store, db: OrdersRoute.DbBehaviour)
    requires Pay(page, dialog, how, store, db).handled.successCalled
    requires Total(page.cart) != 0.0
    ensures var o := Pay(page, dialog, how, store, db).store.orders[|store.orders|];
      && o.taxAmount != CartSummary(page.cart).tax
      && OrderDetailDialog.Subtotal(o) != CartSummary(page.cart).subtotal
  {
  }

  /** When the items insert fails the order row is kept but the cart is too, so
      paying again records a second order for the same sale. */
  lemma RetryAfterItemsFailureDuplicatesOrder(
    page: PageState, store: OrdersRoute.Store,
    db1: OrdersRoute.DbBehaviour, db2: OrdersRoute.DbBehaviour)
    requires !db1.orderInsertFails && db1.itemsInsertFails
    requires !db2.orderInsertFails && !db2.itemsInsertFails
    ensures var first := Pay(page, DialogState(Blank, false), PayCard, store, db1);
      var second := Pay(first.page, first.handled.state, PayCard, first.store, db2);
      && first.page == page
      && |first.store.orders| == |store.orders| + 1
      && first.store.items == store.items
      && second.page.cart == []
      && |second.store.orders| == |store.orders| + 2
      && second.store.orders[|store.orders|].totalAmount == second.store.orders[|store.orders| + 1].totalAmount
  {
  }
}
