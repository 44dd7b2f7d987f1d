/** `POST /api/orders`: one order row, then one bulk insert of item rows, then
    one stock overwrite per cart line, with no transaction. The store is a
    map of products plus the order and item tables; the database's choices
    (the new order's id, and which writes fail) are a parameter, so every
    partial outcome can be stated. */
module OrdersRoute {
  import opened Wrappers
  import opened Records
  import opened PosStore
  import Http

  /** The request body: the client's cart (with each product's stock as the
      client last saw it), the total, the payment method and an optional customer. */
  datatype OrderRequest = OrderRequest(
    cart: Cart,
    total: real,
    paymentMethod: string,
    customerId: Option<string>)

  /** The tables this handler touches. */
  datatype Store = Store(
    products: map<string, Product>,
    orders: seq<OrderRow>,
    items: seq<ItemRow>)

  /** What the database does: the id it assigns, whether the order insert or the
      items insert fails, and which stock updates (by cart position) fail. */
  datatype DbBehaviour = DbBehaviour(
    newOrderId: string,
    orderInsertFails: bool,
    itemsInsertFails: bool,
    failedStockWrites: set<nat>)

  datatype Outcome = Outcome(store: Store, response: Http.Response<string>)

  const FailureMessage: string := "Failed to create order"

  /** The order row the handler inserts. */
  function NewOrder(req: OrderRequest, id: string): (o: OrderRow)
    ensures o.taxAmount == o.totalAmount / 10.0
    ensures o.totalAmount == req.total && o.paymentStatus == "completed"
    ensures o.id == id && o.customerId == req.customerId && o.paymentMethod == req.paymentMethod
  {
    OrderRow(id, req.customerId, req.total, req.total * 0.1, req.paymentMethod, "completed")
  }

  /** The item rows built by `cart.map(...)`, one per line, in cart order. */
  function ItemsFor(orderId: string, cart: Cart): (r: seq<ItemRow>)
    ensures |r| == |cart|
    ensures forall k :: 0 <= k < |cart| ==>
      && r[k].orderId == orderId
      && r[k].productId == cart[k].product.id
      && r[k].quantity == cart[k].quantity
      && r[k].unitPrice == cart[k].product.price
    ensures forall k :: 0 <= k < |r| ==> r[k].totalPrice == r[k].unitPrice * r[k].quantity as real
  {
    if |cart| == 0 then []
    else
      var line := cart[0];
      [ItemRow(orderId, line.product.id, line.quantity, line.product.price,
               line.product.price * line.quantity as real)]
      + ItemsFor(orderId, cart[1..])
  }

  /** One `update({ stock: line.stock - line.quantity }).eq("id", line.id)`:
      a failed write, or an id with no row, changes nothing. */
  function WriteStock(products: map<string, Product>, line: CartItem, fails: bool): (r: map<string, Product>)
    ensures r.Keys == products.Keys
  {
    if fails || line.product.id !in products then products
    else products[line.product.id := products[line.product.id].(stock := line.product.stock - line.quantity)]
  }

  /** The stock loop after its first `n` iterations. */
  function StockLoop(products: map<string, Product>, cart: Cart, failed: set<nat>, n: nat): (r: map<string, Product>)
    requires n <= |cart|
    ensures r.Keys == products.Keys
  {
    if n == 0 then products
    else WriteStock(StockLoop(products, cart, failed, n - 1), cart[n - 1], (n - 1) in failed)
  }

  /** The whole handler. */
  function PlaceOrder(s: Store, req: OrderRequest, db: DbBehaviour): (r: Outcome)
    ensures r.response.Ok? <==> !db.orderInsertFails && !db.itemsInsertFails
    ensures r.response.Ok? ==> r.response.body == db.newOrderId
    ensures r.response.Error? ==> r.response == Http.Error(500, FailureMessage, None)
    ensures r.store.products.Keys == s.products.Keys
    ensures |r.store.orders| == |s.orders| + (if db.orderInsertFails then 0 else 1)
    ensures r.store.orders[..|s.orders|] == s.orders
    ensures |r.store.items| >= |s.items| && r.store.items[..|s.items|] == s.items
  {
    if db.orderInsertFails then
      Outcome(s, Http.Error(500, FailureMessage, None))
    else
      var order := NewOrder(req, db.newOrderId);
      var withOrder := s.(orders := s.orders + [order]);
      assert withOrder.orders[..|s.orders|] == s.orders;
      if db.itemsInsertFails then
        Outcome(withOrder, Http.Error(500, FailureMessage, None))
      else
        var withItems := withOrder.(items := s.items + ItemsFor(order.id, req.cart));
        assert withItems.items[..|s.items|] == s.items;
        var products := StockLoop(s.products, req.cart, db.failedStockWrites, |req.cart|);
        Outcome(withItems.(products := products), Http.Ok(order.id))
  }

  // ---------------------------------------------------------------------------
  // The three writes

  /** A persisted order carries the request's total, customer and method, tax of
      one tenth of the total, and status "completed". */
  lemma OrderRowWritten(s: Store, req: OrderRequest, db: DbBehaviour)
    requires !db.orderInsertFails
    ensures var o := PlaceOrder(s, req, db).store.orders[|s.orders|];
      && o.id == db.newOrderId
      && o.totalAmount == req.total
      && o.taxAmount == req.total / 10.0
      && o.paymentStatus == "completed"
      && o.customerId == req.customerId
      && o.paymentMethod == req.paymentMethod
  {
  }

  /** On success exactly one item row per cart line is appended, in cart order,
      tied to the new order; each row's total is its unit price times its quantity. */
  lemma ItemsWritten(s: Store, req: OrderRequest, db: DbBehaviour)
    requires !db.orderInsertFails && !db.itemsInsertFails
    ensures var items := PlaceOrder(s, req, db).store.items;
      && |items| == |s.items| + |req.cart|
      && forall k :: 0 <= k < |req.cart| ==>
           var it := items[|s.items| + k];
           && it.orderId == db.newOrderId
           && it.productId == req.cart[k].product.id
           && it.quantity == req.cart[k].quantity
           && it.unitPrice == req.cart[k].product.price
           && it.totalPrice == it.unitPrice * it.quantity as real
  {
  }

  /** The sum of the item rows' totals.  */
  function ItemsTotal(items: seq<ItemRow>): real {
    if |items| == 0 then 0.0 else items[0].totalPrice + ItemsTotal(items[1..])
  }

  /** The item rows add up to the cart's subtotal (`getTotal()`), not to the
      order's `total_amount`. */
  lemma {:induction false} ItemsSumToCartTotal(orderId: string, cart: Cart)
    ensures ItemsTotal(ItemsFor(orderId, cart)) == Total(cart)
  {
    if |cart| > 0 {
      ItemsSumToCartTotal(orderId, cart[1..]);
      assert cart == [cart[0]] + cart[1..];
      TotalAppend([cart[0]], cart[1..]);
      assert [cart[0]][..0] == [];
    }
  }

  // ---------------------------------------------------------------------------
  // The stock loop

  /** Some line among the first `n` carries product id `id`. */
  predicate Referenced(cart: Cart, n: nat, id: string)
    requires n <= |cart|
  {
    exists k :: 0 <= k < n && cart[k].product.id == id
  }

  /** The loop changes nothing but the `stock` column, and only of referenced products. */
  lemma {:induction false} StockLoopFrame(products: map<string, Product>, cart: Cart, failed: set<nat>, n: nat)
    requires n <= |cart|
    ensures var r := StockLoop(products, cart, failed, n);
      forall id :: id in products ==>
        && r[id] == products[id].(stock := r[id].stock)
        && (!Referenced(cart, n, id) ==> r[id] == products[id])
  {
    if n > 0 {
      StockLoopFrame(products, cart, failed, n - 1);
      var r := StockLoop(products, cart, failed, n);
      forall id | id in products
        ensures r[id] == products[id].(stock := r[id].stock)
        ensures !Referenced(cart, n, id) ==> r[id] == products[id]
      {
        if !Referenced(cart, n, id) {
          assert cart[n - 1].product.id != id;
          assert !Referenced(cart, n - 1, id);
        }
      }
    }
  }

  /** With one line per product, every referenced product whose write succeeds ends
      with the stock the client sent minus the quantity — not the stored stock
      minus the quantity, and with no check that the result is non-negative. */
  lemma {:induction false} StockLoopWrites(products: map<string, Product>, cart: Cart, failed: set<nat>, n: nat, k: nat)
    requires DistinctIds(cart)
    requires k < n <= |cart|
    requires k !in failed && cart[k].product.id in products
    ensures StockLoop(products, cart, failed, n)[cart[k].product.id].stock
         == cart[k].product.stock - cart[k].quantity
  {
    if k < n - 1 {
      StockLoopWrites(products, cart, failed, n - 1, k);
      assert cart[n - 1].product.id != cart[k].product.id;
    }
  }

  /** After a successful order, each cart product's stock is the client-sent stock minus
      the quantity (unless that one write failed); unreferenced products and every
      non-stock column are as before. */
  lemma StockAfterOrder(s: Store, req: OrderRequest, db: DbBehaviour)
    requires !db.orderInsertFails && !db.itemsInsertFails
    requires DistinctIds(req.cart)
    ensures var ps := PlaceOrder(s, req, db).store.products;
      && (forall k :: 0 <= k < |req.cart| && k !in db.failedStockWrites && req.cart[k].product.id in s.products ==>
            ps[req.cart[k].product.id].stock == req.cart[k].product.stock - req.cart[k].quantity)
      && (forall id :: id in s.products ==> ps[id] == s.products[id].(stock := ps[id].stock))
      && (forall id :: id in s.products && !HasId(req.cart, id) ==> ps[id] == s.products[id])
  {
    var n := |req.cart|;
    StockLoopFrame(s.products, req.cart, db.failedStockWrites, n);
    forall k | 0 <= k < n && k !in db.failedStockWrites && req.cart[k].product.id in s.products
      ensures StockLoop(s.products, req.cart, db.failedStockWrites, n)[req.cart[k].product.id].stock
           == req.cart[k].product.stock - req.cart[k].quantity
    {
      StockLoopWrites(s.products, req.cart, db.failedStockWrites, n, k);
    }
    forall id | id in s.products && !HasId(req.cart, id) ensures !Referenced(req.cart, n, id) {
    }
  }

  // ---------------------------------------------------------------------------
  // Failure points

  /** If the order insert fails, nothing is written and the response is 500. */
  lemma OrderInsertFailure(s: Store, req: OrderRequest, db: DbBehaviour)
    requires db.orderInsertFails
    ensures PlaceOrder(s, req, db) == Outcome(s, Http.Error(500, "Failed to create order", None))
  {
  }

  /** If the items insert fails, the order row stays persisted without items, no
      stock changes, and the response is still 500. */
  lemma ItemsInsertFailure(s: Store, req: OrderRequest, db: DbBehaviour)
    requires !db.orderInsertFails && db.itemsInsertFails
    ensures var r := PlaceOrder(s, req, db);
      && r.store.orders == s.orders + [NewOrder(req, db.newOrderId)]
      && r.store.items == s.items
      && r.store.products == s.products
      && r.response == Http.Error(500, "Failed to create order", None)
  {
  }

  /** Stock-update results are never inspected: which of them fail makes no
      difference to the response. */
  lemma StockFailuresIgnored(s: Store, req: OrderRequest, db: DbBehaviour, failed: set<nat>)
    ensures PlaceOrder(s, req, db).response
         == PlaceOrder(s, req, db.(failedStockWrites := failed)).response
    ensures !db.orderInsertFails && !db.itemsInsertFails ==>
      PlaceOrder(s, req, db).response == Http.Ok(db.newOrderId)
  {
  }

  // ---------------------------------------------------------------------------
  // Consequences of trusting the client's stock

  /** Nothing stops the stock from going negative: 1 in stock, 2 ordered, stock becomes -1. */
  lemma NegativeStockWritten(p: Product)
    requires p.stock == 1
    ensures var s := Store(map[p.id := p], [], []);
      var req := OrderRequest([CartItem(p, 2)], 2.0 * p.price, "cash", None);
      var db := DbBehaviour("o1", false, false, {});
      PlaceOrder(s, req, db).store.products[p.id].stock == -1
  {
  }

  /** Two checkouts whose carts were filled from the same product listing (stock 10):
      the second overwrites the first's decrement, so 2 + 3 sold leaves 7, not 5. */
  lemma StaleStockOverwrites(p: Product)
    requires p.stock == 10
    ensures var s0 := Store(map[p.id := p], [], []);
      var first := PlaceOrder(s0, OrderRequest([CartItem(p, 2)], 2.0 * p.price, "cash", None),
                              DbBehaviour("o1", false, false, {}));
      var second := PlaceOrder(first.store, OrderRequest([CartItem(p, 3)], 3.0 * p.price, "card", None),
                               DbBehaviour("o2", false, false, {}));
      && first.store.products[p.id].stock == 8
      && second.store.products[p.id].stock == 7
      && |second.store.orders| == 2
  {
  }
}
