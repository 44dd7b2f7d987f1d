/** The point-of-sale cart: a sequence of lines keyed by product id, with
    add, remove, set-quantity, clear and total. Each operation maps the
    current cart to the next one; persistence to local storage is not modelled. */
module PosStore {
  import opened Wrappers
  import opened Records
  import Listing

  /** A cart line: the product as it was when first added, and a quantity. */
  datatype CartItem = CartItem(product: Product, quantity: int)

  type Cart = seq<CartItem>

  /** Some line of the cart carries product id `id`. */
  predicate HasId(cart: Cart, id: string) {
    exists i :: 0 <= i < |cart| && cart[i].product.id == id
  }

  predicate DistinctIds(cart: Cart) {
    forall i, j :: 0 <= i < j < |cart| ==> cart[i].product.id != cart[j].product.id
  }

  predicate PositiveQuantities(cart: Cart) {
    forall i :: 0 <= i < |cart| ==> cart[i].quantity > 0
  }

  /** The cart invariant: one line per product, each with a positive quantity. */
  predicate Valid(cart: Cart) {
    DistinctIds(cart) && PositiveQuantities(cart)
  }

  /** `cart.find(item => item.id === id)`: the first line with that id. */
  function Find(cart: Cart, id: string): (r: Option<CartItem>)
    ensures r.Some? <==> HasId(cart, id)
    ensures r.Some? ==> r.value in cart && r.value.product.id == id
  {
    if |cart| == 0 then None
    else if cart[0].product.id == id then Some(cart[0])
    else
      var r := Find(cart[1..], id);
      assert HasId(cart, id) ==> HasId(cart[1..], id) by {
        if HasId(cart, id) {
          var i :| 0 <= i < |cart| && cart[i].product.id == id;
          assert cart[1..][i - 1].product.id == id;
        }
      }
      assert HasId(cart[1..], id) ==> HasId(cart, id) by {
        if HasId(cart[1..], id) {
          var i :| 0 <= i < |cart[1..]| && cart[1..][i].product.id == id;
          assert cart[i + 1].product.id == id;
        }
      }
      r
  }

  /** The lines with id `id` get quantity `f(old quantity)` — one `cart.map` step
      shared by add (`q + 1`) and update (`q := n`). */
  function MapQuantity(cart: Cart, id: string, bump: bool, n: int): (r: Cart)
    ensures |r| == |cart|
    ensures forall i :: 0 <= i < |cart| ==>
      r[i].product == cart[i].product &&
      r[i].quantity == (if cart[i].product.id != id then cart[i].quantity
                        else if bump then cart[i].quantity + 1 else n)
  {
    if |cart| == 0 then []
    else
      var head := if cart[0].product.id != id then cart[0]
                  else cart[0].(quantity := if bump then cart[0].quantity + 1 else n);
      [head] + MapQuantity(cart[1..], id, bump, n)
  }

  /** `addToCart(product)`: increment the existing line, or append a new line with quantity 1. */
  function AddToCart(cart: Cart, p: Product): (r: Cart)
    ensures HasId(r, p.id)
    ensures forall id :: HasId(r, id) <==> HasId(cart, id) || id == p.id
    ensures |r| == if HasId(cart, p.id) then |cart| else |cart| + 1
  {
    match Find(cart, p.id)
    case Some(_) =>
      var r := MapQuantity(cart, p.id, true, 0);
      assert forall id :: HasId(r, id) <==> HasId(cart, id) by {
        forall id ensures HasId(r, id) <==> HasId(cart, id) {
          if HasId(r, id) {
            var i :| 0 <= i < |r| && r[i].product.id == id;
            assert cart[i].product.id == id;
          }
          if HasId(cart, id) {
            var i :| 0 <= i < |cart| && cart[i].product.id == id;
            assert r[i].product.id == id;
          }
        }
      }
      r
    case None =>
      var r := cart + [CartItem(p, 1)];
      assert r[|cart|].product.id == p.id;
      assert forall id :: HasId(r, id) <==> HasId(cart, id) || id == p.id by {
        forall id ensures HasId(r, id) <==> HasId(cart, id) || id == p.id {
          if HasId(r, id) {
            var i :| 0 <= i < |r| && r[i].product.id == id;
            if i < |cart| { assert cart[i].product.id == id; }
          }
          if HasId(cart, id) {
            var i :| 0 <= i < |cart| && cart[i].product.id == id;
            assert r[i].product.id == id;
          }
        }
      }
      r
  }

  /** The `filter` callback of `removeFromCart(id)`. */
  function OtherId(id: string): CartItem -> bool {
    (item: CartItem) => item.product.id != id
  }

  /** `removeFromCart(id)`: keep the lines whose id differs. */
  function RemoveFromCart(cart: Cart, id: string): (r: Cart)
    ensures !HasId(r, id)
    ensures forall x :: x in r <==> x in cart && x.product.id != id
  {
    var r := Listing.Filter(cart, OtherId(id));
    assert forall i :: 0 <= i < |r| ==> r[i].product.id != id by {
      forall i | 0 <= i < |r| ensures r[i].product.id != id {
        assert r[i] in r;
      }
    }
    r
  }

  /** `updateQuantity(id, q)`: a quantity of zero or less removes the line;
      otherwise the line with that id gets quantity `q`. */
  function UpdateQuantity(cart: Cart, id: string, q: int): (r: Cart)
    ensures q <= 0 ==> r == RemoveFromCart(cart, id) && !HasId(r, id)
    ensures q > 0 ==> |r| == |cart| && forall i :: 0 <= i < |r| ==> r[i].product == cart[i].product
    ensures q > 0 ==> forall i :: 0 <= i < |r| && r[i].product.id == id ==> r[i].quantity == q
  {
    if q <= 0 then RemoveFromCart(cart, id)
    else MapQuantity(cart, id, false, q)
  }

  /** `clearCart()`. */
  function ClearCart(): (r: Cart)
    ensures Valid(r) && Total(r) == 0.0
    ensures forall id :: !HasId(r, id)
  {
    []
  }

  /** The amount one line contributes: price times quantity. */
  function Amount(item: CartItem): real {
    item.product.price * item.quantity as real
  }

  /** `getTotal()`: the left-to-right sum of price × quantity. */
  function Total(cart: Cart): real {
    if |cart| == 0 then 0.0 else Total(cart[..|cart| - 1]) + Amount(cart[|cart| - 1])
  }

  // ---------------------------------------------------------------------------
  // The total as a sum

  lemma {:induction false} TotalAppend(a: Cart, b: Cart)
    ensures Total(a + b) == Total(a) + Total(b)
    decreases |b|
  {
    if |b| == 0 {
      assert a + b == a;
    } else {
      assert (a + b)[..|a + b| - 1] == a + b[..|b| - 1];
      TotalAppend(a, b[..|b| - 1]);
    }
  }

  /** Replacing one line changes the total by the difference of the two lines' amounts. */
  lemma TotalReplace(cart: Cart, k: int, x: CartItem)
    requires 0 <= k < |cart|
    ensures Total(cart[k := x]) == Total(cart) - Amount(cart[k]) + Amount(x)
  {
    assert cart == cart[..k] + [cart[k]] + cart[k + 1..];
    assert cart[k := x] == cart[..k] + [x] + cart[k + 1..];
    TotalAppend(cart[..k] + [cart[k]], cart[k + 1..]);
    TotalAppend(cart[..k], [cart[k]]);
    TotalAppend(cart[..k] + [x], cart[k + 1..]);
    TotalAppend(cart[..k], [x]);
    assert Total([cart[k]]) == Amount(cart[k]) by { assert [cart[k]][..0] == []; }
    assert Total([x]) == Amount(x) by { assert [x][..0] == []; }
  }

  /** Two lines {price 5, qty 2} and {price 3, qty 1} total 13. */
  lemma TotalExample(p: Product, q: Product)
    requires p.price == 5.0 && q.price == 3.0
    ensures Total([CartItem(p, 2), CartItem(q, 1)]) == 13.0
  {
    var a, b := CartItem(p, 2), CartItem(q, 1);
    assert [a, b][..1] == [a];
    assert [a][..0] == [];
    assert Total([a]) == Amount(a) == 10.0;
    assert Amount(b) == 3.0;
  }

  // ---------------------------------------------------------------------------
  // Add

  /** Adding an absent product appends exactly one line with quantity 1; the others are untouched. */
  lemma AddAbsentAppends(cart: Cart, p: Product)
    requires !HasId(cart, p.id)
    ensures AddToCart(cart, p) == cart + [CartItem(p, 1)]
    ensures Total(AddToCart(cart, p)) == Total(cart) + p.price
  {
  }

  /** Adding a product already at line `k` increments only that line, keeping its
      stored product (and so its stored price), the length and the line order. */
  lemma AddPresentIncrements(cart: Cart, p: Product, k: int)
    requires DistinctIds(cart)
    requires 0 <= k < |cart| && cart[k].product.id == p.id
    ensures AddToCart(cart, p) == cart[k := cart[k].(quantity := cart[k].quantity + 1)]
  {
  }

  /** Adding a product already at line `k` raises the total by that line's stored price. */
  lemma AddPresentTotal(cart: Cart, p: Product, k: int)
    requires DistinctIds(cart)
    requires 0 <= k < |cart| && cart[k].product.id == p.id
    ensures Total(AddToCart(cart, p)) == Total(cart) + cart[k].product.price
  {
    AddPresentIncrements(cart, p, k);
    TotalBump(cart, k);
  }

  /** Incrementing one line's quantity raises the total by that line's price. */
  lemma TotalBump(cart: Cart, k: int)
    requires 0 <= k < |cart|
    ensures Total(cart[k := cart[k].(quantity := cart[k].quantity + 1)]) == Total(cart) + cart[k].product.price
  {
    TotalReplace(cart, k, cart[k].(quantity := cart[k].quantity + 1));
    AmountBump(cart[k]);
  }

  lemma AmountBump(item: CartItem)
    ensures Amount(item.(quantity := item.quantity + 1)) == Amount(item) + item.product.price
  {
  }

  /** Adding the same product twice to the empty cart gives one line with quantity 2. */
  lemma AddTwiceToEmpty(p: Product)
    ensures AddToCart(AddToCart(ClearCart(), p), p) == [CartItem(p, 2)]
  {
  }

  lemma AddPreservesValid(cart: Cart, p: Product)
    requires Valid(cart)
    ensures Valid(AddToCart(cart, p))
  {
  }

  // ---------------------------------------------------------------------------
  // Remove and update

  /** Removing the product at line `k` drops exactly that line and keeps the others in order. */
  lemma RemovePresent(cart: Cart, k: int)
    requires DistinctIds(cart)
    requires 0 <= k < |cart|
    ensures RemoveFromCart(cart, cart[k].product.id) == cart[..k] + cart[k + 1..]
  {
    var id := cart[k].product.id;
    var left, mid, right := cart[..k], [cart[k]], cart[k + 1..];
    assert cart == left + (mid + right);
    Listing.FilterAppend(left, mid + right, OtherId(id));
    Listing.FilterAppend(mid, right, OtherId(id));
    assert forall i :: 0 <= i < |left| ==> OtherId(id)(left[i]) by {
      forall i | 0 <= i < |left| ensures OtherId(id)(left[i]) {
        assert left[i] == cart[i];
      }
    }
    assert forall i :: 0 <= i < |right| ==> OtherId(id)(right[i]) by {
      forall i | 0 <= i < |right| ensures OtherId(id)(right[i]) {
        assert right[i] == cart[k + 1 + i];
      }
    }
    Listing.FilterKeepsAll(left, OtherId(id));
    Listing.FilterKeepsAll(right, OtherId(id));
    assert mid[1..] == [];
    assert Listing.Filter(mid, OtherId(id)) == [];
  }

  /** Removing the product at line `k` lowers the total by that line's amount. */
  lemma RemovePresentTotal(cart: Cart, k: int)
    requires DistinctIds(cart)
    requires 0 <= k < |cart|
    ensures Total(RemoveFromCart(cart, cart[k].product.id)) == Total(cart) - Amount(cart[k])
  {
    RemovePresent(cart, k);
    var left, right := cart[..k], cart[k + 1..];
    assert cart == (left + [cart[k]]) + right;
    TotalAppend(left, right);
    TotalAppend(left + [cart[k]], right);
    TotalAppend(left, [cart[k]]);
    assert Total([cart[k]]) == Amount(cart[k]) by { assert [cart[k]][..0] == []; }
  }

  /** Removing an absent id leaves the cart as it was. */
  lemma RemoveAbsent(cart: Cart, id: string)
    requires !HasId(cart, id)
    ensures RemoveFromCart(cart, id) == cart
  {
    Listing.FilterKeepsAll(cart, OtherId(id));
  }

  /** Deleting one line of a valid cart leaves a valid cart. */
  lemma DropLineValid(cart: Cart, k: int)
    requires Valid(cart)
    requires 0 <= k < |cart|
    ensures Valid(cart[..k] + cart[k + 1..])
  {
  }

  lemma RemovePreservesValid(cart: Cart, id: string)
    requires Valid(cart)
    ensures Valid(RemoveFromCart(cart, id))
  {
    if HasId(cart, id) {
      var k :| 0 <= k < |cart| && cart[k].product.id == id;
      RemovePresent(cart, k);
      DropLineValid(cart, k);
    } else {
      RemoveAbsent(cart, id);
    }
  }

  /** With a positive quantity, updating the product at line `k` sets only that line's quantity. */
  lemma UpdatePresent(cart: Cart, k: int, q: int)
    requires DistinctIds(cart)
    requires 0 <= k < |cart| && q > 0
    ensures UpdateQuantity(cart, cart[k].product.id, q) == cart[k := cart[k].(quantity := q)]
  {
  }

  /** Updating an absent id, with any quantity, leaves the cart as it was. */
  lemma UpdateAbsent(cart: Cart, id: string, q: int)
    requires !HasId(cart, id)
    ensures UpdateQuantity(cart, id, q) == cart
  {
    if q <= 0 {
      RemoveAbsent(cart, id);
    } else {
      var r := UpdateQuantity(cart, id, q);
      forall i | 0 <= i < |r| ensures r[i] == cart[i] {
        assert cart[i].product.id != id;
      }
    }
  }

  lemma UpdatePreservesValid(cart: Cart, id: string, q: int)
    requires Valid(cart)
    ensures Valid(UpdateQuantity(cart, id, q))
  {
    if q <= 0 {
      RemovePreservesValid(cart, id);
    } else {
      var r := UpdateQuantity(cart, id, q);
      forall i, j | 0 <= i < j < |r| ensures r[i].product.id != r[j].product.id {
        assert r[i].product == cart[i].product && r[j].product == cart[j].product;
      }
    }
  }

  // ---------------------------------------------------------------------------
  // Every reachable cart is valid

  /** One call of the store's API. */
  datatype Op = Add(product: Product) | Remove(id: string) | Update(id: string, quantity: int) | Clear

  function Apply(cart: Cart, op: Op): Cart {
    match op
    case Add(p) => AddToCart(cart, p)
    case Remove(id) => RemoveFromCart(cart, id)
    case Update(id, q) => UpdateQuantity(cart, id, q)
    case Clear => ClearCart()
  }

  /** The cart after performing `ops` in order. */
  function Run(cart: Cart, ops: seq<Op>): Cart
    decreases |ops|
  {
    if |ops| == 0 then cart else Run(Apply(cart, ops[0]), ops[1..])
  }

  /** Starting from the empty cart, any sequence of operations keeps ids distinct and quantities positive. */
  lemma {:induction false} RunPreservesValid(cart: Cart, ops: seq<Op>)
    requires Valid(cart)
    ensures Valid(Run(cart, ops))
    decreases |ops|
  {
    if |ops| > 0 {
      match ops[0] {
        case Add(p) => AddPreservesValid(cart, p);
        case Remove(id) => RemovePreservesValid(cart, id);
        case Update(id, q) => UpdatePreservesValid(cart, id, q);
        case Clear =>
      }
      RunPreservesValid(Apply(cart, ops[0]), ops[1..]);
    }
  }

  lemma ReachableCartsAreValid(ops: seq<Op>)
    ensures Valid(Run(ClearCart(), ops))
  {
    RunPreservesValid(ClearCart(), ops);
  }
}
