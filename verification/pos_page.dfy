/** The point-of-sale page: product search, the product card's stock badge and
    add button, the cart's minus/plus buttons, the subtotal/tax/total summary,
    the total handed to the payment dialog, and what a successful payment does. */
module PosPage {
  import opened Wrappers
  import opened Records
  import opened Text
  import opened Ui
  import opened PosStore
  import Listing

  // ---------------------------------------------------------------------------
  // Product search

  /** The search callback: the lower-cased name contains the lower-cased term, or
      the barcode (when there is one) contains the term as typed. */
  predicate MatchesSearch(term: string, p: Product) {
    Contains(Lower(p.name), Lower(term)) || (p.barcode.Some? && Contains(p.barcode.value, term))
  }

  function SearchProducts(products: seq<Product>, term: string): (r: seq<Product>)
    ensures forall p :: p in r <==> p in products && MatchesSearch(term, p)
    ensures forall p :: p in products && p.barcode.Some? && Contains(p.barcode.value, term) ==> p in r
    ensures forall p :: p in products && p.barcode.None? ==>
      (p in r <==> Contains(Lower(p.name), Lower(term)))
    ensures forall p :: p in products && Contains(Lower(p.name), Lower(term)) ==> p in r
    ensures |term| == 0 ==> r == products
  {
    if |term| == 0 then
      forall i | 0 <= i < |products| ensures MatchesSearch(term, products[i]) {
        ContainsEmpty(Lower(products[i].name));
      }
      Listing.FilterKeepsAll(products, (p: Product) => MatchesSearch(term, p));
      Listing.Filter(products, (p: Product) => MatchesSearch(term, p))
    else
      Listing.Filter(products, (p: Product) => MatchesSearch(term, p))
  }

  /** The barcode is matched case-sensitively while the name is not: a term that
      differs from a barcode only in letter case finds nothing through the barcode. */
  lemma BarcodeMatchIsCaseSensitive(p: Product)
    requires p.name == "Tea" && p.barcode == Some("ab1")
    ensures MatchesSearch("ab1", p)
    ensures !MatchesSearch("AB1", p)
  {
  }

  // ---------------------------------------------------------------------------
  // Product card

  /** The card badge is `default` only above 10 in stock, otherwise `destructive`. */
  function CardBadge(stock: int): (v: Variant)
    ensures v == Default <==> StockLabelOf(stock) == InStock
    ensures v != Secondary
  {
    if stock > 10 then Default else Destructive
  }

  /** "Add to Cart" is disabled when the stock is exactly zero. */
  function AddDisabled(p: Product): (r: bool)
    ensures r ==> StockLabelOf(p.stock) == OutOfStock
    ensures StockLabelOf(p.stock) == OutOfStock && p.stock >= 0 ==> r
  {
    p.stock == 0
  }

  /** A product with negative stock is labelled "Out of Stock" yet can still be added. */
  lemma NegativeStockStillAddable(p: Product)
    requires p.stock < 0
    ensures StockLabelOf(p.stock) == OutOfStock && !AddDisabled(p)
  {
  }

  // ---------------------------------------------------------------------------
  // Cart buttons

  /** The minus button: `updateQuantity(id, quantity - 1)`. */
  function MinusClicked(cart: Cart, item: CartItem): Cart {
    UpdateQuantity(cart, item.product.id, item.quantity - 1)
  }

  /** The plus button: `updateQuantity(id, quantity + 1)`, with no cap at the stock. */
  function PlusClicked(cart: Cart, item: CartItem): Cart {
    UpdateQuantity(cart, item.product.id, item.quantity + 1)
  }

  /** Minus on a line of quantity 1 removes the line; on a larger quantity it decrements it. */
  lemma MinusOnLine(cart: Cart, k: int)
    requires DistinctIds(cart)
    requires 0 <= k < |cart| && cart[k].quantity >= 1
    ensures cart[k].quantity == 1 ==> MinusClicked(cart, cart[k]) == cart[..k] + cart[k + 1..]
    ensures cart[k].quantity > 1 ==>
      MinusClicked(cart, cart[k]) == cart[k := cart[k].(quantity := cart[k].quantity - 1)]
  {
    if cart[k].quantity == 1 {
      RemovePresent(cart, k);
    } else {
      UpdatePresent(cart, k, cart[k].quantity - 1);
    }
  }

  /** Plus raises the quantity by one even beyond the product's stock. */
  lemma PlusIgnoresStock(cart: Cart, k: int)
    requires DistinctIds(cart)
    requires 0 <= k < |cart| && cart[k].quantity >= cart[k].product.stock && cart[k].quantity >= 0
    ensures PlusClicked(cart, cart[k])[k].quantity == cart[k].quantity + 1
    ensures PlusClicked(cart, cart[k])[k].quantity > cart[k].product.stock
  {
  }

  // ---------------------------------------------------------------------------
  // Summary and checkout

  /** The three figures under the cart. */
  datatype Summary = Summary(subtotal: real, tax: real, total: real)

  /** Subtotal is `getTotal()`, tax is `getTotal() * 0.1`, total is `getTotal() * 1.1`. */
  function CartSummary(cart: Cart): (s: Summary)
    ensures s.subtotal == Total(cart)
    ensures s.tax == s.subtotal / 10.0
    ensures s.subtotal + s.tax == s.total
  {
    Summary(Total(cart), Total(cart) * 0.1, Total(cart) * 1.1)
  }

  /** The `total` prop handed to the payment dialog: `getTotal() * 1.1`. */
  function CheckoutTotal(cart: Cart): (t: real)
    ensures t == CartSummary(cart).total
  {
    Total(cart) * 1.1
  }

  /** The page's own state: the cart and whether the payment dialog is open. */
  datatype PageState = PageState(cart: Cart, paymentOpen: bool)

  /** The summary and the Pay button appear only for a non-empty cart. */
  function PayButtonShown(st: PageState): (r: bool)
    ensures r <==> st.cart != []
  {
    |st.cart| > 0
  }

  /** Pay opens the dialog and leaves the cart alone. */
  function PayClicked(st: PageState): (r: PageState)
    ensures r.paymentOpen && r.cart == st.cart
  {
    st.(paymentOpen := true)
  }

  /** The dialog's `onSuccess`: clear the cart and close the dialog. */
  function PaymentSucceeded(st: PageState): (r: PageState)
    ensures r.cart == [] && !r.paymentOpen
    ensures CartSummary(r.cart).total == 0.0
  {
    PageState(ClearCart(), false)
  }
}
