/** The inventory table: the name/category search, the barcode column and the
    three-way stock badge. */
module InventoryPage {
  import opened Wrappers
  import opened Records
  import opened Text
  import opened Ui
  import Listing
  import PosPage

  /** The search callback: the lower-cased term occurs in the lower-cased name or category. */
  predicate MatchesInventory(term: string, p: Product) {
    Contains(Lower(p.name), Lower(term)) || Contains(Lower(p.category), Lower(term))
  }

  function SearchInventory(products: seq<Product>, term: string): (r: seq<Product>)
    ensures forall p :: p in r <==> p in products && MatchesInventory(term, p)
    ensures |r| <= |products|
    ensures |term| == 0 ==> r == products
  {
    if |term| == 0 then
      forall i | 0 <= i < |products| ensures MatchesInventory(term, products[i]) {
        ContainsEmpty(Lower(products[i].name));
      }
      Listing.FilterKeepsAll(products, (p: Product) => MatchesInventory(term, p));
      Listing.Filter(products, (p: Product) => MatchesInventory(term, p))
    else
      Listing.Filter(products, (p: Product) => MatchesInventory(term, p))
  }

  /** Both searches find a product by its name; only this one finds it by category,
      only the point-of-sale one by barcode. */
  lemma NameMatchesAgree(term: string, p: Product)
    ensures Contains(Lower(p.name), Lower(term)) ==> MatchesInventory(term, p) && PosPage.MatchesSearch(term, p)
  {
  }

  /** The barcode cell: the barcode, or "N/A" when it is missing or empty. */
  function BarcodeCell(barcode: Option<string>): (r: string)
    ensures TruthyOpt(barcode) ==> r == barcode.value
    ensures !TruthyOpt(barcode) ==> r == "N/A"
    ensures r != ""
  {
    if TruthyOpt(barcode) then barcode.value else "N/A"
  }

  /** The table's badge: one variant per stock label. */
  function TableBadge(stock: int): (v: Variant)
    ensures v == Default <==> StockLabelOf(stock) == InStock
    ensures v == Secondary <==> StockLabelOf(stock) == LowStock
    ensures v == Destructive <==> StockLabelOf(stock) == OutOfStock
  {
    if stock > 10 then Default else if stock > 0 then Secondary else Destructive
  }

  /** The table and the point-of-sale card agree on the badge except for low stock,
      which the table shows as `secondary` and the card as `destructive`. */
  lemma TableAndCardBadges(stock: int)
    ensures TableBadge(stock) == PosPage.CardBadge(stock) <==> StockLabelOf(stock) != LowStock
  {
  }
}
