/** Display vocabulary shared by the pages: badge variants and stock labels. */
module Ui {

  /** The `variant` of a badge. */
  datatype Variant = Default | Secondary | Destructive

  /** The three stock labels of the product cards and the inventory table. */
  datatype StockLabel = InStock | LowStock | OutOfStock

  /** `stock > 10 ? "In Stock" : stock > 0 ? "Low Stock" : "Out of Stock"`. */
  function StockLabelOf(stock: int): (l: StockLabel)
    ensures l == InStock <==> stock > 10
    ensures l == LowStock <==> 1 <= stock <= 10
    ensures l == OutOfStock <==> stock <= 0
  {
    if stock > 10 then InStock else if stock > 0 then LowStock else OutOfStock
  }
}
