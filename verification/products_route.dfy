/** `/api/products`: the insert payload `POST` builds from the request body,
    its error mapping, and the ordered `GET`. The body's numbers are taken as
    already numeric. */
module ProductsRoute {
  import opened Wrappers
  import opened Records
  import Http
  import ListRoute
  import Listing

  /** The parsed request body: the fields the handler reads, and any others. */
  datatype ProductBody = ProductBody(
    name: Option<string>,
    price: real,
    category: Option<string>,
    stock: real,
    barcode: Field<string>,
    imageUrl: Field<string>,
    others: map<string, string>)

  /** The row handed to `insert`; the `image_url` key is either missing or a value. */
  datatype InsertRow = InsertRow(
    name: Option<string>,
    price: real,
    category: Option<string>,
    stock: real,
    barcode: Option<string>,
    imageUrl: Field<string>)

  /** The keys the insert payload carries. */
  function Keys(row: InsertRow): set<string> {
    {"name", "price", "category", "stock", "barcode"} + (if row.imageUrl.Present? then {"image_url"} else {})
  }

  /** `insertData`: name, price, category and stock copied, a falsy barcode stored as
      null, and `image_url` present only when truthy. */
  function InsertData(b: ProductBody): (r: InsertRow)
    ensures r.name == b.name && r.category == b.category && r.price == b.price && r.stock == b.stock
    ensures r.barcode == (if TruthyText(b.barcode) then Some(b.barcode.value) else None)
    ensures "image_url" in Keys(r) <==> TruthyText(b.imageUrl)
    ensures r.imageUrl.Present? ==> r.imageUrl == b.imageUrl
    ensures r.imageUrl != Null
  {
    InsertRow(b.name, b.price, b.category, b.stock,
              if TruthyText(b.barcode) then Some(b.barcode.value) else None,
              if TruthyText(b.imageUrl) then b.imageUrl else Absent)
  }

  /** No other request field, such as an id or a timestamp, reaches the payload. */
  lemma OtherFieldsDropped(b: ProductBody, others: map<string, string>)
    ensures InsertData(b.(others := others)) == InsertData(b)
    ensures "id" !in Keys(InsertData(b)) && "created_at" !in Keys(InsertData(b))
  {
  }

  const CreateFailure: string := "Failed to create product"
  const FetchFailure: string := "Failed to fetch products"

  /** `POST`: the payload sent, and either the created row or 500 with the store's message. */
  function Post(b: ProductBody, insertError: Option<string>, created: Product): (r: (InsertRow, Http.Response<Product>))
    ensures r.0 == InsertData(b)
    ensures r.1.Ok? <==> insertError.None?
    ensures r.1.Ok? ==> r.1.body == created
    ensures insertError.Some? ==> r.1 == Http.Error(500, CreateFailure, Some(insertError.value))
  {
    (InsertData(b), match insertError
      case None => Http.Ok(created)
      case Some(m) => Http.Error(500, CreateFailure, Some(m)))
  }

  function ProductName(p: Product): string {
    p.name
  }

  /** `GET`: every product in name order, `[]` for no data, 500 without details on failure. */
  function Get(q: Http.Query<seq<Product>>): (r: Http.Response<seq<Product>>)
    ensures q.Failed? ==> r == Http.Error(500, FetchFailure, None)
    ensures q.NoData? ==> r == Http.Ok([])
    ensures q.Rows? ==> r.Ok? && multiset(r.body) == multiset(q.rows) && Listing.SortedBy(r.body, ProductName)
  {
    ListRoute.ListByName(q, ProductName, FetchFailure)
  }

  /** Only a failing `POST` reports details. */
  lemma OnlyPostReportsDetails(b: ProductBody, m: string, created: Product)
    ensures Post(b, Some(m), created).1.details == Some(m)
    ensures Get(Http.Failed(m)).details == None
  {
  }
}
