/** `/api/customers`: the insert `POST` builds, with its fixed defaults, its
    error mapping, and the ordered `GET`. */
module CustomersRoute {
  import opened Wrappers
  import opened Records
  import Http
  import ListRoute
  import Listing

  /** The parsed request body: the three fields the handler reads, the counters and
      status a client may also send, and any other fields. */
  datatype CustomerBody = CustomerBody(
    name: string,
    email: string,
    phone: string,
    totalOrders: Option<int>,
    totalSpent: Option<real>,
    status: Option<string>,
    others: map<string, string>)

  /** The row handed to `insert`. */
  datatype InsertRow = InsertRow(
    name: string,
    email: string,
    phone: string,
    totalOrders: int,
    totalSpent: real,
    status: string)

  function InsertData(b: CustomerBody): (r: InsertRow)
    ensures r.name == b.name && r.email == b.email && r.phone == b.phone
    ensures r.totalOrders == 0 && r.totalSpent == 0.0 && r.status == "active"
  {
    InsertRow(b.name, b.email, b.phone, 0, 0.0, "active")
  }

  /** Only name, e-mail and phone come from the body: whatever counters, status or
      other fields it carries, the insert is the same. */
  lemma DefaultsOverrideBody(b: CustomerBody, c: CustomerBody)
    requires b.name == c.name && b.email == c.email && b.phone == c.phone
    ensures InsertData(b) == InsertData(c)
  {
  }

  const CreateFailure: string := "Failed to create customer"
  const FetchFailure: string := "Failed to fetch customers"

  /** `POST`: the row sent, and either the created customer or 500 with the store's message. */
  function Post(b: CustomerBody, insertError: Option<string>, created: Customer): (r: (InsertRow, Http.Response<Customer>))
    ensures r.0 == InsertData(b)
    ensures r.1.Ok? <==> insertError.None?
    ensures r.1.Ok? ==> r.1.body == created
    ensures insertError.Some? ==> r.1 == Http.Error(500, CreateFailure, Some(insertError.value))
  {
    (InsertData(b), match insertError
      case None => Http.Ok(created)
      case Some(m) => Http.Error(500, CreateFailure, Some(m)))
  }

  function CustomerName(c: Customer): string {
    c.name
  }

  /** `GET`: every customer in name order, `[]` for no data, 500 without details on failure. */
  function Get(q: Http.Query<seq<Customer>>): (r: Http.Response<seq<Customer>>)
    ensures q.Failed? ==> r == Http.Error(500, FetchFailure, None)
    ensures q.NoData? ==> r == Http.Ok([])
    ensures q.Rows? ==> r.Ok? && multiset(r.body) == multiset(q.rows) && Listing.SortedBy(r.body, CustomerName)
  {
    ListRoute.ListByName(q, CustomerName, FetchFailure)
  }
}
