/** The shape both `GET` list routes share: select every row ordered by name,
    answer `[]` when the store gives back no data, and 500 with a fixed
    message and no details when the store fails. */
module ListRoute {
  import opened Wrappers
  import Http
  import Listing

  function ListByName<T>(q: Http.Query<seq<T>>, name: T -> string, failure: string): (r: Http.Response<seq<T>>)
    ensures q.Failed? <==> r.Error?
    ensures r.Error? ==> r == Http.Error(500, failure, None)
    ensures q.NoData? ==> r == Http.Ok([])
    ensures q.Rows? ==> r.Ok? && multiset(r.body) == multiset(q.rows) && Listing.SortedBy(r.body, name)
  {
    match q
    case Rows(rows) => Http.Ok(Listing.SortBy(rows, name))
    case NoData => Http.Ok([])
    case Failed(_) => Http.Error(500, failure, None)
  }

  /** Listing the rows the store returns keeps every row and lists them in name
      order: an earlier row's name never comes after a later row's. */
  lemma ListedInNameOrder<T>(rows: seq<T>, name: T -> string, failure: string, i: int, j: int)
    requires 0 <= i <= j < |rows|
    ensures var r := ListByName(Http.Rows(rows), name, failure);
      |r.body| == |rows| && Listing.LexLessEq(name(r.body[i]), name(r.body[j]))
  {
    var r := ListByName(Http.Rows(rows), name, failure);
    assert |r.body| == |multiset(r.body)| == |multiset(rows)| == |rows|;
    Listing.SortedPairwise(r.body, name, i, j);
  }
}
