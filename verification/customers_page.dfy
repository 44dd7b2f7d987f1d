/** The customer table: the name/email/phone search, the status badge, the
    avatar letter and the shortened id. */
module CustomersPage {
  import opened Records
  import opened Text
  import opened Ui
  import Listing

  /** The search callback: name and email are compared lower-cased, the phone as typed. */
  predicate MatchesCustomer(term: string, c: Customer) {
    || Contains(Lower(c.name), Lower(term))
    || Contains(Lower(c.email), Lower(term))
    || Contains(c.phone, term)
  }

  function SearchCustomers(customers: seq<Customer>, term: string): (r: seq<Customer>)
    ensures forall c :: c in r <==> c in customers && MatchesCustomer(term, c)
    ensures |r| <= |customers|
    ensures |term| == 0 ==> r == customers
  {
    if |term| == 0 then
      forall i | 0 <= i < |customers| ensures MatchesCustomer(term, customers[i]) {
        ContainsEmpty(customers[i].phone);
      }
      Listing.FilterKeepsAll(customers, (c: Customer) => MatchesCustomer(term, c));
      Listing.Filter(customers, (c: Customer) => MatchesCustomer(term, c))
    else
      Listing.Filter(customers, (c: Customer) => MatchesCustomer(term, c))
  }

  /** Typing a term in lower case finds the same names and emails as typing it in any case. */
  lemma NameAndEmailIgnoreCase(term: string, c: Customer)
    ensures Contains(Lower(c.name), Lower(term)) || Contains(Lower(c.email), Lower(term)) ==>
      MatchesCustomer(term, c) && MatchesCustomer(Lower(term), c)
  {
    LowerIdempotent(term);
  }

  /** The status badge is `default` exactly for "active". */
  function StatusBadge(status: string): (v: Variant)
    ensures v == Default <==> status == "active"
    ensures v != Destructive
  {
    if status == "active" then Default else Secondary
  }

  /** `name.charAt(0).toUpperCase()`: empty for an empty name. */
  function AvatarLetter(name: string): (r: string)
    ensures |r| <= 1
    ensures |r| == 1 <==> |name| > 0
    ensures |r| == 1 ==> r[0] == UpperChar(name[0])
  {
    Upper(FirstChar(name))
  }

  /** `id.slice(0, 8)`: the first eight characters of the id. */
  function ShortId(id: string): (r: string)
    ensures r <= id
    ensures |r| == if |id| < 8 then |id| else 8
  {
    SliceFirst(id, 8)
  }
}
