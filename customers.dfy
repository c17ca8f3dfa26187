/**
 * The Customers list view (src/components/Customers.tsx): the seed
 * customers, the search / subsidiary filter, and the Active and Total
 * Orders figures.
 */
module Customers {
  import opened Base
  import opened Text
  import opened Access

  datatype CustomerStatus = Active | Inactive

  datatype Customer = Customer(
    id: int,
    name: string,
    email: string,
    phone: string,
    address: string,
    subsidiaryId: int,
    totalOrders: int,
    totalValue: int,
    status: CustomerStatus)

  function MockCustomers(): seq<Customer>
  {
    [ Customer(1, "Mwalimu John Kasonga", "john.kasonga@gmail.com", "+255712345678",
        "Mwanza, Tanzania", 1, 12, 2400000, Active),
      Customer(2, "Mama Grace Mwangi", "grace.mwangi@yahoo.com", "+255723456789",
        "Dar es Salaam, Tanzania", 2, 8, 1800000, Active),
      Customer(3, "Bwana Ahmed Hassan", "ahmed.hassan@hotmail.com", "+255734567890",
        "Arusha, Tanzania", 3, 15, 3200000, Active),
      Customer(4, "Dada Sarah Mbogo", "sarah.mbogo@gmail.com", "+255745678901",
        "Dodoma, Tanzania", 4, 6, 950000, Inactive) ]
  }

  /** Name or email contains the term ignoring case, or the phone contains the term as typed. */
  predicate MatchesSearch(c: Customer, term: string)
  {
    Contains(Lower(c.name), Lower(term)) || Contains(Lower(c.email), Lower(term)) || Contains(c.phone, term)
  }

  /** The predicate of `filteredCustomers`: there is no status filter in this view. */
  predicate Listed(c: Customer, current: Option<User>, term: string, scope: Scope)
  {
    MatchesSearch(c, term) && InViewScope(current, scope, c.subsidiaryId)
  }

  /** `filteredCustomers`. */
  function FilteredCustomers(customers: seq<Customer>, current: Option<User>, term: string, scope: Scope): seq<Customer>
  {
    Filter(c => Listed(c, current, term, scope), customers)
  }

  /** A customer is listed iff it matches the search and the scope rule. */
  lemma ListedIff(customers: seq<Customer>, current: Option<User>, term: string, scope: Scope, c: Customer)
    ensures c in FilteredCustomers(customers, current, term, scope) <==>
      c in customers && MatchesSearch(c, term) && ViewRule(RoleOf(current), HomeOf(current), scope, c.subsidiaryId)
  {
    FilterMembership(c => Listed(c, current, term, scope), customers, c);
  }

  lemma FilteredIsSubsequence(customers: seq<Customer>, current: Option<User>, term: string, scope: Scope)
    ensures IsSubsequence(FilteredCustomers(customers, current, term, scope), customers)
  {
    FilterIsSubsequence(c => Listed(c, current, term, scope), customers);
  }

  /**
   * The phone is matched against the term exactly as typed: a phone that
   * contains the term matches whatever the name and email are, while an
   * upper-case term can match name or email only through lower-casing.
   */
  lemma PhoneMatchIsRaw(c: Customer, term: string)
    requires Contains(c.phone, term)
    ensures MatchesSearch(c, term)
  {
  }

  /**
   * Name and email matching ignores the case of the term: two terms that
   * differ only in case match a customer the same way unless the phone
   * decides, and an all-lower-case term is matched as typed.
   */
  lemma NameEmailIgnoreCase(c: Customer, t1: string, t2: string)
    requires Lower(t1) == Lower(t2)
    requires !Contains(c.phone, t1) && !Contains(c.phone, t2)
    ensures MatchesSearch(c, t1) == MatchesSearch(c, t2)
    ensures MatchesSearch(c, Lower(t1)) == (MatchesSearch(c, t1) || Contains(c.phone, Lower(t1)))
  {
    LowerIdempotent(t1);
  }

  /** A non-Owner sees only customers of their own subsidiary, whatever scope is selected. */
  lemma NonOwnerIgnoresScope(customers: seq<Customer>, current: Option<User>, term: string, s1: Scope, s2: Scope)
    requires RoleOf(current) != Some(Owner)
    ensures FilteredCustomers(customers, current, term, s1) == FilteredCustomers(customers, current, term, s2)
    ensures forall c :: c in FilteredCustomers(customers, current, term, s1) ==> HomeOf(current) == Some(c.subsidiaryId)
  {
    FilterCongruent(c => Listed(c, current, term, s1), c => Listed(c, current, term, s2), customers);
  }

  /** An Owner with "all" sees every customer that matches the search; with `Only(s)` only those of `s`. */
  lemma OwnerScope(customers: seq<Customer>, owner: User, term: string, s: int)
    requires owner.role == Owner
    ensures FilteredCustomers(customers, Some(owner), term, Any) == Filter(c => MatchesSearch(c, term), customers)
    ensures forall c :: c in FilteredCustomers(customers, Some(owner), term, Only(s)) ==> c.subsidiaryId == s
  {
    FilterCongruent(c => Listed(c, Some(owner), term, Any), c => MatchesSearch(c, term), customers);
  }

  /** The "Active" card. */
  function ActiveCount(visible: seq<Customer>): nat
  {
    |Filter((c: Customer) => c.status == Active, visible)|
  }

  /** The "Total Orders" card: `reduce((sum, c) => sum + c.totalOrders, 0)`. */
  function TotalOrders(visible: seq<Customer>): int
  {
    SumOf((c: Customer) => c.totalOrders, visible)
  }

  /** Active customers never outnumber the customers shown. */
  lemma ActiveAtMostVisible(visible: seq<Customer>)
    ensures ActiveCount(visible) <= |visible|
    ensures ActiveCount(visible) + |Filter((c: Customer) => c.status == Inactive, visible)| == |visible|
  {
    FilterPartition((c: Customer) => c.status == Active, (c: Customer) => c.status == Inactive, visible);
  }

  /**
   * The Total Orders figure of a view plus that of the customers it hides
   * is the figure over all customers; with non-negative order counts it
   * never exceeds the unfiltered figure.
   */
  lemma TotalOrdersOfView(customers: seq<Customer>, current: Option<User>, term: string, scope: Scope)
    ensures TotalOrders(FilteredCustomers(customers, current, term, scope))
      + TotalOrders(Filter(c => !Listed(c, current, term, scope), customers)) == TotalOrders(customers)
    ensures (forall c :: c in customers ==> c.totalOrders >= 0) ==>
      TotalOrders(FilteredCustomers(customers, current, term, scope)) <= TotalOrders(customers)
  {
    var p := (c: Customer) => Listed(c, current, term, scope);
    SumOfFilterSplit((c: Customer) => c.totalOrders, p, c => !Listed(c, current, term, scope), customers);
    if forall c :: c in customers ==> c.totalOrders >= 0 {
      SumOfFilterBounded((c: Customer) => c.totalOrders, p, customers);
    }
  }

  /** The seed customers hold 41 orders in all, and three of the four are Active. */
  lemma SeedTotals()
    ensures TotalOrders(MockCustomers()) == 41
    ensures ActiveCount(MockCustomers()) == 3
  {
    var cs := MockCustomers();
    assert cs[1..][1..][1..][1..] == [];
  }
}
