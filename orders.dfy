/**
 * The Orders list view (src/components/Orders.tsx): the seed orders, the
 * search / status / subsidiary filter and the Pending and Delivered counts.
 */
module Orders {
  import opened Base
  import opened Text
  import opened Access
  import SeedData

  datatype OrderStatus = Draft | Confirmed | Processing | Delivered | Cancelled

  datatype Order = Order(
    id: int,
    orderNumber: string,
    customerName: string,
    customerPhone: string,
    product: string,
    quantity: int,
    unitPrice: int,
    totalAmount: int,
    status: OrderStatus,
    orderDate: string,
    deliveryDate: Option<string>,
    subsidiaryId: int)

  function MockOrders(): seq<Order>
  {
    [ Order(1, "ORD-2024-001", "Mwalimu John Kasonga", "+255712345678", "Fertilizer A (50kg)",
        10, 45000, 450000, Confirmed, "2024-01-15", Some("2024-01-20"), 1),
      Order(2, "ORD-2024-002", "Mama Grace Mwangi", "+255723456789", "Engine Oil (5L)",
        25, 18000, 450000, Processing, "2024-01-16", None, 2),
      Order(3, "ORD-2024-003", "Bwana Ahmed Hassan", "+255734567890", "Maize Flour (25kg)",
        50, 35000, 1750000, Delivered, "2024-01-14", Some("2024-01-18"), 3),
      Order(4, "ORD-2024-004", "Dada Sarah Mbogo", "+255745678901", "Local Beer (Crate)",
        5, 25000, 125000, Draft, "2024-01-17", None, 4) ]
  }

  /** Order number, customer name or product contains the term, ignoring case. */
  predicate MatchesSearch(o: Order, term: string)
  {
    var t := Lower(term);
    Contains(Lower(o.orderNumber), t) || Contains(Lower(o.customerName), t) || Contains(Lower(o.product), t)
  }

  /** The predicate of `filteredOrders`. */
  predicate Listed(o: Order, current: Option<User>, term: string, status: Selection<OrderStatus>, scope: Scope)
  {
    MatchesSearch(o, term) && Selects(status, o.status) && InViewScope(current, scope, o.subsidiaryId)
  }

  /** `filteredOrders`. */
  function FilteredOrders(orders: seq<Order>, current: Option<User>, term: string,
                          status: Selection<OrderStatus>, scope: Scope): seq<Order>
  {
    Filter(o => Listed(o, current, term, status, scope), orders)
  }

  /** An order is listed iff it matches the search, the status filter and the scope rule. */
  lemma ListedIff(orders: seq<Order>, current: Option<User>, term: string,
                  status: Selection<OrderStatus>, scope: Scope, o: Order)
    ensures o in FilteredOrders(orders, current, term, status, scope) <==>
      o in orders && MatchesSearch(o, term) && Selects(status, o.status)
      && ViewRule(RoleOf(current), HomeOf(current), scope, o.subsidiaryId)
  {
    FilterMembership(o => Listed(o, current, term, status, scope), orders, o);
  }

  /** The listed orders are the seed orders with some left out, never reordered. */
  lemma FilteredIsSubsequence(orders: seq<Order>, current: Option<User>, term: string,
                              status: Selection<OrderStatus>, scope: Scope)
    ensures IsSubsequence(FilteredOrders(orders, current, term, status, scope), orders)
  {
    FilterIsSubsequence(o => Listed(o, current, term, status, scope), orders);
  }

  /** The empty search term matches every order. */
  lemma EmptySearchMatches(o: Order)
    ensures MatchesSearch(o, "")
  {
    ContainsEmpty(Lower(o.orderNumber));
  }

  /**
   * For a non-Owner, or nobody, the listed orders are those of their own
   * subsidiary, and the selected scope makes no difference.
   */
  lemma NonOwnerIgnoresScope(orders: seq<Order>, current: Option<User>, term: string,
                             status: Selection<OrderStatus>, s1: Scope, s2: Scope)
    requires RoleOf(current) != Some(Owner)
    ensures FilteredOrders(orders, current, term, status, s1) == FilteredOrders(orders, current, term, status, s2)
    ensures forall o :: o in FilteredOrders(orders, current, term, status, s1) ==>
      HomeOf(current) == Some(o.subsidiaryId)
  {
    FilterCongruent(o => Listed(o, current, term, status, s1), o => Listed(o, current, term, status, s2), orders);
  }

  /** An Owner with "all", no search and no status filter sees every order. */
  lemma OwnerAllSeesEverything(orders: seq<Order>, owner: User)
    requires owner.role == Owner
    ensures FilteredOrders(orders, Some(owner), "", Any, Any) == orders
  {
    forall o | o in orders ensures Listed(o, Some(owner), "", Any, Any) {
      EmptySearchMatches(o);
    }
    FilterAll(o => Listed(o, Some(owner), "", Any, Any), orders);
  }

  /** An Owner who selects subsidiary `s` sees only orders of `s`. */
  lemma OwnerOnlySeesSelected(orders: seq<Order>, owner: User, term: string,
                              status: Selection<OrderStatus>, s: int)
    requires owner.role == Owner
    ensures forall o :: o in FilteredOrders(orders, Some(owner), term, status, Only(s)) ==> o.subsidiaryId == s
  {
  }

  predicate IsPending(o: Order)
  {
    o.status == Draft || o.status == Confirmed || o.status == Processing
  }

  /** The "Pending" card: visible orders that are Draft, Confirmed or Processing. */
  function PendingCount(visible: seq<Order>): nat
  {
    |Filter(IsPending, visible)|
  }

  /** The "Delivered" card. */
  function DeliveredCount(visible: seq<Order>): nat
  {
    |Filter((o: Order) => o.status == Delivered, visible)|
  }

  function CancelledCount(visible: seq<Order>): nat
  {
    |Filter((o: Order) => o.status == Cancelled, visible)|
  }

  /** Pending, Delivered and Cancelled orders account for every visible order exactly once. */
  lemma {:induction false} StatusCountsPartition(visible: seq<Order>)
    ensures PendingCount(visible) + DeliveredCount(visible) + CancelledCount(visible) == |visible|
    ensures PendingCount(visible) <= |visible| && DeliveredCount(visible) <= |visible|
  {
    if visible != [] {
      StatusCountsPartition(visible[1..]);
    }
  }

  /** With no search and no status filter, a non-Owner sees exactly the orders of their subsidiary. */
  lemma NonOwnerSeesHome(orders: seq<Order>, u: User, scope: Scope)
    requires u.role != Owner && u.subsidiaryId.Some?
    ensures FilteredOrders(orders, Some(u), "", Any, scope) ==
      Filter((o: Order) => o.subsidiaryId == u.subsidiaryId.value, orders)
  {
    forall o | o in orders ensures MatchesSearch(o, "") {
      EmptySearchMatches(o);
    }
    FilterCongruent(o => Listed(o, Some(u), "", Any, scope),
                    (o: Order) => o.subsidiaryId == u.subsidiaryId.value, orders);
  }

  /** A Manager of subsidiary 1 sees exactly the seed order of subsidiary 1, whatever scope is selected. */
  lemma ManagerSeesOwnSubsidiary(scope: Scope)
    ensures FilteredOrders(MockOrders(), Some(SeedData.Users()[1]), "", Any, scope) == [MockOrders()[0]]
  {
    var os := MockOrders();
    NonOwnerSeesHome(os, SeedData.Users()[1], scope);
    var inOne := (o: Order) => o.subsidiaryId == 1;
    assert os[1..][1..][1..][1..] == [];
    assert Filter(inOne, os[1..]) == [];
  }
}
