/**
 * The seed users and subsidiaries and the fixed dashboard figures
 * (src/data/mockData.ts).
 */
module SeedData {
  import opened Base
  import opened Access

  datatype Subsidiary = Subsidiary(
    id: int,
    name: string,
    description: string,
    color: string,
    products: seq<string>)

  function Users(): seq<User>
  {
    [ User(1, "Owner", "owner@zakayo.com", Owner, None, Some("OW")),
      User(2, "John Manager", "john@agrovet.com", Manager, Some(1), Some("JM")),
      User(3, "Mary Sales", "mary.sales@example.com", Staff, Some(2), Some("MS")),
      User(4, "Eve Williams", "eve.williams@example.com", Staff, Some(2), Some("EW")),
      User(5, "Charlie Brown", "charlie.brown@example.com", Staff, Some(3), Some("CB")),
      User(6, "Diana Miller", "diana.miller@example.com", Staff, Some(4), Some("DM")) ]
  }

  function Subsidiaries(): seq<Subsidiary>
  {
    [ Subsidiary(1, "Zakayo Agrovet", "Agricultural products and fertilizers", "#10B981",
        ["Fertilizer A", "Fertilizer B", "Seeds", "Pesticides"]),
      Subsidiary(2, "Zakayo Lubricants", "Motor oils and lubricants", "#3B82F6",
        ["Engine Oil", "Brake Fluid", "Transmission Oil", "Grease"]),
      Subsidiary(3, "Zakayo Sembe", "Maize flour and grain products", "#F59E0B",
        ["Maize Flour", "Wheat Flour", "Rice", "Beans"]),
      Subsidiary(4, "Zakayo Wine & Spirit", "Alcoholic beverages and spirits", "#8B5CF6",
        ["Local Beer", "Wine", "Spirits", "Traditional Brew"]) ]
  }

  predicate IsSubsidiaryId(sid: int)
  {
    exists i :: 0 <= i < |Subsidiaries()| && Subsidiaries()[i].id == sid
  }

  /** The subsidiaries are numbered 1 to 4, each id used once. */
  lemma SubsidiaryIds()
    ensures |Subsidiaries()| == 4
    ensures forall i :: 0 <= i < 4 ==> Subsidiaries()[i].id == i + 1
    ensures forall i, j :: 0 <= i < j < |Subsidiaries()| ==> Subsidiaries()[i].id != Subsidiaries()[j].id
    ensures forall sid :: IsSubsidiaryId(sid) <==> 1 <= sid <= 4
  {
    var s := Subsidiaries();
    forall sid | 1 <= sid <= 4 ensures IsSubsidiaryId(sid) {
      assert s[sid - 1].id == sid;
    }
  }

  /** Exactly one seed user, the first, is an Owner, and it has no subsidiary. */
  lemma SingleOwner()
    ensures Users()[0].role == Owner && Users()[0].subsidiaryId == None
    ensures forall i :: 1 <= i < |Users()| ==> Users()[i].role != Owner
  {
  }

  /** Every Manager and Staff member belongs to an existing subsidiary. */
  lemma StaffHaveSubsidiaries()
    ensures forall i :: 0 <= i < |Users()| && Users()[i].role != Owner ==>
      Users()[i].subsidiaryId.Some? && IsSubsidiaryId(Users()[i].subsidiaryId.value)
  {
    SubsidiaryIds();
  }

  /** Seed emails are pairwise distinct, so looking a user up by email is unambiguous. */
  lemma DistinctEmails()
    ensures forall i, j :: 0 <= i < j < |Users()| ==> Users()[i].email != Users()[j].email
  {
    var u := Users();
    forall i, j | 0 <= i < j < |u| ensures u[i].email != u[j].email {
      // The seed emails already differ in their first character.
      assert u[i].email[0] != u[j].email[0];
    }
  }

  /** Logging in with a seed user's email finds that user and no other. */
  lemma SeedLoginFinds(k: nat)
    requires k < |Users()|
    ensures FindByEmail(Users(), Users()[k].email) == Some(k)
  {
    DistinctEmails();
    FindByEmailUnique(Users(), Users()[k].email, k);
  }

  /** The figures the dashboard shows. */
  datatype DashboardStats = DashboardStats(
    totalSales: int,
    totalOrders: int,
    pendingOrders: int,
    deliveredOrders: int,
    totalInvoices: int,
    paidInvoices: int,
    pendingInvoices: int,
    overdueInvoices: int)

  /** JavaScript truthiness of `number | null`: null and 0 are false. */
  predicate Truthy(scope: Option<int>)
  {
    scope.Some? && scope.value != 0
  }

  /** `getDashboardStats(subsidiaryId)`: one fixed set of figures per subsidiary, another for all. */
  function GetDashboardStats(scope: Option<int>): (r: DashboardStats)
    ensures r.totalOrders == r.pendingOrders + r.deliveredOrders
    ensures r.totalInvoices == r.paidInvoices + r.pendingInvoices + r.overdueInvoices
  {
    if Truthy(scope) then DashboardStats(450000, 23, 5, 18, 28, 20, 6, 2)
    else DashboardStats(1850000, 89, 18, 71, 105, 78, 21, 6)
  }

  /**
   * Every truthy subsidiary id gets the same figures, and each of them is
   * at most the corresponding figure for all subsidiaries.
   */
  lemma DashboardStatsPerSubsidiary(a: Option<int>, b: Option<int>)
    requires Truthy(a) && Truthy(b)
    ensures GetDashboardStats(a) == GetDashboardStats(b)
    ensures var s, all := GetDashboardStats(a), GetDashboardStats(None);
      && s.totalSales <= all.totalSales && s.totalOrders <= all.totalOrders
      && s.pendingOrders <= all.pendingOrders && s.deliveredOrders <= all.deliveredOrders
      && s.totalInvoices <= all.totalInvoices && s.paidInvoices <= all.paidInvoices
      && s.pendingInvoices <= all.pendingInvoices && s.overdueInvoices <= all.overdueInvoices
  {
  }

  /** A scope of 0 is falsy and so reads as "all subsidiaries". */
  lemma DashboardStatsZeroIsAll()
    ensures GetDashboardStats(Some(0)) == GetDashboardStats(None)
  {
  }
}
