/**
 * The application shell (src/components/MainApp.tsx): the active tab, the
 * selected subsidiary scope shared by the sidebar and the dashboard, the
 * effect that pins a Manager's or Staff member's scope to their own
 * subsidiary, and the dispatch from tab id to view.
 */
module MainApp {
  import opened Base
  import opened Access
  import SeedData
  import Sidebar

  /** The view `renderContent` returns; the dashboard receives the selected scope. */
  datatype View =
    | Dashboard(scope: Option<int>)
    | UserManagement
    | Customers
    | Orders
    | Invoices
    | DeliveryNotes
    | Reports
    | Settings

  /** `renderContent`: the view of a known tab id, the dashboard for anything else. */
  function RenderContent(tab: string, scope: Option<int>): View
  {
    if tab == "users" then UserManagement
    else if tab == "customers" then Customers
    else if tab == "orders" then Orders
    else if tab == "invoices" then Invoices
    else if tab == "delivery-notes" then DeliveryNotes
    else if tab == "reports" then Reports
    else if tab == "settings" then Settings
    else Dashboard(scope)
  }

  /** The tab id that selects a view. */
  function TabId(v: View): string
  {
    match v
    case Dashboard(_) => "dashboard"
    case UserManagement => "users"
    case Customers => "customers"
    case Orders => "orders"
    case Invoices => "invoices"
    case DeliveryNotes => "delivery-notes"
    case Reports => "reports"
    case Settings => "settings"
  }

  ghost predicate IsKnownTab(tab: string)
  {
    exists v: View :: TabId(v) == tab
  }

  /**
   * Every view is reached from its own tab id, the dashboard with the
   * current scope; an id that names no view falls back to the dashboard.
   */
  lemma RenderContentDispatch(v: View, tab: string, scope: Option<int>)
    ensures RenderContent(TabId(v), scope) == (if v.Dashboard? then Dashboard(scope) else v)
    ensures !IsKnownTab(tab) ==> RenderContent(tab, scope) == Dashboard(scope)
  {
    if !IsKnownTab(tab) {
      assert TabId(UserManagement) != tab && TabId(Customers) != tab && TabId(Orders) != tab;
      assert TabId(Invoices) != tab && TabId(DeliveryNotes) != tab && TabId(Reports) != tab;
      assert TabId(Settings) != tab;
    }
  }

  /**
   * Each sidebar entry opens its own view: the menu's ids are known tabs
   * and distinct entries open distinct views.
   */
  lemma MenuOpensDistinctViews(i: nat, j: nat, scope: Option<int>)
    requires i < j < |Sidebar.BaseMenu()|
    ensures IsKnownTab(Sidebar.BaseMenu()[i].id) && IsKnownTab(Sidebar.UsersItem.id)
    ensures RenderContent(Sidebar.BaseMenu()[i].id, scope) != RenderContent(Sidebar.BaseMenu()[j].id, scope)
    ensures RenderContent(Sidebar.BaseMenu()[i].id, scope) != RenderContent(Sidebar.UsersItem.id, scope)
  {
    var m := Sidebar.BaseMenu();
    assert TabId(Dashboard(scope)) == m[0].id && TabId(Customers) == m[1].id && TabId(Orders) == m[2].id;
    assert TabId(Invoices) == m[3].id && TabId(DeliveryNotes) == m[4].id && TabId(Reports) == m[5].id;
    assert TabId(UserManagement) == Sidebar.UsersItem.id;
  }

  /**
   * The scope after the auto-select effect: a logged-in non-Owner whose
   * subsidiary id is truthy gets that id; otherwise the scope is kept.
   */
  function ScopeAfterEffect(current: Option<User>, scope: Option<int>): Option<int>
  {
    if current.Some? && current.value.role != Owner && SeedData.Truthy(current.value.subsidiaryId)
    then current.value.subsidiaryId
    else scope
  }

  /**
   * The effect pins a Manager's or Staff member's scope to their home
   * subsidiary, leaves an Owner's choice alone, and running it again
   * changes nothing.
   */
  lemma EffectScope(current: Option<User>, scope: Option<int>)
    ensures RoleOf(current) == Some(Owner) ==> ScopeAfterEffect(current, scope) == scope
    ensures RoleOf(current).Some? && RoleOf(current) != Some(Owner) && SeedData.Truthy(HomeOf(current)) ==>
      ScopeAfterEffect(current, scope) == HomeOf(current)
    ensures ScopeAfterEffect(current, ScopeAfterEffect(current, scope)) == ScopeAfterEffect(current, scope)
  {
  }

  /**
   * On the render that follows the mount effect (the very first render has
   * no scope yet), the dashboard shows the figures
   * of all subsidiaries to an Owner and one subsidiary's figures to a seed
   * Manager or Staff member.
   */
  lemma FirstDashboard(k: nat)
    requires k < |SeedData.Users()|
    ensures var u := SeedData.Users()[k];
      var scope := ScopeAfterEffect(Some(u), None);
      RenderContent("dashboard", scope) == Dashboard(scope)
      && (u.role == Owner <==> scope.None?)
      && (u.role != Owner ==>
            scope == u.subsidiaryId && SeedData.GetDashboardStats(scope) == SeedData.GetDashboardStats(Some(1)))
      && (u.role == Owner ==> SeedData.GetDashboardStats(scope) == SeedData.GetDashboardStats(None))
  {
    SeedData.StaffHaveSubsidiaries();
  }

  /** The shell's state. */
  class AppShell {
    var activeTab: string
    var selectedSubsidiary: Option<int>
    var sidebarOpen: bool

    /** Mounting: the dashboard, all subsidiaries, sidebar closed. */
    constructor ()
      ensures activeTab == "dashboard" && selectedSubsidiary == None && !sidebarOpen
    {
      activeTab := "dashboard";
      selectedSubsidiary := None;
      sidebarOpen := false;
    }

    /** The `useEffect` on `currentUser`. */
    method SyncScope(current: Option<User>)
      modifies this
      ensures selectedSubsidiary == ScopeAfterEffect(current, old(selectedSubsidiary))
      ensures activeTab == old(activeTab) && sidebarOpen == old(sidebarOpen)
    {
      if current.Some? && current.value.role != Owner && SeedData.Truthy(current.value.subsidiaryId) {
        selectedSubsidiary := current.value.subsidiaryId;
      }
    }

    /** The sidebar's `onTabChange`. */
    method SelectTab(tab: string)
      modifies this
      ensures activeTab == tab
      ensures selectedSubsidiary == old(selectedSubsidiary) && sidebarOpen == old(sidebarOpen)
    {
      activeTab := tab;
    }

    /** The sidebar's `onSubsidiaryChange`. */
    method SelectSubsidiary(scope: Option<int>)
      modifies this
      ensures selectedSubsidiary == scope
      ensures activeTab == old(activeTab) && sidebarOpen == old(sidebarOpen)
    {
      selectedSubsidiary := scope;
    }

    /** `toggleSidebar`. */
    method ToggleSidebar()
      modifies this
      ensures sidebarOpen == !old(sidebarOpen)
      ensures activeTab == old(activeTab) && selectedSubsidiary == old(selectedSubsidiary)
    {
      sidebarOpen := !sidebarOpen;
    }

    /** `closeSidebar`. */
    method CloseSidebar()
      modifies this
      ensures !sidebarOpen
      ensures activeTab == old(activeTab) && selectedSubsidiary == old(selectedSubsidiary)
    {
      sidebarOpen := false;
    }

    /** What the main area shows. */
    function Content(): (v: View)
      reads this
      ensures v.Dashboard? ==> v.scope == selectedSubsidiary
      ensures !v.Dashboard? ==> TabId(v) == activeTab
    {
      RenderContent(activeTab, selectedSubsidiary)
    }
  }
}
