/**
 * The navigation sidebar (src/components/Sidebar.tsx): the menu, which
 * gains a User Management entry for an Owner, the `availableSubsidiaries`
 * list it computes (and does not use in rendering), and the subsidiary
 * selector, which only an Owner gets and which lists every subsidiary.
 */
module Sidebar {
  import opened Base
  import opened Text
  import opened Access
  import SeedData

  /** A menu entry: its tab id and its label. */
  datatype MenuItem = MenuItem(id: string, title: string)

  /** The six entries every logged-in user gets, in menu order. */
  function BaseMenu(): seq<MenuItem>
  {
    [ MenuItem("dashboard", "Dashboard"),
      MenuItem("customers", "Customers"),
      MenuItem("orders", "Orders"),
      MenuItem("invoices", "Invoices"),
      MenuItem("delivery-notes", "Delivery Notes"),
      MenuItem("reports", "Reports") ]
  }

  const UsersItem: MenuItem := MenuItem("users", "User Management")

  /** The menu ids are pairwise distinct, and "users" is not one of the six. */
  lemma BaseMenuIds()
    ensures |BaseMenu()| == 6
    ensures forall i, j :: 0 <= i < j < |BaseMenu()| ==> BaseMenu()[i].id != BaseMenu()[j].id
    ensures forall i :: 0 <= i < |BaseMenu()| ==> BaseMenu()[i].id != UsersItem.id
  {
  }

  /**
   * `menuItems`: the base list, into which `splice(1, 0, …)` puts the User
   * Management entry for an Owner, right after Dashboard.
   */
  method MenuItems(current: Option<User>) returns (items: seq<MenuItem>)
    ensures RoleOf(current) != Some(Owner) ==> items == BaseMenu()
    ensures RoleOf(current) == Some(Owner) ==>
      && |items| == 7
      && items[0] == BaseMenu()[0]
      && items[1] == UsersItem
      && items[2..] == BaseMenu()[1..]
    ensures UsersItem in items <==> RoleOf(current) == Some(Owner)
  {
    items := BaseMenu();
    BaseMenuIds();
    if RoleOf(current) == Some(Owner) {
      items := items[..1] + [UsersItem] + items[1..];
      assert items[1] == UsersItem;
    }
  }

  /**
   * `availableSubsidiaries`: all of them for an Owner, those `canAccess`
   * admits otherwise. The sidebar computes it but renders nothing from it;
   * the selector below lists every subsidiary.
   */
  function AvailableSubsidiaries(current: Option<User>, subs: seq<SeedData.Subsidiary>): seq<SeedData.Subsidiary>
  {
    if RoleOf(current) == Some(Owner) then subs
    else Filter((s: SeedData.Subsidiary) => CanAccess(current, s.id), subs)
  }

  /**
   * In both branches `availableSubsidiaries` holds exactly those `canAccess`
   * admits, in their declared order: the Owner branch is the filter that
   * happens to keep everything.
   */
  lemma AvailableIsCanAccessFilter(current: Option<User>, subs: seq<SeedData.Subsidiary>)
    ensures AvailableSubsidiaries(current, subs) == Filter((s: SeedData.Subsidiary) => CanAccess(current, s.id), subs)
    ensures RoleOf(current) == Some(Owner) ==> AvailableSubsidiaries(current, subs) == subs
    ensures forall s :: s in AvailableSubsidiaries(current, subs) <==> s in subs && CanAccess(current, s.id)
  {
    var p := (s: SeedData.Subsidiary) => CanAccess(current, s.id);
    if RoleOf(current) == Some(Owner) {
      FilterAll(p, subs);
    }
    forall s ensures s in Filter(p, subs) <==> s in subs && p(s) {
      FilterMembership(p, subs, s);
    }
  }

  /**
   * With distinct subsidiary ids, `availableSubsidiaries` for a Manager or
   * Staff member is exactly their own subsidiary when it is in the list.
   */
  lemma NonOwnerSeesHome(u: User, subs: seq<SeedData.Subsidiary>, k: nat)
    requires u.role != Owner && k < |subs| && u.subsidiaryId == Some(subs[k].id)
    requires forall i, j :: 0 <= i < j < |subs| ==> subs[i].id != subs[j].id
    ensures AvailableSubsidiaries(Some(u), subs) == [subs[k]]
  {
    FilterSingle((s: SeedData.Subsidiary) => CanAccess(Some(u), s.id), subs, k);
  }

  /**
   * The select's value for a scope: `selectedSubsidiary || 'all'`, so a
   * missing scope (and the falsy id 0) shows "all".
   */
  function SelectValue(scope: Option<int>): string
  {
    if SeedData.Truthy(scope) then IntString(scope.value) else "all"
  }

  /** The option values of one subsidiary each, in list order. */
  function IdOptions(subs: seq<SeedData.Subsidiary>): (r: seq<string>)
    ensures |r| == |subs|
    ensures forall i :: 0 <= i < |subs| ==> r[i] == IntString(subs[i].id)
  {
    if subs == [] then [] else [IntString(subs[0].id)] + IdOptions(subs[1..])
  }

  /**
   * The selector's option values: rendered only for an Owner, as "all"
   * followed by the id of every subsidiary (not `availableSubsidiaries`);
   * anyone else gets no selector at all.
   */
  function SelectorOptions(current: Option<User>, subs: seq<SeedData.Subsidiary>): (r: seq<string>)
    ensures RoleOf(current) != Some(Owner) ==> r == []
    ensures RoleOf(current) == Some(Owner) ==>
      |r| == |subs| + 1 && r[0] == "all"
      && forall i :: 0 <= i < |subs| ==> r[i + 1] == IntString(subs[i].id)
  {
    if RoleOf(current) == Some(Owner) then ["all"] + IdOptions(subs) else []
  }

  /**
   * For an Owner whose subsidiaries have positive ids, the rendered options
   * are exactly the option values, and choosing any of them and showing the
   * resulting scope gives that option back.
   */
  lemma SelectorOptionsRoundTrip(current: Option<User>, subs: seq<SeedData.Subsidiary>)
    requires RoleOf(current) == Some(Owner)
    requires forall i :: 0 <= i < |subs| ==> subs[i].id >= 1
    ensures forall v :: v in SelectorOptions(current, subs) <==> IsOptionValue(v, subs)
    ensures forall v :: v in SelectorOptions(current, subs) ==>
      (v == "all" || (|v| >= 1 && AllDigits(v))) && SelectValue(ScopeOfSelect(v)) == v
  {
    var r := SelectorOptions(current, subs);
    forall v ensures v in r <==> IsOptionValue(v, subs) {
      if v in r {
        var k :| 0 <= k < |r| && r[k] == v;
        if k > 0 {
          assert subs[k - 1].id >= 1 && v == IntString(subs[k - 1].id);
        }
      }
      if IsOptionValue(v, subs) && v != "all" {
        var i :| 0 <= i < |subs| && subs[i].id >= 1 && v == IntString(subs[i].id);
        assert r[i + 1] == v;
      }
    }
    forall v | v in r
      ensures (v == "all" || (|v| >= 1 && AllDigits(v))) && SelectValue(ScopeOfSelect(v)) == v
    {
      SelectRoundTrip(v, subs, None);
    }
  }

  /** The option values: "all" followed by each subsidiary's id. */
  predicate IsOptionValue(v: string, subs: seq<SeedData.Subsidiary>)
  {
    v == "all" || exists i :: 0 <= i < |subs| && subs[i].id >= 1 && v == IntString(subs[i].id)
  }

  /** The select's `onChange`: "all" clears the scope, an id's numeral selects that id. */
  function ScopeOfSelect(v: string): (r: Option<int>)
    requires v == "all" || (|v| >= 1 && AllDigits(v))
    ensures r.None? <==> v == "all"
  {
    if v == "all" then None else Some(ParseDigits(v))
  }

  /**
   * The selector and the scope agree both ways: choosing an option and
   * showing the resulting scope gives the option back, and a scope that is
   * absent or a positive id survives being shown and chosen again.
   */
  lemma SelectRoundTrip(v: string, subs: seq<SeedData.Subsidiary>, scope: Option<int>)
    ensures IsOptionValue(v, subs) ==>
      (v == "all" || (|v| >= 1 && AllDigits(v))) && SelectValue(ScopeOfSelect(v)) == v
    ensures scope.None? || scope.value >= 1 ==>
      var s := SelectValue(scope);
      (s == "all" || (|s| >= 1 && AllDigits(s))) && ScopeOfSelect(s) == scope
    ensures SelectValue(Some(0)) == "all"
  {
    if IsOptionValue(v, subs) && v != "all" {
      var i :| 0 <= i < |subs| && subs[i].id >= 1 && v == IntString(subs[i].id);
      ParseDecimalString(subs[i].id);
      assert v[0] != 'a';
    }
    if scope.Some? && scope.value >= 1 {
      ParseDecimalString(scope.value);
    }
  }
}
