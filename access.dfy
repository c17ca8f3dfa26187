/**
 * The session and the subsidiary access scope (src/contexts/AuthContext.tsx).
 *
 * A user is an Owner, a Manager or Staff; Managers and Staff belong to one
 * subsidiary. `CanAccess` is the context's `canAccess`; `ViewRule` is the
 * three-way rule that the Orders, Customers, Invoices and Delivery Notes
 * views each write out inline, over the optional-chained role and home
 * subsidiary of the current user (both absent when nobody is logged in).
 */
module Access {
  import opened Base

  datatype Role = Owner | Manager | Staff

  datatype User = User(
    id: int,
    name: string,
    email: string,
    role: Role,
    subsidiaryId: Option<int>,
    avatar: Option<string>)

  /** The subsidiary filter of a list view: "all" or one subsidiary id. */
  type Scope = Selection<int>

  /** The fixed password every seed account logs in with. */
  const MockPassword: string := "password123"

  /** `canAccess(subsidiaryId)` for the current user. */
  predicate CanAccess(current: Option<User>, sid: int)
  {
    match current
    case None => false
    case Some(u) => u.role == Owner || u.subsidiaryId == Some(sid)
  }

  /** `currentUser?.role`. */
  function RoleOf(current: Option<User>): Option<Role>
  {
    match current
    case None => None
    case Some(u) => Some(u.role)
  }

  /** `currentUser?.subsidiaryId`. */
  function HomeOf(current: Option<User>): Option<int>
  {
    match current
    case None => None
    case Some(u) => u.subsidiaryId
  }

  /**
   * The inlined scope rule of the list views: a non-Owner (or nobody) sees
   * only records of their own subsidiary whatever the selected scope; an
   * Owner sees every record under "all" and one subsidiary's records otherwise.
   */
  predicate ViewRule(role: Option<Role>, home: Option<int>, scope: Scope, sid: int)
  {
    if role != Some(Owner) then home == Some(sid)
    else Selects(scope, sid)
  }

  /** The view rule applied to the current user. */
  predicate InViewScope(current: Option<User>, scope: Scope, sid: int)
  {
    ViewRule(RoleOf(current), HomeOf(current), scope, sid)
  }

  /**
   * The same rule for a record whose subsidiary id was produced by
   * `parseInt` (`None` is NaN). NaN is equal to nothing, so such a record
   * passes only where no comparison is made: for an Owner under "all".
   */
  predicate ViewRuleParsed(role: Option<Role>, home: Option<int>, scope: Scope, sid: Option<int>)
  {
    match sid
    case Some(v) => ViewRule(role, home, scope, v)
    case None => role == Some(Owner) && scope == Any
  }

  predicate InViewScopeParsed(current: Option<User>, scope: Scope, sid: Option<int>)
  {
    ViewRuleParsed(RoleOf(current), HomeOf(current), scope, sid)
  }

  /** Nobody logged in: `canAccess` refuses every subsidiary. */
  lemma CanAccessLoggedOut(sid: int)
    ensures !CanAccess(None, sid)
  {
  }

  /** An Owner may access every subsidiary. */
  lemma CanAccessOwner(u: User, sid: int)
    requires u.role == Owner
    ensures CanAccess(Some(u), sid)
  {
  }

  /** A Manager or Staff member may access exactly their own subsidiary, and nothing without one. */
  lemma CanAccessNonOwner(u: User, sid: int)
    requires u.role != Owner
    ensures CanAccess(Some(u), sid) <==> u.subsidiaryId == Some(sid)
    ensures u.subsidiaryId.None? ==> !CanAccess(Some(u), sid)
  {
  }

  /** Whatever is listed by a view is something `canAccess` allows. */
  lemma ViewRuleWithinCanAccess(current: Option<User>, scope: Scope, sid: int)
    ensures InViewScope(current, scope, sid) ==> CanAccess(current, sid)
  {
  }

  /** Under the "all" scope the inlined rule and `canAccess` coincide. */
  lemma ViewRuleAllIsCanAccess(current: Option<User>, sid: int)
    ensures InViewScope(current, Any, sid) <==> CanAccess(current, sid)
  {
  }

  /** A non-Owner cannot widen or move their view by choosing a scope. */
  lemma ViewRuleIgnoresScopeForNonOwner(role: Option<Role>, home: Option<int>, s1: Scope, s2: Scope, sid: int)
    requires role != Some(Owner)
    ensures ViewRule(role, home, s1, sid) == ViewRule(role, home, s2, sid)
    ensures ViewRule(role, home, s1, sid) <==> home == Some(sid)
  {
  }

  /** Nobody logged in behaves as a non-Owner without a subsidiary: nothing is visible. */
  lemma ViewRuleLoggedOut(scope: Scope, sid: int)
    ensures !InViewScope(None, scope, sid)
  {
  }

  /** An Owner sees everything under "all" and exactly subsidiary `s` under `Only(s)`. */
  lemma ViewRuleOwner(home: Option<int>, scope: Scope, sid: int)
    ensures scope == Any ==> ViewRule(Some(Owner), home, scope, sid)
    ensures scope.Only? ==> (ViewRule(Some(Owner), home, scope, sid) <==> sid == scope.value)
  {
  }

  /** `users.find(u => u.email === email)` as an index: the first user with that email. */
  function FindByEmail(users: seq<User>, email: string): (r: Option<nat>)
    ensures r.Some? ==> r.value < |users| && users[r.value].email == email
    ensures r.Some? ==> forall j :: 0 <= j < r.value ==> users[j].email != email
    ensures r.None? <==> forall j :: 0 <= j < |users| ==> users[j].email != email
  {
    if users == [] then None
    else if users[0].email == email then Some(0)
    else match FindByEmail(users[1..], email)
      case None => None
      case Some(i) => Some(i + 1)
  }

  /** With pairwise distinct emails, the user found is the only one with that email. */
  lemma FindByEmailUnique(users: seq<User>, email: string, k: nat)
    requires forall i, j :: 0 <= i < j < |users| ==> users[i].email != users[j].email
    requires k < |users| && users[k].email == email
    ensures FindByEmail(users, email) == Some(k)
  {
  }

  /** The session store: the seed users and the optional logged-in user. */
  class AuthSession {
    const users: seq<User>
    var currentUser: Option<User>

    /** `restored` is whatever the browser's session storage held at start-up. */
    constructor (users: seq<User>, restored: Option<User>)
      ensures this.users == users && currentUser == restored
    {
      this.users := users;
      currentUser := restored;
    }

    /** `login(email, password)`. */
    method Login(email: string, password: string) returns (ok: bool)
      modifies this
      ensures ok <==> FindByEmail(users, email).Some? && password == MockPassword
      ensures ok ==> currentUser == Some(users[FindByEmail(users, email).value])
      ensures !ok ==> currentUser == old(currentUser)
    {
      var found := FindByEmail(users, email);
      if found.Some? && password == MockPassword {
        currentUser := Some(users[found.value]);
        return true;
      }
      return false;
    }

    /** `logout()`. */
    method Logout()
      modifies this
      ensures currentUser == None
    {
      currentUser := None;
    }
  }
}
