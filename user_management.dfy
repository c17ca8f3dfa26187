/**
 * The User Management page (src/components/UserManagement.tsx): an
 * Owner-only page listing the seed users, filtered by a search term and a
 * role, each shown with a badge coloured by role.
 */
module UserManagement {
  import opened Base
  import opened Text
  import opened Access
  import SeedData

  /** Name or email contains the term, ignoring case. */
  predicate MatchesSearch(u: User, term: string)
  {
    Contains(Lower(u.name), Lower(term)) || Contains(Lower(u.email), Lower(term))
  }

  /** The predicate of `filteredUsers`. */
  predicate Listed(u: User, term: string, role: Selection<Role>)
  {
    MatchesSearch(u, term) && Selects(role, u.role)
  }

  /**
   * What the page shows: `None` for the "Access Denied" panel that anyone
   * but an Owner (nobody logged in included) gets, otherwise `filteredUsers`.
   */
  function UserManagementView(current: Option<User>, users: seq<User>, term: string, role: Selection<Role>): Option<seq<User>>
  {
    if RoleOf(current) != Some(Owner) then None
    else Some(Filter(u => Listed(u, term, role), users))
  }

  /**
   * Only an Owner gets a list; for an Owner a user is listed iff it is one
   * of the users and matches the search and the role filter.
   */
  lemma ViewIff(current: Option<User>, users: seq<User>, term: string, role: Selection<Role>, u: User)
    ensures UserManagementView(current, users, term, role).Some? <==> RoleOf(current) == Some(Owner)
    ensures UserManagementView(current, users, term, role).Some? ==>
      (u in UserManagementView(current, users, term, role).value <==>
         u in users && MatchesSearch(u, term) && Selects(role, u.role))
  {
    FilterMembership(u => Listed(u, term, role), users, u);
  }

  /** The listed users keep the order of the seed list. */
  lemma ListedIsSubsequence(current: Option<User>, users: seq<User>, term: string, role: Selection<Role>)
    requires RoleOf(current) == Some(Owner)
    ensures IsSubsequence(UserManagementView(current, users, term, role).value, users)
  {
    FilterIsSubsequence(u => Listed(u, term, role), users);
  }

  lemma EmptySearchMatches(u: User)
    ensures MatchesSearch(u, "")
  {
    ContainsEmpty(Lower(u.name));
  }

  /** With no search and role "all" an Owner sees every user; with role `r` exactly the users of role `r`. */
  lemma RoleFilter(owner: User, users: seq<User>, r: Role)
    requires owner.role == Owner
    ensures UserManagementView(Some(owner), users, "", Any) == Some(users)
    ensures UserManagementView(Some(owner), users, "", Only(r)) == Some(Filter((u: User) => u.role == r, users))
  {
    forall u | u in users ensures Listed(u, "", Any) && (Listed(u, "", Only(r)) <==> u.role == r) {
      EmptySearchMatches(u);
    }
    FilterAll(u => Listed(u, "", Any), users);
    FilterCongruent(u => Listed(u, "", Only(r)), (u: User) => u.role == r, users);
  }

  /** `getRoleBadgeColor`: one class per role, a muted default for anything else. */
  function RoleBadgeColor(role: string): string
  {
    if role == "Owner" then "bg-zakayo-primary text-white"
    else if role == "Manager" then "bg-zakayo-secondary text-white"
    else if role == "Staff" then "bg-zakayo-success text-white"
    else "bg-muted text-muted-foreground"
  }

  function RoleName(r: Role): string
  {
    match r
    case Owner => "Owner"
    case Manager => "Manager"
    case Staff => "Staff"
  }

  /** The three roles get three different badges, none of them the muted default. */
  lemma RoleBadgesDistinct(r1: Role, r2: Role)
    ensures RoleBadgeColor(RoleName(r1)) == RoleBadgeColor(RoleName(r2)) <==> r1 == r2
    ensures RoleBadgeColor(RoleName(r1)) != RoleBadgeColor("")
  {
  }

  /** Any text that is not one of the three role names gets the muted default. */
  lemma UnknownRoleBadge(role: string)
    requires forall r: Role :: role != RoleName(r)
    ensures RoleBadgeColor(role) == RoleBadgeColor("")
  {
    assert role != RoleName(Owner) && role != RoleName(Manager) && role != RoleName(Staff);
  }
}
