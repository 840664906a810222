/** Who is given what, told by the fields of the database row alone. */
module PermissionMeaning {
  import opened Text
  import opened Permissions

  /** The row gives the account this role, and the role is in use. */
  predicate Has(r: UserRole, name: string) {
    r.role.Some? && r.role.value.active && r.role.value.name == Some(name) && name != ""
  }

  ghost predicate HasAny(row: Row, name: string) {
    exists i | 0 <= i < |row.roles| :: Has(row.roles[i], name)
  }

  /** Identifiers are compared as text, where a missing one reads None. */
  predicate ReadAlike(a: Option<string>, b: Option<string>) {
    a == b || (a == None && b == Some("None")) || (a == Some("None") && b == None)
  }

  predicate There(scopeType: Option<string>, scopeId: Option<string>, scope: ScopeKey) {
    scopeType == scope.0 && ReadAlike(scopeId, scope.1)
  }

  /** An active permission with this code that names no scope, a general one, the role's own, or, for a platform role,
      a narrower one. */
  predicate Allows(p: Option<Permission>, scopeType: Option<string>, code: string) {
    && p.Some? && p.value.active && p.value.code == Some(code)
    && (|| p.value.scope == None || p.value.scope == Some("global") || p.value.scope == Some("user")
        || p.value.scope == scopeType
        || (scopeType == Some("platform")
            && (p.value.scope == Some("institution") || p.value.scope == Some("organization"))))
  }

  /** A role in use at the scope, whatever its name, with such a permission. */
  ghost predicate RoleGives(r: UserRole, scope: ScopeKey, code: string) {
    && There(r.scopeType, r.scopeId, scope) && (exists name :: Has(r, name))
    && exists k | 0 <= k < |r.role.value.permissions| :: Allows(r.role.value.permissions[k], r.scopeType, code)
  }

  /** A grant to the account itself that was not revoked, at the institution. */
  predicate GrantGives(g: DirectGrant, scope: ScopeKey, code: string) {
    && !g.revoked && g.permission.Some? && g.permission.value.active && g.permission.value.code == Some(code)
    && ReadAlike(g.institution, scope.1)
  }

  ghost predicate Gives(row: Row, scope: ScopeKey, code: string) {
    || (exists i | 0 <= i < |row.roles| :: RoleGives(row.roles[i], scope, code))
    || (&& scope.0 == Some("institution")
        && (exists i | 0 <= i < |row.roles| ::
              Has(row.roles[i], "staff") && There(row.roles[i].scopeType, row.roles[i].scopeId, scope))
        && exists i | 0 <= i < |row.grants| :: GrantGives(row.grants[i], scope, code))
  }

  lemma StrAlike(a: Option<string>, b: Option<string>)
    ensures Str(a) == Str(b) <==> ReadAlike(a, b)
  {
  }

  lemma HasIsHolds(r: UserRole, name: string)
    ensures Has(r, name) <==> Holds(r) && r.role.value.name.value == name
    ensures Holds(r) <==> exists n :: Has(r, n)
  {
    if Holds(r) {
      assert Has(r, r.role.value.name.value);
    }
  }

  lemma RoleAgrees(r: UserRole, scope: ScopeKey, c: string)
    ensures GivenByRole(r, scope, c) <==> RoleGives(r, scope, c)
  {
    StrAlike(r.scopeId, scope.1);
    HasIsHolds(r, "");
    if Holds(r) {
      var ps := r.role.value.permissions;
      assert forall k | 0 <= k < |ps| ::
        Allows(ps[k], r.scopeType, c) <==> Granted(ps[k], r.scopeType) && ps[k].value.code.value == c;
      hide Granted, Allows, Has;
    }
  }

  /** At a scope the traces of the projection are those of the row. */
  lemma TracesAgree(row: Row, scope: ScopeKey, c: string)
    ensures Traced(row, scope, c) <==> Gives(row, scope, c)
  {
    forall r
      ensures GivenByRole(r, scope, c) <==> RoleGives(r, scope, c)
      ensures StaffAt(r, scope) <==> Has(r, "staff") && There(r.scopeType, r.scopeId, scope)
    {
      RoleAgrees(r, scope, c);
      HasIsHolds(r, "staff");
      StrAlike(r.scopeId, scope.1);
    }
    forall g: DirectGrant
      ensures GivenDirectly(g, scope, c) <==> GrantGives(g, scope, c)
    {
      StrAlike(g.institution, scope.1);
    }
    hide GivenByRole, RoleGives, StaffAt, Has, There, GivenDirectly, GrantGives;
    assert (exists r | r in row.roles :: GivenByRole(r, scope, c))
      <==> exists i | 0 <= i < |row.roles| :: RoleGives(row.roles[i], scope, c);
    assert (exists r | r in row.roles :: StaffAt(r, scope))
      <==> exists i | 0 <= i < |row.roles| ::
             Has(row.roles[i], "staff") && There(row.roles[i].scopeType, row.roles[i].scopeId, scope);
    assert (exists g | g in row.grants :: GivenDirectly(g, scope, c))
      <==> exists i | 0 <= i < |row.grants| :: GrantGives(row.grants[i], scope, c);
  }

  // The primary role -----------------------------------------------------------------------------------

  /** The first of these roles that the account has. */
  ghost predicate Leads(row: Row, name: string) {
    && HasAny(row, name)
    && (name in {"super_admin", "admin", "staff", "faculty", "student"})
    && (name != "super_admin" ==> !HasAny(row, "super_admin"))
    && (name !in {"super_admin", "admin"} ==> !HasAny(row, "admin"))
    && (name in {"faculty", "student"} ==> !HasAny(row, "staff"))
    && (name == "student" ==> !HasAny(row, "faculty"))
  }

  lemma NamesAre(row: Row, name: string)
    ensures name in UserOf(row).roles <==> HasAny(row, name)
  {
    var xs := Assignments(row.roles);
    if name in Names(xs) {
      var k :| 0 <= k < |xs| && Names(xs)[k] == name;
      AssignedFrom(row.roles, xs[k]);
      var i :| 0 <= i < |row.roles| && Holds(row.roles[i]) && Assigned(row.roles[i]) == xs[k];
      HasIsHolds(row.roles[i], name);
    }
    if i :| 0 <= i < |row.roles| && Has(row.roles[i], name) {
      HasIsHolds(row.roles[i], name);
      AssignedFrom(row.roles, Assigned(row.roles[i]));
      NamesAll(xs);
    }
  }

  lemma PrimaryLeads(row: Row, name: string)
    ensures PrimaryRole(UserOf(row).roles) == Some(name) <==> Leads(row, name)
  {
    var roles := UserOf(row).roles;
    NamesAre(row, "super_admin");
    NamesAre(row, "admin");
    NamesAre(row, "staff");
    NamesAre(row, "faculty");
    NamesAre(row, "student");
    hide HasAny, UserOf;
    FirstSupported(roles, name);
  }

  lemma FirstSupported(roles: seq<string>, name: string)
    ensures PrimaryRole(roles) == Some(name) <==>
      && name in roles && name in {"super_admin", "admin", "staff", "faculty", "student"}
      && (name != "super_admin" ==> "super_admin" !in roles)
      && (name !in {"super_admin", "admin"} ==> "admin" !in roles)
      && (name in {"faculty", "student"} ==> "staff" !in roles)
      && (name == "student" ==> "faculty" !in roles)
  {
    assert PrimaryFrom(roles, 5) == None;
    assert PrimaryFrom(roles, 4) == if "student" in roles then Some("student") else None;
    assert PrimaryFrom(roles, 3) == if "faculty" in roles then Some("faculty") else PrimaryFrom(roles, 4);
    assert PrimaryFrom(roles, 2) == if "staff" in roles then Some("staff") else PrimaryFrom(roles, 3);
    assert PrimaryFrom(roles, 1) == if "admin" in roles then Some("admin") else PrimaryFrom(roles, 2);
    assert PrimaryFrom(roles, 0) == if "super_admin" in roles then Some("super_admin") else PrimaryFrom(roles, 1);
  }

  // The current user -----------------------------------------------------------------------------------

  ghost predicate HasAt(row: Row, name: string, scope: ScopeKey) {
    exists i | 0 <= i < |row.roles| ::
      Has(row.roles[i], name) && (row.roles[i].scopeType, row.roles[i].scopeId) == scope
  }

  /** The account has the role at this scope and at no other. */
  ghost predicate OnlyAt(row: Row, name: string, scope: ScopeKey) {
    HasAt(row, name, scope) && forall other | HasAt(row, name, other) :: other == scope
  }

  /** Scopes that are looked at: the platform, and organizations and institutions with an identifier. */
  predicate Counts(scope: ScopeKey) {
    || scope.0 == Some("platform")
    || ((scope.0 == Some("organization") || scope.0 == Some("institution")) && scope.1.Some?)
  }

  lemma ScopesAre(row: Row, name: string, scope: ScopeKey)
    ensures scope in Scopes(UserOf(row), Some(name)) <==> HasAt(row, name, scope)
  {
    var u := UserOf(row);
    if scope in Scopes(u, Some(name)) {
      var k :| 0 <= k < |u.assignments| && Some(name) == Some(u.assignments[k].role)
        && (u.assignments[k].scopeType, u.assignments[k].scopeId) == scope;
      AssignedFrom(row.roles, u.assignments[k]);
      var i :| 0 <= i < |row.roles| && Holds(row.roles[i]) && Assigned(row.roles[i]) == u.assignments[k];
      HasIsHolds(row.roles[i], name);
    }
    if i :| 0 <= i < |row.roles| && Has(row.roles[i], name)
            && (row.roles[i].scopeType, row.roles[i].scopeId) == scope {
      HasIsHolds(row.roles[i], name);
      AssignedFrom(row.roles, Assigned(row.roles[i]));
    }
  }

  lemma SingleIsOnly(row: Row, name: string, scope: ScopeKey)
    ensures Single(UserOf(row), Some(name), scope) <==> OnlyAt(row, name, scope)
  {
    forall k
      ensures k in Scopes(UserOf(row), Some(name)) <==> HasAt(row, name, k)
    {
      ScopesAre(row, name, k);
    }
    hide HasAt, Scopes, UserOf;
  }

  /** Where the one scope is, what is given there is given, and otherwise nothing is. */
  lemma ScopeDecides(u: User, role: Option<string>, scope: ScopeKey, c: string)
    ensures Single(u, role, scope) ==> PrimaryScopePermissions(u, role) == ForScope(u, scope)
    ensures !Known(scope) ==> ForScope(u, scope) == {}
    ensures c in PrimaryScopePermissions(u, role) ==> exists k :: Single(u, role, k) && Known(k) && c in ForScope(u, k)
  {
    hide ForScope, Known, Scopes;
    if Single(u, role, scope) {
      SetOfOne(Scopes(u, role), scope);
    }
    if c in PrimaryScopePermissions(u, role) {
      var k := OneScope(u, role);
    }
    UnknownGivesNothing(u, scope);
  }

  lemma UnknownGivesNothing(u: User, scope: ScopeKey)
    ensures !Known(scope) ==> ForScope(u, scope) == {}
  {
  }

  /** Who is let in: an account that is there, active and resolved; a projected row always is resolved. */
  lemma LetIn(u: Option<User>)
    ensures CurrentUser(u) == NotFound <==> u == None
    ensures CurrentUser(u) == Inactive <==> u.Some? && u.value.status != Some("active")
    ensures CurrentUser(u) == Forbidden <==> u.Some? && u.value.status == Some("active") && !u.value.resolved
    ensures CurrentUser(u).Allowed? <==> u.Some? && u.value.status == Some("active") && u.value.resolved
    ensures CurrentUser(u).Allowed? ==> CurrentUser(u).user.roles == u.value.roles
  {
  }

  /** An active account is given a code exactly if it has a leading role at one counted scope only and the row gives
      the code there. */
  lemma GivenIff(row: Row, c: string)
    requires row.status == Some("active")
    ensures CurrentUser(Some(UserOf(row))).Allowed?
    ensures c in CurrentUser(Some(UserOf(row))).user.permissions <==>
      exists name, scope :: Leads(row, name) && OnlyAt(row, name, scope) && Counts(scope) && Gives(row, scope, c)
  {
    var u := UserOf(row);
    var role := PrimaryRole(u.roles);
    if c in PrimaryScopePermissions(u, role) {
      ScopeDecides(u, role, (None, None), c);
      var k :| Single(u, role, k) && Known(k) && c in ForScope(u, k);
      assert role.Some? by { RoleThere(u, role, k); }
      Decided(row, role.value, k, c);
    }
    forall name, scope | Leads(row, name) && OnlyAt(row, name, scope) && Counts(scope) && Gives(row, scope, c)
      ensures c in PrimaryScopePermissions(u, role)
    {
      Decided(row, name, scope, c);
      ScopeDecides(u, role, scope, c);
    }
  }

  lemma RoleThere(u: User, role: Option<string>, scope: ScopeKey)
    requires Single(u, role, scope)
    ensures role.Some?
  {
    assert scope in Scopes(u, role);
  }

  lemma Decided(row: Row, name: string, scope: ScopeKey, c: string)
    ensures PrimaryRole(UserOf(row).roles) == Some(name) <==> Leads(row, name)
    ensures Single(UserOf(row), Some(name), scope) <==> OnlyAt(row, name, scope)
    ensures Known(scope) <==> Counts(scope)
    ensures Known(scope) ==> (c in ForScope(UserOf(row), scope) <==> Gives(row, scope, c))
  {
    PrimaryLeads(row, name);
    SingleIsOnly(row, name, scope);
    if Known(scope) {
      Provenance(row, scope, c);
      TracesAgree(row, scope, c);
    }
    hide Leads, OnlyAt, Gives, Traced, ForScope, Scopes, UserOf;
  }

  /** The account has the role at this institution and at no other. */
  ghost predicate OnlyInstitution(row: Row, name: string, id: string) {
    HasAt(row, name, (Some("institution"), Some(id)))
    && forall other | HasAt(row, name, (Some("institution"), Some(other))) :: other == id
  }

  lemma InstitutionsAre(row: Row, name: string, id: string)
    ensures id in Institutions(UserOf(row), Some(name)) <==> HasAt(row, name, (Some("institution"), Some(id)))
  {
    ByScope(UserOf(row), Some(name), id);
    ScopesAre(row, name, (Some("institution"), Some(id)));
    hide Institutions, Scopes, HasAt, UserOf;
  }

  lemma OneOnly(row: Row, name: string, id: string)
    ensures OnlyInstitution(row, name, id) <==> Institutions(UserOf(row), Some(name)) == {id}
  {
    forall x
      ensures x in Institutions(UserOf(row), Some(name)) <==> HasAt(row, name, (Some("institution"), Some(x)))
    {
      InstitutionsAre(row, name, x);
    }
    hide Institutions, HasAt, UserOf;
  }

  /** The tenant is the one institution at which the account has its leading role; with none or several it is that of a
      student's profile, and only for students. */
  lemma TenantIs(row: Row, name: string)
    requires row.status == Some("active") && Leads(row, name)
    ensures CurrentUser(Some(UserOf(row))).Allowed?
    ensures var tenant := CurrentUser(Some(UserOf(row))).user.tenant;
      && (forall id | OnlyInstitution(row, name, id) :: tenant == Some(id))
      && ((forall id :: !OnlyInstitution(row, name, id)) ==>
            tenant == if name == "student" && row.students != [] then row.students[0] else None)
  {
    var u := UserOf(row);
    PrimaryLeads(row, name);
    var ids := Institutions(u, Some(name));
    forall id
      ensures OnlyInstitution(row, name, id) <==> ids == {id}
    {
      OneOnly(row, name, id);
    }
    hide OnlyInstitution, Institutions, Leads, Assignments, Directs;
    if |ids| == 1 {
      var x := Only(ids);
      assert OnlyInstitution(row, name, x);
    }
  }
}
