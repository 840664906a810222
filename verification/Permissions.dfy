/** Who may do what where: from the database row to the tenant and the permissions of the current user. */
module Permissions {
  import opened Text

  // The row ------------------------------------------------------------------------------------------

  datatype Permission = Permission(code: Option<string>, active: bool, scope: Option<string>)

  datatype Role = Role(name: Option<string>, active: bool, permissions: seq<Option<Permission>>)

  datatype UserRole = UserRole(scopeType: Option<string>, scopeId: Option<string>, role: Option<Role>)

  datatype DirectGrant = DirectGrant(institution: Option<string>, revoked: bool, permission: Option<Permission>)

  datatype Row = Row(status: Option<string>, roles: seq<UserRole>, students: seq<Option<string>>,
                     grants: seq<DirectGrant>)

  // The user -----------------------------------------------------------------------------------------

  datatype Assignment = Assignment(role: string, scopeType: Option<string>, scopeId: Option<string>, codes: set<string>)

  datatype Direct = Direct(institution: Option<string>, code: string)

  datatype User = User(status: Option<string>, roles: seq<string>, student: Option<string>,
                       assignments: seq<Assignment>, effective: set<string>, direct: seq<Direct>, resolved: bool)

  /** A permission counts for a role's scope if it names it, names none, or is narrower than the platform. */
  predicate Compatible(permissionScope: Option<string>, roleScope: Option<string>) {
    || permissionScope in {None, Some("global"), Some("user"), roleScope}
    || (roleScope == Some("platform") && permissionScope in {Some("institution"), Some("organization")})
  }

  predicate Granted(p: Option<Permission>, roleScope: Option<string>) {
    p.Some? && p.value.active && p.value.code.Some? && Compatible(p.value.scope, roleScope)
  }

  predicate Holds(r: UserRole) {
    r.role.Some? && r.role.value.active && r.role.value.name.Some? && r.role.value.name.value != ""
  }

  function Codes(ps: seq<Option<Permission>>, roleScope: Option<string>): set<string> {
    set i | 0 <= i < |ps| && Granted(ps[i], roleScope) :: ps[i].value.code.value
  }

  function Assigned(r: UserRole): Assignment
    requires Holds(r)
  {
    Assignment(r.role.value.name.value, r.scopeType, r.scopeId, Codes(r.role.value.permissions, r.scopeType))
  }

  function Assignments(rs: seq<UserRole>): seq<Assignment> {
    if rs == [] then []
    else
      var last := rs[|rs| - 1];
      Assignments(rs[..|rs| - 1]) + if Holds(last) then [Assigned(last)] else []
  }

  predicate Stands(g: DirectGrant) {
    !g.revoked && g.permission.Some? && g.permission.value.active && g.permission.value.code.Some?
  }

  function Directs(gs: seq<DirectGrant>): seq<Direct> {
    if gs == [] then []
    else
      var last := gs[|gs| - 1];
      Directs(gs[..|gs| - 1])
      + if Stands(last) then [Direct(last.institution, last.permission.value.code.value)] else []
  }

  function Names(xs: seq<Assignment>): seq<string> {
    seq(|xs|, i requires 0 <= i < |xs| => xs[i].role)
  }

  function AllCodes(xs: seq<Assignment>): set<string> {
    set i, c | 0 <= i < |xs| && c in xs[i].codes :: c
  }

  function UserOf(row: Row): User {
    var xs := Assignments(row.roles);
    User(row.status, Names(xs), if row.students == [] then None else row.students[0], xs, AllCodes(xs),
         Directs(row.grants), true)
  }

  /** The projection as the repository computes it, list by list. */
  method Project(row: Row) returns (user: User)
    ensures user == UserOf(row)
  {
    var xs: seq<Assignment>, effective: set<string> := [], {};
    for i := 0 to |row.roles|
      invariant xs == Assignments(row.roles[..i]) && effective == AllCodes(xs)
    {
      assert row.roles[..i + 1][..i] == row.roles[..i];
      var grant := row.roles[i];
      if Holds(grant) {
        var ps, codes := grant.role.value.permissions, {};
        for k := 0 to |ps|
          invariant codes == Codes(ps[..k], grant.scopeType)
        {
          CodesMore(ps, k, grant.scopeType);
          if Granted(ps[k], grant.scopeType) {
            codes := codes + {ps[k].value.code.value};
          }
        }
        assert ps[..|ps|] == ps;
        AllCodesMore(xs, Assigned(grant));
        effective := effective + codes;
        xs := xs + [Assignment(grant.role.value.name.value, grant.scopeType, grant.scopeId, codes)];
      }
    }
    assert row.roles[..|row.roles|] == row.roles;
    var direct: seq<Direct> := [];
    for i := 0 to |row.grants|
      invariant direct == Directs(row.grants[..i])
    {
      assert row.grants[..i + 1][..i] == row.grants[..i];
      var grant := row.grants[i];
      if Stands(grant) {
        direct := direct + [Direct(grant.institution, grant.permission.value.code.value)];
      }
    }
    assert row.grants[..|row.grants|] == row.grants;
    user := User(row.status, Names(xs), if row.students == [] then None else row.students[0], xs, effective, direct,
                 true);
  }

  lemma CodesMore(ps: seq<Option<Permission>>, k: nat, roleScope: Option<string>)
    requires k < |ps|
    ensures Codes(ps[..k + 1], roleScope)
      == Codes(ps[..k], roleScope) + if Granted(ps[k], roleScope) then {ps[k].value.code.value} else {}
  {
    var a, b := ps[..k], ps[..k + 1];
    assert forall i | 0 <= i < k :: a[i] == b[i];
    forall c | c in Codes(a, roleScope)
      ensures c in Codes(b, roleScope)
    {
      var i :| 0 <= i < |a| && Granted(a[i], roleScope) && a[i].value.code.value == c;
      assert Granted(b[i], roleScope);
    }
    if Granted(ps[k], roleScope) {
      assert Granted(b[k], roleScope);
    }
  }

  lemma AllCodesMore(xs: seq<Assignment>, x: Assignment)
    ensures AllCodes(xs + [x]) == AllCodes(xs) + x.codes
  {
    var ys := xs + [x];
    assert forall i | 0 <= i < |xs| :: ys[i] == xs[i];
    assert ys[|xs|] == x;
    forall c | c in AllCodes(xs)
      ensures c in AllCodes(ys)
    {
      var i :| 0 <= i < |xs| && c in xs[i].codes;
      assert c in ys[i].codes;
    }
    assert forall c | c in x.codes :: c in ys[|xs|].codes;
  }

  // The primary role ---------------------------------------------------------------------------------

  const SUPPORTED: seq<string> := ["super_admin", "admin", "staff", "faculty", "student"]

  /** The first supported role that the account holds. */
  function PrimaryFrom(roles: seq<string>, n: nat): (r: Option<string>)
    requires n <= |SUPPORTED|
    ensures r.Some? ==> exists k | n <= k < |SUPPORTED| ::
      SUPPORTED[k] == r.value && r.value in roles && forall j | n <= j < k :: SUPPORTED[j] !in roles
    ensures r == None ==> forall k | n <= k < |SUPPORTED| :: SUPPORTED[k] !in roles
    decreases |SUPPORTED| - n
  {
    if n == |SUPPORTED| then None
    else if SUPPORTED[n] in roles then Some(SUPPORTED[n])
    else PrimaryFrom(roles, n + 1)
  }

  function PrimaryRole(roles: seq<string>): Option<string> {
    PrimaryFrom(roles, 0)
  }

  // Permissions of one scope -------------------------------------------------------------------------

  type ScopeKey = (Option<string>, Option<string>)

  /** Python's str of an identifier: a missing one reads like the text None. */
  function Str(id: Option<string>): string {
    if id == None then "None" else id.value
  }

  predicate AtScope(x: Assignment, scope: ScopeKey) {
    x.scopeType == scope.0 && Str(x.scopeId) == Str(scope.1)
  }

  predicate Known(scope: ScopeKey) {
    && scope.0 in {Some("platform"), Some("organization"), Some("institution")}
    && (scope.0 != Some("platform") ==> scope.1.Some?)
  }

  function ForScope(u: User, scope: ScopeKey): set<string> {
    if !u.resolved || !Known(scope) then {}
    else
      var grants := set i | 0 <= i < |u.assignments| && u.assignments[i].role in u.roles
                              && AtScope(u.assignments[i], scope)
                      :: u.assignments[i];
      var codes := set x, c | x in grants && c in x.codes :: c;
      if scope.0 == Some("institution") && exists x | x in grants :: x.role == "staff"
      then codes + set i | 0 <= i < |u.direct| && Str(u.direct[i].institution) == Str(scope.1) :: u.direct[i].code
      else codes
  }

  /** The scopes in which the account holds a role. */
  function Scopes(u: User, role: Option<string>): set<ScopeKey> {
    set i | 0 <= i < |u.assignments| && role == Some(u.assignments[i].role) ::
      (u.assignments[i].scopeType, u.assignments[i].scopeId)
  }

  ghost predicate Single(u: User, role: Option<string>, scope: ScopeKey) {
    Scopes(u, role) == {scope}
  }

  function Only<T>(s: set<T>): (x: T)
    requires |s| == 1
    ensures s == {x}
  {
    SingletonIs(s);
    var x :| x in s;
    x
  }

  lemma SingletonIs<T>(s: set<T>)
    requires |s| == 1
    ensures forall x, y | x in s && y in s :: x == y
    ensures exists x :: x in s
  {
    var x :| x in s;
    assert s == {x} + (s - {x}) && |s - {x}| == 0;
  }

  function PrimaryScopePermissions(u: User, role: Option<string>): set<string> {
    var scopes := Scopes(u, role);
    if |scopes| != 1 then {} else ForScope(u, Only(scopes))
  }

  // The current user ---------------------------------------------------------------------------------

  datatype Current = Current(tenant: Option<string>, permissions: set<string>, roles: seq<string>)

  datatype Access = Allowed(user: Current) | NotFound | Inactive | Forbidden

  function Institutions(u: User, role: Option<string>): set<string> {
    set i | 0 <= i < |u.assignments| && role == Some(u.assignments[i].role)
            && u.assignments[i].scopeType == Some("institution") && u.assignments[i].scopeId.Some? ::
      u.assignments[i].scopeId.value
  }

  function Tenant(u: User, role: Option<string>): Option<string> {
    var ids := Institutions(u, role);
    if |ids| == 1 then Some(Only(ids)) else if role == Some("student") then u.student else None
  }

  function CurrentUser(u: Option<User>): Access {
    if u == None then NotFound
    else if u.value.status != Some("active") then Inactive
    else if !u.value.resolved then Forbidden
    else
      var primary := PrimaryRole(u.value.roles);
      Allowed(Current(Tenant(u.value, primary), PrimaryScopePermissions(u.value, primary), u.value.roles))
  }

  // Tenant and permissions ---------------------------------------------------------------------------

  lemma OneScope(u: User, role: Option<string>) returns (scope: ScopeKey)
    requires PrimaryScopePermissions(u, role) != {}
    ensures Single(u, role, scope) && Known(scope) && PrimaryScopePermissions(u, role) == ForScope(u, scope)
  {
    scope := Only(Scopes(u, role));
  }

  lemma SetOfOne<T>(s: set<T>, x: T)
    requires s == {x}
    ensures |s| == 1 && Only(s) == x
  {
  }

  /** With one scope that is an institution, that institution is the tenant; otherwise no institution is. */
  lemma InstitutionsOf(u: User, role: Option<string>, scope: ScopeKey)
    requires Single(u, role, scope)
    ensures Institutions(u, role)
      == if scope.0 == Some("institution") && scope.1.Some? then {scope.1.value} else {}
  {
    var ids := Institutions(u, role);
    forall i | 0 <= i < |u.assignments| && role == Some(u.assignments[i].role)
      ensures (u.assignments[i].scopeType, u.assignments[i].scopeId) == scope
    {
      assert (u.assignments[i].scopeType, u.assignments[i].scopeId) in Scopes(u, role);
    }
    assert scope in Scopes(u, role);
    var i :| 0 <= i < |u.assignments| && role == Some(u.assignments[i].role)
      && (u.assignments[i].scopeType, u.assignments[i].scopeId) == scope;
    if scope.0 == Some("institution") && scope.1.Some? {
      assert u.assignments[i].scopeId.value in ids;
    }
  }

  /** Whoever is given any permission has exactly one scope of the primary role; if it is an institution it is
      the reported tenant, and otherwise only a student's profile supplies one. */
  lemma TenantAgrees(u: User, role: Option<string>) returns (scope: ScopeKey)
    requires PrimaryScopePermissions(u, role) != {}
    ensures Single(u, role, scope) && Known(scope) && PrimaryScopePermissions(u, role) == ForScope(u, scope)
    ensures scope.0 == Some("institution") ==> Tenant(u, role) == scope.1
    ensures scope.0 != Some("institution") ==> Tenant(u, role) == if role == Some("student") then u.student else None
  {
    scope := OneScope(u, role);
    InstitutionsOf(u, role, scope);
    if scope.0 == Some("institution") {
      SetOfOne(Institutions(u, role), scope.1.value);
    }
  }

  // Provenance ---------------------------------------------------------------------------------------

  lemma {:induction false} AssignedFrom(rs: seq<UserRole>, x: Assignment)
    ensures x in Assignments(rs) <==> exists i | 0 <= i < |rs| :: Holds(rs[i]) && Assigned(rs[i]) == x
  {
    if rs != [] {
      var p, last := rs[..|rs| - 1], rs[|rs| - 1];
      AssignedFrom(p, x);
      if x in Assignments(p) {
        var i :| 0 <= i < |p| && Holds(p[i]) && Assigned(p[i]) == x;
        assert Holds(rs[i]) && Assigned(rs[i]) == x;
      }
    }
  }

  lemma {:induction false} DirectFrom(gs: seq<DirectGrant>, d: Direct)
    ensures d in Directs(gs) <==> exists i | 0 <= i < |gs| :: IsDirect(gs[i], d)
  {
    if gs != [] {
      var p, last := gs[..|gs| - 1], gs[|gs| - 1];
      assert d in Directs(gs) <==> d in Directs(p) || IsDirect(last, d);
      DirectFrom(p, d);
      hide Directs, IsDirect;
      if i :| 0 <= i < |p| && IsDirect(p[i], d) {
        assert IsDirect(gs[i], d);
      }
      if i :| 0 <= i < |gs| && IsDirect(gs[i], d) {
        assert i == |gs| - 1 || IsDirect(p[i], d);
      }
    }
  }

  predicate IsDirect(g: DirectGrant, d: Direct) {
    Stands(g) && d == Direct(g.institution, g.permission.value.code.value)
  }

  /** An active role of the row at the scope gives the code by an active, compatible permission. */
  predicate GivenByRole(r: UserRole, scope: ScopeKey, c: string) {
    && Holds(r) && r.scopeType == scope.0 && Str(r.scopeId) == Str(scope.1)
    && c in Codes(r.role.value.permissions, r.scopeType)
  }

  predicate StaffAt(r: UserRole, scope: ScopeKey) {
    Holds(r) && r.role.value.name == Some("staff") && r.scopeType == scope.0 && Str(r.scopeId) == Str(scope.1)
  }

  /** An unrevoked grant of an active permission to the account itself, at the institution. */
  predicate GivenDirectly(g: DirectGrant, scope: ScopeKey, c: string) {
    Stands(g) && Str(g.institution) == Str(scope.1) && g.permission.value.code.value == c
  }

  ghost predicate Traced(row: Row, scope: ScopeKey, c: string) {
    || (exists r | r in row.roles :: GivenByRole(r, scope, c))
    || (scope.0 == Some("institution") && (exists r | r in row.roles :: StaffAt(r, scope))
        && exists g | g in row.grants :: GivenDirectly(g, scope, c))
  }

  /** At a known scope the account has exactly the codes that trace to the row. */
  lemma Provenance(row: Row, scope: ScopeKey, c: string)
    requires Known(scope)
    ensures c in ForScope(UserOf(row), scope) <==> Traced(row, scope, c)
  {
    var u := UserOf(row);
    var grants := set i | 0 <= i < |u.assignments| && u.assignments[i].role in u.roles
        && AtScope(u.assignments[i], scope)
                    :: u.assignments[i];
    forall x
      ensures x in grants <==> x in u.assignments && AtScope(x, scope)
    {
      NamesAll(u.assignments);
    }
    RolesTraced(row, scope, c, grants);
    StaffTraced(row, scope, grants);
    DirectTraced(row, scope, c);
  }

  lemma NamesAll(xs: seq<Assignment>)
    ensures forall i | 0 <= i < |xs| :: xs[i].role in Names(xs)
  {
    forall i | 0 <= i < |xs|
      ensures xs[i].role in Names(xs)
    {
      assert Names(xs)[i] == xs[i].role;
    }
  }

  lemma RolesTraced(row: Row, scope: ScopeKey, c: string, grants: set<Assignment>)
    requires forall x :: x in grants <==> x in Assignments(row.roles) && AtScope(x, scope)
    ensures (exists x | x in grants :: c in x.codes) <==> exists r | r in row.roles :: GivenByRole(r, scope, c)
  {
    if x :| x in grants && c in x.codes {
      AssignedFrom(row.roles, x);
      var i :| 0 <= i < |row.roles| && Holds(row.roles[i]) && Assigned(row.roles[i]) == x;
      assert GivenByRole(row.roles[i], scope, c);
    }
    if r :| r in row.roles && GivenByRole(r, scope, c) {
      AssignedFrom(row.roles, Assigned(r));
      assert Assigned(r) in grants;
    }
  }

  lemma StaffTraced(row: Row, scope: ScopeKey, grants: set<Assignment>)
    requires forall x :: x in grants <==> x in Assignments(row.roles) && AtScope(x, scope)
    ensures (exists x | x in grants :: x.role == "staff") <==> exists r | r in row.roles :: StaffAt(r, scope)
  {
    if x :| x in grants && x.role == "staff" {
      AssignedFrom(row.roles, x);
      var i :| 0 <= i < |row.roles| && Holds(row.roles[i]) && Assigned(row.roles[i]) == x;
      assert StaffAt(row.roles[i], scope);
    }
    if r :| r in row.roles && StaffAt(r, scope) {
      AssignedFrom(row.roles, Assigned(r));
      assert Assigned(r) in grants;
    }
  }

  lemma DirectTraced(row: Row, scope: ScopeKey, c: string)
    ensures var ds := Directs(row.grants);
      (exists i | 0 <= i < |ds| :: Str(ds[i].institution) == Str(scope.1) && ds[i].code == c)
      <==> exists g | g in row.grants :: GivenDirectly(g, scope, c)
  {
    var ds := Directs(row.grants);
    if i :| 0 <= i < |ds| && Str(ds[i].institution) == Str(scope.1) && ds[i].code == c {
      DirectFrom(row.grants, ds[i]);
      var j :| 0 <= j < |row.grants| && IsDirect(row.grants[j], ds[i]);
      assert GivenDirectly(row.grants[j], scope, c);
    }
    if g :| g in row.grants && GivenDirectly(g, scope, c) {
      var j :| 0 <= j < |row.grants| && row.grants[j] == g;
      assert IsDirect(row.grants[j], Direct(g.institution, c));
      DirectFrom(row.grants, Direct(g.institution, c));
    }
  }

  /** The current user of a row: every permission it is given traces to an active role or a staff grant at the one
      scope of its primary role, and everything that traces there is given. */
  lemma CurrentTraced(row: Row, c: string) returns (scope: ScopeKey)
    requires CurrentUser(Some(UserOf(row))).Allowed? && CurrentUser(Some(UserOf(row))).user.permissions != {}
    ensures var u := UserOf(row);
      var me := CurrentUser(Some(u)).user;
      && Single(u, PrimaryRole(u.roles), scope) && Known(scope)
      && (c in me.permissions <==> Traced(row, scope, c))
      && me.tenant == if scope.0 == Some("institution") then scope.1
                      else if PrimaryRole(u.roles) == Some("student") then u.student else None
  {
    var u := UserOf(row);
    scope := TenantAgrees(u, PrimaryRole(u.roles));
    Provenance(row, scope, c);
  }

  // Other scopes do not matter -----------------------------------------------------------------------

  /** Two users that differ only in what they hold at other scopes. */
  ghost predicate SameAt(u: User, v: User, scope: ScopeKey) {
    && u.resolved == v.resolved && (forall r: string :: r in u.roles <==> r in v.roles)
    && (forall x: Assignment :: AtScope(x, scope) ==> (x in u.assignments <==> x in v.assignments))
    && (forall d: Direct :: Str(d.institution) == Str(scope.1) ==> (d in u.direct <==> d in v.direct))
  }

  lemma ScopeOnly(u: User, v: User, scope: ScopeKey)
    requires SameAt(u, v, scope)
    ensures ForScope(u, scope) == ForScope(v, scope)
  {
    forall w, z | {w, z} == {u, v}
      ensures forall c | c in ForScope(w, scope) :: c in ForScope(z, scope)
    {
      OneWay(w, z, scope);
    }
    assert {u, v} == {v, u};
  }

  lemma OneWay(u: User, v: User, scope: ScopeKey)
    requires SameAt(u, v, scope)
    ensures forall c | c in ForScope(u, scope) :: c in ForScope(v, scope)
  {
    if u.resolved && Known(scope) {
      var mine := set i | 0 <= i < |u.assignments| && u.assignments[i].role in u.roles
          && AtScope(u.assignments[i], scope)
                    :: u.assignments[i];
      var yours := set i | 0 <= i < |v.assignments| && v.assignments[i].role in v.roles
          && AtScope(v.assignments[i], scope)
                     :: v.assignments[i];
      forall x | x in mine
        ensures x in yours
      {
        assert x in u.assignments && x in v.assignments;
      }
      forall d | d in u.direct && Str(d.institution) == Str(scope.1)
        ensures d in v.direct
      {
      }
    }
  }

  /** With the same role names and the same scopes of the primary role, what the account holds elsewhere changes
      neither its permissions nor its tenant. */
  lemma OtherScopesIrrelevant(u: User, v: User)
    requires u.status == v.status && u.student == v.student && u.resolved == v.resolved && u.roles == v.roles
    requires var role := PrimaryRole(u.roles);
      && Scopes(u, role) == Scopes(v, role)
      && forall scope | scope in Scopes(u, role) :: SameAt(u, v, scope)
    ensures CurrentUser(Some(u)) == CurrentUser(Some(v))
  {
    var role := PrimaryRole(u.roles);
    SameInstitutions(u, v, role);
    if |Scopes(u, role)| == 1 {
      ScopeOnly(u, v, Only(Scopes(u, role)));
    }
  }

  lemma SameInstitutions(u: User, v: User, role: Option<string>)
    requires Scopes(u, role) == Scopes(v, role)
    ensures Institutions(u, role) == Institutions(v, role)
  {
    forall id
      ensures id in Institutions(u, role) <==> (Some("institution"), Some(id)) in Scopes(u, role)
      ensures id in Institutions(v, role) <==> (Some("institution"), Some(id)) in Scopes(v, role)
    {
      ByScope(u, role, id);
      ByScope(v, role, id);
    }
  }

  lemma ByScope(u: User, role: Option<string>, id: string)
    ensures id in Institutions(u, role) <==> (Some("institution"), Some(id)) in Scopes(u, role)
  {
    if (Some("institution"), Some(id)) in Scopes(u, role) {
      var i :| 0 <= i < |u.assignments| && role == Some(u.assignments[i].role)
        && (u.assignments[i].scopeType, u.assignments[i].scopeId) == (Some("institution"), Some(id));
      assert u.assignments[i].scopeId.value in Institutions(u, role);
    }
    if id in Institutions(u, role) {
      var i :| 0 <= i < |u.assignments| && role == Some(u.assignments[i].role)
        && u.assignments[i].scopeType == Some("institution") && u.assignments[i].scopeId == Some(id);
      assert (u.assignments[i].scopeType, u.assignments[i].scopeId) in Scopes(u, role);
    }
  }
}
