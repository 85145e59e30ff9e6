/**
 * The authentication backend that derives a user's permissions from the
 * roles they hold in the current tenant (apps/tenancies/backends.py).  The
 * permission query is a join over the role-assignment and role-permission
 * tables, which are given as sequences of rows.
 */
module TenantBackends {
  import opened Values
  import opened TenantContext

  /** The fields of the requesting user the backend and the checks read. */
  datatype User = User(id: int, email: string, isAuthenticated: bool, isActive: bool)

  /** A role row. */
  datatype RoleRow = RoleRow(id: int, name: string)

  /** A `Permission` as the query reads it: the app label of its content type and its codename. */
  datatype Permission = Permission(appLabel: string, codename: string)

  /** A row of `user_tenant_roles`. */
  datatype UserTenantRole = UserTenantRole(user: int, tenant: int, role: RoleRow)

  /** A row of `role_permissions`. */
  datatype RolePermission = RolePermission(role: int, permission: Permission)

  /** `f"{app}.{codename}"`. */
  function Render(p: Permission): (s: string)
    ensures |s| == |p.appLabel| + 1 + |p.codename|
    ensures s[..|p.appLabel|] == p.appLabel && s[|p.appLabel|] == '.' && s[|p.appLabel| + 1..] == p.codename
  {
    p.appLabel + "." + p.codename
  }

  /** An app label is a Python identifier, so it never holds a dot. */
  predicate DotFreeLabel(p: Permission)
  {
    '.' !in p.appLabel
  }

  /** The position of the first dot of `s`, or `|s|` when there is none. */
  function FirstDot(s: string): (i: nat)
    ensures i <= |s|
    ensures forall k :: 0 <= k < i ==> s[k] != '.'
    ensures i < |s| ==> s[i] == '.'
  {
    if s == [] then 0
    else if s[0] == '.' then 0
    else 1 + FirstDot(s[1..])
  }

  /** In "label.codename" with a dot-free label, the first dot ends the label. */
  lemma FirstDotOfRender(p: Permission)
    requires DotFreeLabel(p)
    ensures FirstDot(Render(p)) == |p.appLabel|
  {
    var s := Render(p);
    var i := FirstDot(s);
    assert s[|p.appLabel|] == '.';
    assert forall k :: 0 <= k < |p.appLabel| ==> s[k] == p.appLabel[k] && s[k] != '.';
  }

  /** With dot-free app labels, the rendered string names exactly one permission. */
  lemma RenderInjective(p: Permission, q: Permission)
    requires DotFreeLabel(p) && DotFreeLabel(q)
    requires Render(p) == Render(q)
    ensures p == q
  {
    var s := Render(p);
    FirstDotOfRender(p);
    FirstDotOfRender(q);
    assert p.appLabel == s[..|p.appLabel|] == q.appLabel;
    assert p.codename == s[|p.appLabel| + 1..] == q.codename;
  }

  /** The user holds a role in tenant `t` that grants `p`. */
  predicate GrantedIn(user: User, t: Tenant, assignments: seq<UserTenantRole>, grants: seq<RolePermission>, p: Permission)
  {
    exists a, g :: a in assignments && g in grants &&
      a.user == user.id && a.tenant == t.id && g.role == a.role.id && g.permission == p
  }

  /** The permissions the user reaches through roles in tenant `t`. */
  function PermissionsIn(user: User, t: Tenant, assignments: seq<UserTenantRole>, grants: seq<RolePermission>): (ps: set<Permission>)
    ensures forall p :: p in ps <==> GrantedIn(user, t, assignments, grants, p)
  {
    set a, g | a in assignments && g in grants && a.user == user.id && a.tenant == t.id && g.role == a.role.id
      :: g.permission
  }

  /** `authenticate`: the user argument, unchanged. */
  function Authenticate<Q>(request: Q, user: Option<User>): (r: Option<User>)
    ensures r == user
  {
    user
  }

  /**
   * `get_user_permissions`: empty with no current tenant or an anonymous
   * user; otherwise "app_label.codename" for each permission on a role the
   * user holds in the current tenant, and nothing else.
   */
  function GetUserPermissions(current: Option<Tenant>, user: User,
                              assignments: seq<UserTenantRole>, grants: seq<RolePermission>): (r: set<string>)
    ensures current.None? || !user.isAuthenticated ==> r == {}
    ensures current.Some? && user.isAuthenticated ==>
      forall s :: s in r <==> exists p :: GrantedIn(user, current.value, assignments, grants, p) && s == Render(p)
  {
    if current.None? || !user.isAuthenticated then {}
    else set p | p in PermissionsIn(user, current.value, assignments, grants) :: Render(p)
  }

  /** `get_group_permissions`: always empty. */
  function GetGroupPermissions(user: User): (r: set<string>)
    ensures r == {}
  {
    {}
  }

  /** Role assignments in other tenants do not change the result. */
  lemma OtherTenantsIrrelevant(t: Tenant, user: User, assignments: seq<UserTenantRole>,
                               other: seq<UserTenantRole>, grants: seq<RolePermission>)
    requires forall a :: a in other ==> a.tenant != t.id
    ensures GetUserPermissions(Some(t), user, assignments + other, grants) ==
            GetUserPermissions(Some(t), user, assignments, grants)
  {
    forall p ensures GrantedIn(user, t, assignments + other, grants, p) <==> GrantedIn(user, t, assignments, grants, p) {
      if GrantedIn(user, t, assignments + other, grants, p) {
        var a, g :| a in assignments + other && g in grants &&
          a.user == user.id && a.tenant == t.id && g.role == a.role.id && g.permission == p;
        assert a in assignments;
      }
    }
  }

  /**
   * The result holds one string per distinct permission reached, however
   * many roles reach it, when the app labels are dot-free.
   */
  lemma OneStringPerPermission(t: Tenant, user: User, assignments: seq<UserTenantRole>, grants: seq<RolePermission>)
    requires user.isAuthenticated
    requires forall g :: g in grants ==> DotFreeLabel(g.permission)
    ensures |GetUserPermissions(Some(t), user, assignments, grants)| == |PermissionsIn(user, t, assignments, grants)|
  {
    var ps := PermissionsIn(user, t, assignments, grants);
    var r := GetUserPermissions(Some(t), user, assignments, grants);
    forall p | p in ps ensures DotFreeLabel(p) {
      var a, g :| a in assignments && g in grants &&
        a.user == user.id && a.tenant == t.id && g.role == a.role.id && g.permission == p;
    }
    ImageSize(ps);
  }

  /** The rendering of a set of dot-free permissions has as many strings as permissions. */
  lemma {:induction false} ImageSize(ps: set<Permission>)
    requires forall p :: p in ps ==> DotFreeLabel(p)
    ensures |set p | p in ps :: Render(p)| == |ps|
    decreases |ps|
  {
    if ps != {} {
      var p :| p in ps;
      var rest := ps - {p};
      ImageSize(rest);
      var img := set q | q in ps :: Render(q);
      var imgRest := set q | q in rest :: Render(q);
      assert img == imgRest + {Render(p)};
      if Render(p) in imgRest {
        var q :| q in rest && Render(q) == Render(p);
        RenderInjective(p, q);
        assert false;
      }
    }
  }
}
