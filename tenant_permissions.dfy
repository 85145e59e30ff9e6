/**
 * The DRF permission class that admits tenant administrators
 * (apps/tenancies/permissions.py).
 */
module TenantPermissions {
  import opened Values
  import opened TenantContext
  import opened TenantBackends

  /** The role name that makes its holder a tenant administrator. */
  const AdminRoleName: string := "Admin"

  /** A role-assignment row of `user` in tenant `t` whose role is named "Admin". */
  predicate HoldsAdminIn(user: User, t: Tenant, assignments: seq<UserTenantRole>)
  {
    exists a :: a in assignments && a.user == user.id && a.tenant == t.id && a.role.name == AdminRoleName
  }

  /**
   * `IsTenantAdmin.has_permission`: denied without a current tenant. With one,
   * an anonymous user makes the role query raise TypeError (its `user=`
   * lookup needs a user row's id), and an authenticated user is granted iff
   * the user has an "Admin" role row in that tenant.
   */
  function HasPermission<V>(current: Option<Tenant>, user: User, view: V, assignments: seq<UserTenantRole>): (r: Result<bool, string>)
    ensures current.None? ==> r == Ok(false)
    ensures current.Some? && !user.isAuthenticated ==> r == Err("TypeError")
    ensures current.Some? && user.isAuthenticated ==>
      r.Ok? && (r.value <==> HoldsAdminIn(user, current.value, assignments))
  {
    if current.None? then Ok(false)
    else if !user.isAuthenticated then Err("TypeError")
    else Ok(ExistsAdminRow(user, current.value, assignments))
  }

  /** `UserTenantRole.objects.filter(user=…, tenant=…, role__name="Admin").exists()`, row by row. */
  function ExistsAdminRow(user: User, t: Tenant, assignments: seq<UserTenantRole>): (found: bool)
    ensures found <==> HoldsAdminIn(user, t, assignments)
    decreases |assignments|
  {
    if assignments == [] then false
    else
      var a := assignments[0];
      var here := a.user == user.id && a.tenant == t.id && a.role.name == AdminRoleName;
      var rest := ExistsAdminRow(user, t, assignments[1..]);
      assert HoldsAdminIn(user, t, assignments) <==> here || HoldsAdminIn(user, t, assignments[1..]) by {
        assert assignments == [a] + assignments[1..];
      }
      here || rest
  }

  /** An "Admin" role held in another tenant grants nothing here. */
  lemma AdminElsewhereDoesNotCount<V>(t: Tenant, user: User, view: V, assignments: seq<UserTenantRole>,
                                      other: seq<UserTenantRole>)
    requires forall a :: a in other ==> a.tenant != t.id
    ensures HasPermission(Some(t), user, view, assignments + other) == HasPermission(Some(t), user, view, assignments)
  {
    if HoldsAdminIn(user, t, assignments + other) {
      var a :| a in assignments + other && a.user == user.id && a.tenant == t.id && a.role.name == AdminRoleName;
      assert a in assignments;
    }
  }

  /** A role named otherwise than exactly "Admin" grants nothing. */
  lemma OnlyExactAdminName<V>(t: Tenant, user: User, view: V, assignments: seq<UserTenantRole>)
    requires forall a :: a in assignments ==> a.role.name != AdminRoleName
    ensures HasPermission(Some(t), user, view, assignments) != Ok(true)
  {
  }

  /** The decision ignores the view. */
  lemma ViewIgnored<V>(current: Option<Tenant>, user: User, v1: V, v2: V, assignments: seq<UserTenantRole>)
    ensures HasPermission(current, user, v1, assignments) == HasPermission(current, user, v2, assignments)
  {
  }
}
