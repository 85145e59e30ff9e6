/**
 * The two static permission tables read by the permission bootstrap
 * (apps/authentication/utils.py): which model every permission codename
 * belongs to, and which codenames every system group is granted.
 *
 * Codenames are the 87 keys of the codename-to-model table.  Each one is a
 * named constant of type `Codename`, and `Text` gives the codename string
 * itself.  The constants are numbered so that every group's list is in
 * ascending order.  This makes "no group lists a codename twice" a check
 * over neighbouring entries, which the verifier can do cheaply.  A group
 * list can only name a declared constant, so "every codename of every group
 * has a mapped model" holds by construction; lemma `EveryGroupCodenameMapped`
 * states it in terms of the map.
 */
module PermissionTables {

  /** The model classes that permissions are attached to (through their content type). */
  datatype ModelName =
      Tenant
    | TenantConfiguration
    | TenantAuditPolicy
    | User
    | Department
    | Plan
    | Feature
    | PlanPrice
    | FeatureTier
    | Subscription
    | Coupon
    | SubscriptionDiscount
    | Role
    | Invitation
    | Invoice
    | Payment
    | PaymentMethod
    | CreditTransaction
    | CreditLedger
    | UsageRecord
    | AuditLog
    | SensitiveAccessLog

  /** A permission codename: one of the keys of the codename-to-model table. */
  newtype Codename = c: int | 0 <= c < 87

  const add_tenant: Codename := 0
  const change_tenant: Codename := 1
  const delete_tenant: Codename := 2
  const view_tenant: Codename := 3
  const suspend_tenant: Codename := 4
  const reactivate_tenant: Codename := 5
  const access_all_tenants_data: Codename := 6
  const change_tenantconfiguration: Codename := 7
  const view_tenantconfiguration: Codename := 8
  const change_tenantauditpolicy: Codename := 9
  const view_tenantauditpolicy: Codename := 10
  const add_department: Codename := 11
  const change_department: Codename := 12
  const delete_department: Codename := 13
  const view_department: Codename := 14
  const add_subscription: Codename := 15
  const delete_subscription: Codename := 16
  const override_tenant_subscription: Codename := 17
  const add_plan: Codename := 18
  const change_plan: Codename := 19
  const delete_plan: Codename := 20
  const view_plan: Codename := 21
  const add_feature: Codename := 22
  const change_feature: Codename := 23
  const delete_feature: Codename := 24
  const view_feature: Codename := 25
  const add_planprice: Codename := 26
  const change_planprice: Codename := 27
  const delete_planprice: Codename := 28
  const view_planprice: Codename := 29
  const add_featuretier: Codename := 30
  const change_featuretier: Codename := 31
  const delete_featuretier: Codename := 32
  const view_featuretier: Codename := 33
  const add_coupon: Codename := 34
  const change_coupon: Codename := 35
  const delete_coupon: Codename := 36
  const view_coupon: Codename := 37
  const impersonate_tenant_user: Codename := 38
  const add_subscriptiondiscount: Codename := 39
  const delete_subscriptiondiscount: Codename := 40
  const view_subscriptiondiscount: Codename := 41
  const change_subscription: Codename := 42
  const view_subscription: Codename := 43
  const add_user: Codename := 44
  const change_user: Codename := 45
  const delete_user: Codename := 46
  const view_user: Codename := 47
  const add_role: Codename := 48
  const change_role: Codename := 49
  const delete_role: Codename := 50
  const view_role: Codename := 51
  const assign_role: Codename := 52
  const add_invitation: Codename := 53
  const change_invitation: Codename := 54
  const delete_invitation: Codename := 55
  const view_invitation: Codename := 56
  const add_invoice: Codename := 57
  const change_invoice: Codename := 58
  const delete_invoice: Codename := 59
  const view_invoice: Codename := 60
  const download_invoice: Codename := 61
  const add_payment: Codename := 62
  const change_payment: Codename := 63
  const delete_payment: Codename := 64
  const view_payment: Codename := 65
  const add_paymentmethod: Codename := 66
  const change_paymentmethod: Codename := 67
  const delete_paymentmethod: Codename := 68
  const view_paymentmethod: Codename := 69
  const add_credittransaction: Codename := 70
  const view_credittransaction: Codename := 71
  const view_creditledger: Codename := 72
  const add_usagerecord: Codename := 73
  const view_usagerecord: Codename := 74
  const manage_deployments: Codename := 75
  const run_data_migrations: Codename := 76
  const toggle_feature_flags: Codename := 77
  const view_platform_dashboard: Codename := 78
  const view_global_financial_reports: Codename := 79
  const view_auditlog: Codename := 80
  const export_auditlog: Codename := 81
  const view_sensitiveaccesslog: Codename := 82
  const add_creditledger: Codename := 83
  const add_supportticket: Codename := 84
  const view_supportticket: Codename := 85
  const manage_knowledgebase: Codename := 86

  /** The codename string (the `codename` column of the permission). */
  function Text(c: Codename): string
  {
    if c == add_tenant then "add_tenant"
    else if c == change_tenant then "change_tenant"
    else if c == delete_tenant then "delete_tenant"
    else if c == view_tenant then "view_tenant"
    else if c == suspend_tenant then "suspend_tenant"
    else if c == reactivate_tenant then "reactivate_tenant"
    else if c == access_all_tenants_data then "access_all_tenants_data"
    else if c == change_tenantconfiguration then "change_tenantconfiguration"
    else if c == view_tenantconfiguration then "view_tenantconfiguration"
    else if c == change_tenantauditpolicy then "change_tenantauditpolicy"
    else if c == view_tenantauditpolicy then "view_tenantauditpolicy"
    else if c == add_department then "add_department"
    else if c == change_department then "change_department"
    else if c == delete_department then "delete_department"
    else if c == view_department then "view_department"
    else if c == add_subscription then "add_subscription"
    else if c == delete_subscription then "delete_subscription"
    else if c == override_tenant_subscription then "override_tenant_subscription"
    else if c == add_plan then "add_plan"
    else if c == change_plan then "change_plan"
    else if c == delete_plan then "delete_plan"
    else if c == view_plan then "view_plan"
    else if c == add_feature then "add_feature"
    else if c == change_feature then "change_feature"
    else if c == delete_feature then "delete_feature"
    else if c == view_feature then "view_feature"
    else if c == add_planprice then "add_planprice"
    else if c == change_planprice then "change_planprice"
    else if c == delete_planprice then "delete_planprice"
    else if c == view_planprice then "view_planprice"
    else if c == add_featuretier then "add_featuretier"
    else if c == change_featuretier then "change_featuretier"
    else if c == delete_featuretier then "delete_featuretier"
    else if c == view_featuretier then "view_featuretier"
    else if c == add_coupon then "add_coupon"
    else if c == change_coupon then "change_coupon"
    else if c == delete_coupon then "delete_coupon"
    else if c == view_coupon then "view_coupon"
    else if c == impersonate_tenant_user then "impersonate_tenant_user"
    else if c == add_subscriptiondiscount then "add_subscriptiondiscount"
    else if c == delete_subscriptiondiscount then "delete_subscriptiondiscount"
    else if c == view_subscriptiondiscount then "view_subscriptiondiscount"
    else if c == change_subscription then "change_subscription"
    else if c == view_subscription then "view_subscription"
    else if c == add_user then "add_user"
    else if c == change_user then "change_user"
    else if c == delete_user then "delete_user"
    else if c == view_user then "view_user"
    else if c == add_role then "add_role"
    else if c == change_role then "change_role"
    else if c == delete_role then "delete_role"
    else if c == view_role then "view_role"
    else if c == assign_role then "assign_role"
    else if c == add_invitation then "add_invitation"
    else if c == change_invitation then "change_invitation"
    else if c == delete_invitation then "delete_invitation"
    else if c == view_invitation then "view_invitation"
    else if c == add_invoice then "add_invoice"
    else if c == change_invoice then "change_invoice"
    else if c == delete_invoice then "delete_invoice"
    else if c == view_invoice then "view_invoice"
    else if c == download_invoice then "download_invoice"
    else if c == add_payment then "add_payment"
    else if c == change_payment then "change_payment"
    else if c == delete_payment then "delete_payment"
    else if c == view_payment then "view_payment"
    else if c == add_paymentmethod then "add_paymentmethod"
    else if c == change_paymentmethod then "change_paymentmethod"
    else if c == delete_paymentmethod then "delete_paymentmethod"
    else if c == view_paymentmethod then "view_paymentmethod"
    else if c == add_credittransaction then "add_credittransaction"
    else if c == view_credittransaction then "view_credittransaction"
    else if c == view_creditledger then "view_creditledger"
    else if c == add_usagerecord then "add_usagerecord"
    else if c == view_usagerecord then "view_usagerecord"
    else if c == manage_deployments then "manage_deployments"
    else if c == run_data_migrations then "run_data_migrations"
    else if c == toggle_feature_flags then "toggle_feature_flags"
    else if c == view_platform_dashboard then "view_platform_dashboard"
    else if c == view_global_financial_reports then "view_global_financial_reports"
    else if c == view_auditlog then "view_auditlog"
    else if c == export_auditlog then "export_auditlog"
    else if c == view_sensitiveaccesslog then "view_sensitiveaccesslog"
    else if c == add_creditledger then "add_creditledger"
    else if c == add_supportticket then "add_supportticket"
    else if c == view_supportticket then "view_supportticket"
    else "manage_knowledgebase"
  }

  /** The model a codename is attached to, in the order of the source table. */
  function ModelOf(c: Codename): ModelName
  {
    if c == add_tenant then Tenant
    else if c == change_tenant then Tenant
    else if c == delete_tenant then Tenant
    else if c == view_tenant then Tenant
    else if c == suspend_tenant then Tenant
    else if c == reactivate_tenant then Tenant
    else if c == access_all_tenants_data then Tenant
    else if c == change_tenantconfiguration then TenantConfiguration
    else if c == view_tenantconfiguration then TenantConfiguration
    else if c == change_tenantauditpolicy then TenantAuditPolicy
    else if c == view_tenantauditpolicy then TenantAuditPolicy
    else if c == impersonate_tenant_user then User
    else if c == add_department then Department
    else if c == change_department then Department
    else if c == delete_department then Department
    else if c == view_department then Department
    else if c == add_plan then Plan
    else if c == change_plan then Plan
    else if c == delete_plan then Plan
    else if c == view_plan then Plan
    else if c == add_feature then Feature
    else if c == change_feature then Feature
    else if c == delete_feature then Feature
    else if c == view_feature then Feature
    else if c == add_planprice then PlanPrice
    else if c == change_planprice then PlanPrice
    else if c == delete_planprice then PlanPrice
    else if c == view_planprice then PlanPrice
    else if c == add_featuretier then FeatureTier
    else if c == change_featuretier then FeatureTier
    else if c == delete_featuretier then FeatureTier
    else if c == view_featuretier then FeatureTier
    else if c == add_subscription then Subscription
    else if c == change_subscription then Subscription
    else if c == delete_subscription then Subscription
    else if c == view_subscription then Subscription
    else if c == override_tenant_subscription then Subscription
    else if c == add_coupon then Coupon
    else if c == change_coupon then Coupon
    else if c == delete_coupon then Coupon
    else if c == view_coupon then Coupon
    else if c == add_subscriptiondiscount then SubscriptionDiscount
    else if c == delete_subscriptiondiscount then SubscriptionDiscount
    else if c == view_subscriptiondiscount then SubscriptionDiscount
    else if c == add_user then User
    else if c == change_user then User
    else if c == delete_user then User
    else if c == view_user then User
    else if c == add_role then Role
    else if c == change_role then Role
    else if c == delete_role then Role
    else if c == view_role then Role
    else if c == assign_role then Role
    else if c == add_invitation then Invitation
    else if c == change_invitation then Invitation
    else if c == delete_invitation then Invitation
    else if c == view_invitation then Invitation
    else if c == add_invoice then Invoice
    else if c == change_invoice then Invoice
    else if c == delete_invoice then Invoice
    else if c == view_invoice then Invoice
    else if c == download_invoice then Invoice
    else if c == add_payment then Payment
    else if c == change_payment then Payment
    else if c == delete_payment then Payment
    else if c == view_payment then Payment
    else if c == add_paymentmethod then PaymentMethod
    else if c == change_paymentmethod then PaymentMethod
    else if c == delete_paymentmethod then PaymentMethod
    else if c == view_paymentmethod then PaymentMethod
    else if c == add_credittransaction then CreditTransaction
    else if c == view_credittransaction then CreditTransaction
    else if c == add_creditledger then CreditLedger
    else if c == view_creditledger then CreditLedger
    else if c == add_usagerecord then UsageRecord
    else if c == view_usagerecord then UsageRecord
    else if c == view_auditlog then AuditLog
    else if c == export_auditlog then AuditLog
    else if c == view_sensitiveaccesslog then SensitiveAccessLog
    else if c == view_platform_dashboard then Tenant
    else if c == manage_deployments then Tenant
    else if c == run_data_migrations then Tenant
    else if c == toggle_feature_flags then Tenant
    else if c == view_global_financial_reports then Invoice
    else if c == add_supportticket then User
    else if c == view_supportticket then User
    else User
  }

  /** The codename-to-model table as a map: it has an entry for every codename. */
  function PermissionToModelMap(): (m: map<Codename, ModelName>)
    ensures forall c: Codename :: c in m && m[c] == ModelOf(c)
  {
    map c: Codename | c as int < 87 :: ModelOf(c)
  }

  /** One row of the group table: a group name and its codenames, in order. */
  datatype GroupEntry = GroupEntry(name: string, codenames: seq<Codename>)

  function PlatformAdminCodenames(): seq<Codename>
  {
    [
      add_tenant, change_tenant, delete_tenant, view_tenant,
      suspend_tenant, reactivate_tenant, access_all_tenants_data, override_tenant_subscription,
      add_plan, change_plan, delete_plan, view_plan,
      add_feature, change_feature, delete_feature, view_feature,
      add_planprice, change_planprice, delete_planprice, view_planprice,
      add_featuretier, change_featuretier, delete_featuretier, view_featuretier,
      add_coupon, change_coupon, delete_coupon, view_coupon,
      impersonate_tenant_user, manage_deployments, run_data_migrations, toggle_feature_flags,
      view_platform_dashboard, view_global_financial_reports, view_auditlog, export_auditlog,
      view_sensitiveaccesslog, add_creditledger
    ]
  }

  function PlatformSupportCodenames(): seq<Codename>
  {
    [
      view_tenant, view_subscription, view_invoice, view_payment,
      view_auditlog, add_supportticket, view_supportticket, manage_knowledgebase
    ]
  }

  function TenantOwnerCodenames(): seq<Codename>
  {
    [
      change_tenantconfiguration, view_tenantconfiguration, change_tenantauditpolicy, view_tenantauditpolicy,
      add_department, change_department, delete_department, view_department,
      view_plan, view_coupon, add_subscriptiondiscount, delete_subscriptiondiscount,
      view_subscriptiondiscount, change_subscription, view_subscription, add_user,
      change_user, delete_user, view_user, add_role,
      change_role, delete_role, view_role, assign_role,
      add_invitation, delete_invitation, view_invitation, view_invoice,
      download_invoice, view_payment, add_paymentmethod, change_paymentmethod,
      delete_paymentmethod, view_paymentmethod, view_creditledger, view_usagerecord,
      view_auditlog, add_supportticket, view_supportticket
    ]
  }

  function TenantAdminCodenames(): seq<Codename>
  {
    [
      change_tenantconfiguration, view_tenantconfiguration, add_department, change_department,
      delete_department, view_department, add_user, change_user,
      delete_user, view_user, add_role, change_role,
      view_role, assign_role, add_invitation, delete_invitation,
      view_invitation, view_auditlog, add_supportticket, view_supportticket
    ]
  }

  function BillingManagerCodenames(): seq<Codename>
  {
    [
      view_plan, view_coupon, add_subscriptiondiscount, delete_subscriptiondiscount,
      view_subscriptiondiscount, view_subscription, view_invoice, download_invoice,
      view_payment, add_paymentmethod, change_paymentmethod, delete_paymentmethod,
      view_paymentmethod, view_creditledger
    ]
  }

  function StandardUserCodenames(): seq<Codename>
  {
    [
      view_user, add_usagerecord, add_supportticket, view_supportticket
    ]
  }

  /** The group-to-codenames table, in its declaration order. */
  function GroupPermissions(): seq<GroupEntry>
  {
    [
      GroupEntry("PlatformAdmin", PlatformAdminCodenames()),
      GroupEntry("PlatformSupport", PlatformSupportCodenames()),
      GroupEntry("TenantOwner", TenantOwnerCodenames()),
      GroupEntry("TenantAdmin", TenantAdminCodenames()),
      GroupEntry("BillingManager", BillingManagerCodenames()),
      GroupEntry("StandardUser", StandardUserCodenames())
    ]
  }

  /** The group names of a table, in order. */
  function GroupNames(table: seq<GroupEntry>): (names: seq<string>)
    ensures |names| == |table|
    ensures forall i :: 0 <= i < |table| ==> names[i] == table[i].name
  {
    if table == [] then [] else [table[0].name] + GroupNames(table[1..])
  }

  /** No value occurs twice in `s`. */
  predicate NoDuplicates<T(==)>(s: seq<T>)
  {
    forall i, j :: 0 <= i < j < |s| ==> s[i] != s[j]
  }

  /** Every entry of `s` is smaller than the next one. */
  predicate Ascending(s: seq<Codename>)
  {
    forall i :: 0 <= i < |s| - 1 ==> s[i] < s[i + 1]
  }

  lemma {:induction false} AscendingHasNoDuplicates(s: seq<Codename>)
    requires Ascending(s)
    ensures NoDuplicates(s)
    ensures forall i, j :: 0 <= i < j < |s| ==> s[i] < s[j]
  {
    if |s| > 1 {
      var t := s[1..];
      AscendingHasNoDuplicates(t);
      forall i, j | 0 <= i < j < |s| ensures s[i] < s[j] {
        if i == 0 && j > 1 {
          assert t[0] < t[j - 1];
        } else if i > 0 {
          assert t[i - 1] < t[j - 1];
        }
      }
    }
  }

  /** With this data the bootstrap's "no model mapped" skip never fires. */
  lemma EveryGroupCodenameMapped()
    ensures forall g, c :: 0 <= g < |GroupPermissions()| && c in GroupPermissions()[g].codenames ==>
      c in PermissionToModelMap()
  {
  }

  /** There are exactly six system groups, in this order, with distinct names. */
  lemma SixGroups()
    ensures GroupNames(GroupPermissions()) ==
      ["PlatformAdmin", "PlatformSupport", "TenantOwner", "TenantAdmin", "BillingManager", "StandardUser"]
    ensures NoDuplicates(GroupNames(GroupPermissions()))
  {
  }

  lemma PlatformAdminAscending()
    ensures Ascending(PlatformAdminCodenames())
  {
  }

  lemma PlatformSupportAscending()
    ensures Ascending(PlatformSupportCodenames())
  {
  }

  lemma TenantOwnerAscending()
    ensures Ascending(TenantOwnerCodenames())
  {
  }

  lemma TenantAdminAscending()
    ensures Ascending(TenantAdminCodenames())
  {
  }

  lemma BillingManagerAscending()
    ensures Ascending(BillingManagerCodenames())
  {
  }

  lemma StandardUserAscending()
    ensures Ascending(StandardUserCodenames())
  {
  }

  /** No group lists a codename twice. */
  lemma NoDuplicateCodenames()
    ensures forall g :: 0 <= g < |GroupPermissions()| ==> NoDuplicates(GroupPermissions()[g].codenames)
  {
    PlatformAdminAscending();
    AscendingHasNoDuplicates(PlatformAdminCodenames());
    PlatformSupportAscending();
    AscendingHasNoDuplicates(PlatformSupportCodenames());
    TenantOwnerAscending();
    AscendingHasNoDuplicates(TenantOwnerCodenames());
    TenantAdminAscending();
    AscendingHasNoDuplicates(TenantAdminCodenames());
    BillingManagerAscending();
    AscendingHasNoDuplicates(BillingManagerCodenames());
    StandardUserAscending();
    AscendingHasNoDuplicates(StandardUserCodenames());
  }

  /** Everything a billing manager may do, a tenant owner may do too. */
  lemma BillingManagerWithinTenantOwner()
    ensures forall c :: c in BillingManagerCodenames() ==> c in TenantOwnerCodenames()
  {
  }

  /** The lists of the groups after PlatformAdmin. */
  function OtherGroupLists(): seq<seq<Codename>>
  {
    [PlatformSupportCodenames(), TenantOwnerCodenames(), TenantAdminCodenames(),
     BillingManagerCodenames(), StandardUserCodenames()]
  }

  lemma OtherGroupsAfterFirst()
    ensures forall g :: 1 <= g < |GroupPermissions()| ==> GroupPermissions()[g].codenames in OtherGroupLists()
  {
  }

  /** The two platform-only codenames are absent from `l`. */
  predicate PlatformFree(l: seq<Codename>)
  {
    access_all_tenants_data !in l && impersonate_tenant_user !in l
  }

  /** A value strictly between two neighbours of an ascending list (or beyond its ends) is not in it. */
  lemma GapNotIn(s: seq<Codename>, k: int, x: Codename)
    requires Ascending(s) && -1 <= k < |s|
    requires 0 <= k ==> s[k] < x
    requires k + 1 < |s| ==> x < s[k + 1]
    ensures x !in s
  {
    AscendingHasNoDuplicates(s);
    forall i | 0 <= i < |s| ensures s[i] != x {
      if i < k {
        assert s[i] < s[k];
      } else if i > k + 1 {
        assert s[k + 1] < s[i];
      }
    }
  }

  lemma PlatformSupportFree()
    ensures PlatformFree(PlatformSupportCodenames())
  {
    PlatformSupportAscending();
    GapNotIn(PlatformSupportCodenames(), 0, access_all_tenants_data);
    GapNotIn(PlatformSupportCodenames(), 0, impersonate_tenant_user);
  }

  lemma TenantOwnerFree()
    ensures PlatformFree(TenantOwnerCodenames())
  {
    TenantOwnerAscending();
    GapNotIn(TenantOwnerCodenames(), -1, access_all_tenants_data);
    GapNotIn(TenantOwnerCodenames(), 9, impersonate_tenant_user);
  }

  lemma TenantAdminFree()
    ensures PlatformFree(TenantAdminCodenames())
  {
    TenantAdminAscending();
    GapNotIn(TenantAdminCodenames(), -1, access_all_tenants_data);
    GapNotIn(TenantAdminCodenames(), 5, impersonate_tenant_user);
  }

  lemma BillingManagerFree()
    ensures PlatformFree(BillingManagerCodenames())
  {
    BillingManagerAscending();
    GapNotIn(BillingManagerCodenames(), -1, access_all_tenants_data);
    GapNotIn(BillingManagerCodenames(), 1, impersonate_tenant_user);
  }

  lemma StandardUserFree()
    ensures PlatformFree(StandardUserCodenames())
  {
    StandardUserAscending();
    GapNotIn(StandardUserCodenames(), -1, access_all_tenants_data);
    GapNotIn(StandardUserCodenames(), -1, impersonate_tenant_user);
  }

  lemma PlatformCodenamesAbsentFromOtherLists()
    ensures forall l :: l in OtherGroupLists() ==> PlatformFree(l)
  {
    PlatformSupportFree();
    TenantOwnerFree();
    TenantAdminFree();
    BillingManagerFree();
    StandardUserFree();
  }

  /**
   * Cross-tenant data access and impersonation are granted to PlatformAdmin
   * (the first group) and to no other group; with the distinct group names of
   * `SixGroups`, no other name can reach them.
   */
  lemma PlatformOnlyCodenames()
    ensures GroupPermissions()[0].name == "PlatformAdmin"
    ensures access_all_tenants_data in GroupPermissions()[0].codenames
    ensures impersonate_tenant_user in GroupPermissions()[0].codenames
    ensures forall g :: 1 <= g < |GroupPermissions()| ==>
      access_all_tenants_data !in GroupPermissions()[g].codenames &&
      impersonate_tenant_user !in GroupPermissions()[g].codenames
  {
    OtherGroupsAfterFirst();
    PlatformCodenamesAbsentFromOtherLists();
  }

  /**
   * The codename-to-model table maps only an add and a view codename to each
   * of the ledger models (credit transactions, the credit ledger and usage
   * records).
   */
  lemma LedgerCodenamesAppendOnly()
    ensures forall c: Codename :: ModelOf(c) == CreditTransaction <==> c == add_credittransaction || c == view_credittransaction
    ensures forall c: Codename :: ModelOf(c) == CreditLedger <==> c == add_creditledger || c == view_creditledger
    ensures forall c: Codename :: ModelOf(c) == UsageRecord <==> c == add_usagerecord || c == view_usagerecord
  {
  }
}
