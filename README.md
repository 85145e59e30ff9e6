# drf-tenancy-api: access control, error envelopes and request logging in Dafny

This project models the parts of the drf-tenancy-api service (a multi-tenant
Django REST Framework API) that carry behaviour of their own, and proves
properties of that model:

- **Permission bootstrap** (`PermissionTables`, `PermissionSync`): the two
  static tables of `apps/authentication/utils.py` and the post-migrate sync of
  `apps/authentication/signals.py`. The sync is a method over a mutable
  permission/group/role store (`AuthStore`), with nested loops like the
  source's. It is proved equal to a functional specification `SyncAll`, and
  the lemmas about `SyncAll` give:
  - what each group holds after the sync;
  - that each role mirrors its group;
  - exactly which rows are created, and their display names;
  - that the uniqueness constraint is kept;
  - idempotence.
- **Tenant scoping** (`TenantContext`, `TenantScoping`, `TenantBackends`,
  `TenantPermissions`):
  - the per-request "current tenant" slot, which the middleware sets by slug
    and clears on the response;
  - the queryset filter and the create/update stamping of the viewset mixin;
  - the permission strings of the tenant role backend;
  - the `IsTenantAdmin` check.
- **Error envelopes** (`ErrorEnvelope`, `BaseExceptionHandler`): the two
  exception handlers, `app_exception_handler` in `apps/core/utils.py` and
  `custom_exception_handler` in `apps/base/utils.py`, modelled separately.
  The REST framework settings (config/settings/_rest_framework.py:32) name
  `apps.base.utils.app_exception_handler`, but that module defines only
  `custom_exception_handler`. Which of the two is live is therefore not
  settled by the code, so both are modelled.
- **Input validators** (`LoginValidation`, `UserManager`):
  - the login serializer's check order;
  - the user manager's email check and superuser-flag checks.
- **Request logging** (`RequestLogging`, `LogFormat`, `LogLevels`):
  - the logging middleware's request id, X-Request-ID header rule and level
    choice;
  - the safe formatter's fill-only-missing retry (config/loggers/loggers.py);
  - the max-level filter.

  The `LOGGING` dict (config/settings/_logging.py:49-102) installs neither
  of these two classes. Its formatters use a second `SafeFormatter`, defined
  at config/settings/_logging.py:39-46, which retries only on KeyError and
  then fills only the one attribute the error names (`e.args[0]`); no handler
  there has a `MaxLevelFilter`.

What the settings leave unconnected is modelled all the same, as the code
that would run:
- `MIDDLEWARE` (config/settings/_security.py:5-13) lists neither the tenant
  middleware of apps/tenancies/middleware.py nor the logging middleware of
  apps/core/middleware.py. As configured, the current tenant is therefore
  never set and `get_current_tenant()` is always None.
- `INSTALLED_APPS` (config/settings/_apps.py:8-21) holds neither
  apps.authentication nor apps.tenancies, so the post-migrate permission
  bootstrap is not connected.

`Values` holds the shared vocabulary: a Python value (`Value`), dicts as
ordered key/value lists, `dict.get`, `d[k] = v`, `setdefault`, truthiness and
`str.join`.

Calls into code outside the model are parameters:
- Django's `authenticate` and `normalize_email`;
- the password hasher;
- the base `logging.Formatter.format`;
- `str()` of a non-string value (`show`);
- the clock readings and the fresh `uuid4().hex`;
- `settings.DEBUG`.

The results of DRF's default `exception_handler` and of ORM queries are
inputs. Log calls are returned as values rather than emitted.

Permission codenames are a `newtype` over the numbers 0..86, one named
constant per codename of the codename-to-model table. `PermissionTables.Text`
gives each one's string. The constants are numbered so that each group list
is ascending, so "no duplicate" is a check of neighbouring entries.

Where the code and its description disagree, the model follows the code:
- `custom_exception_handler` reads `response.data.get(...)` before it checks
  that the data is a dict. Non-dict data therefore raises AttributeError, and
  the model returns that error instead of excluding the case by a
  precondition.
- `app_exception_handler` tests for Django's
  `django.core.exceptions.ValidationError`, not DRF's. Its
  `_simplify_validation_errors` raises IndexError (`v[0]`) on a field with an
  empty message list, and the model returns that error too.

## Model

| member | source | states |
|---|---|---|
| PermissionTables.PermissionToModelMap | apps/authentication/utils.py:30-120 | definition of the codename-to-model table: an entry for every codename, and the entry is that codename's model |
| PermissionTables.Text | apps/authentication/utils.py:30-120 | definition of each codename's string, one per key of the codename-to-model table |
| PermissionTables.ModelOf | apps/authentication/utils.py:30-120 | definition of each codename's model, as the codename-to-model table gives it |
| PermissionTables.GroupPermissions | apps/authentication/utils.py:123-261 | definition of the group table: the six groups in source order, each with its codename list entry for entry |
| PermissionTables.GroupNames | apps/authentication/utils.py:123-261 | the group names of a table, in the table's order |
| PermissionTables.EveryGroupCodenameMapped | apps/authentication/utils.py:30-261 | every codename listed under any group has a mapped model, so the sync's "no model mapped" skip never fires on this data |
| PermissionTables.SixGroups | apps/authentication/utils.py:124-260 | there are exactly six groups, PlatformAdmin, PlatformSupport, TenantOwner, TenantAdmin, BillingManager and StandardUser, in that order, with distinct names |
| PermissionTables.AscendingHasNoDuplicates | apps/authentication/utils.py:125-259 | an ascending codename list is strictly increasing throughout and has no duplicate |
| PermissionTables.NoDuplicateCodenames | apps/authentication/utils.py:125-259 | no group's codename list names a codename twice |
| PermissionTables.GapNotIn | apps/authentication/utils.py:125-259 | a codename strictly between two neighbours of an ascending group list, or beyond its ends, is not in the list |
| PermissionTables.BillingManagerWithinTenantOwner | apps/authentication/utils.py:175-253 | every BillingManager codename is also a TenantOwner codename |
| PermissionTables.PlatformSupportFree | apps/authentication/utils.py:165-174 | the PlatformSupport list holds neither `access_all_tenants_data` nor `impersonate_tenant_user` |
| PermissionTables.TenantOwnerFree | apps/authentication/utils.py:175-215 | the TenantOwner list holds neither `access_all_tenants_data` nor `impersonate_tenant_user` |
| PermissionTables.TenantAdminFree | apps/authentication/utils.py:216-237 | the TenantAdmin list holds neither `access_all_tenants_data` nor `impersonate_tenant_user` |
| PermissionTables.BillingManagerFree | apps/authentication/utils.py:238-253 | the BillingManager list holds neither `access_all_tenants_data` nor `impersonate_tenant_user` |
| PermissionTables.StandardUserFree | apps/authentication/utils.py:254-259 | the StandardUser list holds neither `access_all_tenants_data` nor `impersonate_tenant_user` |
| PermissionTables.PlatformOnlyCodenames | apps/authentication/utils.py:125-259 | `access_all_tenants_data` and `impersonate_tenant_user` are granted to PlatformAdmin and to no other group |
| PermissionTables.LedgerCodenamesAppendOnly | apps/authentication/utils.py:102-107 | the codename-to-model table maps only an add and a view codename to each of credit transactions, the credit ledger and usage records |
| PermissionSync.DisplayName | apps/authentication/signals.py:49-53 | a created permission is named "Can " followed by the codename with every "_" replaced by a space; the name holds no "_" |
| PermissionSync.Step | apps/authentication/signals.py:35-61 | definition of one inner-loop turn: an unmapped or failing codename changes nothing, an existing permission is gathered, a missing one is created and gathered |
| PermissionSync.Collect | apps/authentication/signals.py:34-61 | definition of the inner loop over a group's codenames as repeated `Step`s |
| PermissionSync.SyncGroup | apps/authentication/signals.py:28-78 | definition of one outer-loop turn: the group and the role of that name are set to the gathered permissions |
| PermissionSync.SyncAll | apps/authentication/signals.py:28-78 | definition of the whole sync as one `SyncGroup` per table entry, in order |
| PermissionSync.TableRoles | apps/authentication/signals.py:64-70 | the roles a table asks for: one per group name, with the fixed description and the group's permission set |
| PermissionSync.CollectLast | apps/authentication/signals.py:34-35 | one more turn of the inner loop is one more `Step` over the next codename |
| PermissionSync.CollectGathers | apps/authentication/signals.py:33-54 | the inner loop gathers exactly the permissions of the mapped, non-failing codenames |
| PermissionSync.CollectRows | apps/authentication/signals.py:42-54 | the inner loop keeps every existing row and adds one row per missing needed permission, named by DisplayName, and nothing else |
| PermissionSync.CollectUnique | apps/authentication/signals.py:42-54 | the inner loop keeps (codename, model) unique |
| PermissionSync.CollectNoOp | apps/authentication/signals.py:42-47 | when every needed permission exists, the inner loop creates no row |
| PermissionSync.CollectSpec | apps/authentication/signals.py:33-57 | the inner loop gathers exactly the permissions of the mapped, non-failing codenames. It keeps every existing row and adds one row per missing one, named by DisplayName. It keeps (codename, model) unique and adds nothing when nothing is missing |
| PermissionSync.NeededSnoc | apps/authentication/signals.py:34-54 | one more codename adds its permission to the needed set when it is mapped and its lookup does not raise, and adds nothing otherwise |
| PermissionSync.RowKeysSnoc | apps/authentication/signals.py:49-53 | creating a row adds exactly its key to the permission table's keys |
| PermissionSync.SyncAllMaps | apps/authentication/signals.py:28-78 | after the sync, each listed group and its role are replaced by the table's row of that name (`set` drops previous extras). Groups and roles of other names are untouched |
| PermissionSync.SyncAllRows | apps/authentication/signals.py:28-78 | after the sync, existing permission rows are kept and exactly the missing needed permissions are added, each named by DisplayName |
| PermissionSync.SyncAllUnique | apps/authentication/signals.py:42-54 | the sync keeps (codename, model) unique in the permission table, so a permission shared by several groups is created once and later groups find it through `get` |
| PermissionSync.SyncAllCoversNeeded | apps/authentication/signals.py:42-54 | after the sync every permission the table needs exists in the permission table |
| PermissionSync.SyncAllWritesNoRow | apps/authentication/signals.py:42-47 | when every needed permission exists, `get` finds each and the sync creates no permission row |
| PermissionSync.Idempotent | apps/authentication/signals.py:29-77 | re-running the sync changes nothing: no new rows, groups or roles, and the same permission sets |
| PermissionSync.TableGroupsKeys | apps/authentication/signals.py:28-29 | every group of the table gets a group row |
| PermissionSync.RoleMirrorsGroup | apps/authentication/signals.py:63-77 | after the sync, every group's role has the description "System role corresponding to the '<group>' group." and exactly its group's permission set |
| PermissionSync.TableGroupsAt | apps/authentication/signals.py:33-63 | with distinct group names, each name's group row is exactly that group's needed set |
| PermissionSync.AllNeededContains | apps/authentication/signals.py:28-54 | each group's needed permissions are among those the whole sync needs |
| PermissionSync.GroupsHoldNeeded | apps/authentication/signals.py:33-63 | with distinct group names, each group ends holding exactly the permissions of its listed codenames that have a mapped model and raised no error, and each exists in the permission table |
| PermissionSync.SkippedCodename | apps/authentication/signals.py:36-40 | an unmapped codename, or one whose lookup raises, contributes nothing, and the other codenames still count |
| PermissionSync.NeededUnderSourceMap | apps/authentication/signals.py:35-40 | under the source's codename-to-model map with no failing lookup, every listed codename contributes its permission under its own model |
| PermissionSync.SourceGroupNamesDistinct | apps/authentication/utils.py:124-260 | the source's group table has distinct group names |
| PermissionSync.BootstrapGrantsTable | apps/authentication/signals.py:24-78 | with the source's tables and no failing lookup, each of the six groups ends with exactly its listed codenames' permissions, and its role mirrors it |
| PermissionSync.AuthStore.Exists | apps/authentication/signals.py:44-46 | `Permission.objects.get` finds the permission exactly when a row with that (codename, model) exists |
| PermissionSync.AuthStore.GatherPermissions | apps/authentication/signals.py:33-61 | the loop over one group's codenames leaves the permission table and the gathered list exactly as `Collect`, keeps uniqueness and touches no group or role |
| PermissionSync.AuthStore.CreateGroupsWithPermissions | apps/authentication/signals.py:28-78 | the nested loops leave the store exactly as `SyncAll` of the old store, and keep the uniqueness constraint |
| PermissionSync.AuthStore.CreateGroupsFromTables | apps/authentication/signals.py:24-28 | the signal handler runs the sync over the source's own group table and codename-to-model map |
| TenantContext.FindBySlug | apps/tenancies/middleware.py:18-21 | the lookup returns a tenant with exactly that slug, or None when no tenant has it (a missing header included) |
| TenantContext.FindBySlugFindsOwner | apps/tenancies/models.py:24-29 | slugs are unique, so the lookup returns the one tenant whose slug it is |
| TenantContext.HeaderValue | apps/tenancies/middleware.py:17 | definition of `headers.get`: the header's value when the request carries it, else None |
| TenantContext.TenantLocal.GetCurrentTenant | apps/tenancies/middleware.py:11-12 | definition of the `getattr` default: None when the slot was never set or has been cleared, else the stored value |
| TenantContext.TenantLocal.ProcessRequest | apps/tenancies/middleware.py:16-22 | the slot is overwritten with the lookup's result. A tenant is current exactly when the X-Organization-ID header names an existing slug, and that tenant is the one with the slug |
| TenantContext.TenantLocal.ProcessResponse | apps/tenancies/middleware.py:24-27 | afterwards the slot is cleared (a no-op when it was already empty), and the response is returned unchanged |
| TenantScoping.FilterByTenant | apps/tenancies/mixins.py:16 | `filter(tenant=t)`: a subsequence of the base whose records all belong to t, holding every record of t as often as the base does |
| TenantScoping.GetQueryset | apps/tenancies/mixins.py:11-16 | empty without a current tenant; otherwise exactly the base records of the current tenant, in order |
| TenantScoping.TenantsSeeDisjointRecords | apps/tenancies/mixins.py:11-16 | two different tenants' querysets share no record |
| TenantScoping.RecordTable.PerformCreate | apps/tenancies/mixins.py:18-22 | without a current tenant it raises RuntimeError("Cannot create object without a valid tenant") and saves nothing. Otherwise it saves one record stamped with the current tenant, whatever tenant the client sent |
| TenantScoping.RecordTable.PerformUpdate | apps/tenancies/mixins.py:24-25 | the record is stamped with the current tenant without a guard, so None when no tenant is set; other records are untouched |
| TenantBackends.Render | apps/tenancies/backends.py:25 | "app_label.codename": the label, one dot, the codename |
| TenantBackends.FirstDot | apps/tenancies/backends.py:25 | the position of the first dot of a string |
| TenantBackends.FirstDotOfRender | apps/tenancies/backends.py:25 | in a rendered permission with a dot-free label, the first dot ends the label |
| TenantBackends.RenderInjective | apps/tenancies/backends.py:25 | with dot-free app labels, a rendered string names exactly one permission |
| TenantBackends.PermissionsIn | apps/tenancies/backends.py:21-24 | definition of the query's result: exactly the permissions granted to a role the user holds in the tenant |
| TenantBackends.Authenticate | apps/tenancies/backends.py:13-14 | `authenticate` returns its user argument unchanged |
| TenantBackends.GetUserPermissions | apps/tenancies/backends.py:16-25 | empty with no current tenant or an unauthenticated user. Otherwise exactly the rendered permissions of the roles the user holds in the current tenant |
| TenantBackends.GetGroupPermissions | apps/tenancies/backends.py:27-28 | always the empty set |
| TenantBackends.OtherTenantsIrrelevant | apps/tenancies/backends.py:22-23 | roles held in other tenants contribute nothing |
| TenantBackends.OneStringPerPermission | apps/tenancies/backends.py:25 | the result is a set: one string per distinct permission however many roles reach it (app labels being dot-free) |
| TenantBackends.ImageSize | apps/tenancies/backends.py:25 | rendering a set of dot-free permissions yields as many strings as permissions |
| TenantPermissions.HasPermission | apps/tenancies/permissions.py:8-14 | denied (False) without a current tenant. With one, an anonymous user makes the role query raise TypeError, and an authenticated user is granted exactly when they have a role row in that tenant whose role is named "Admin" |
| TenantPermissions.ExistsAdminRow | apps/tenancies/permissions.py:12-14 | the `exists()` query over the role rows is true exactly when a matching "Admin" row exists |
| TenantPermissions.AdminElsewhereDoesNotCount | apps/tenancies/permissions.py:13 | an "Admin" role held in other tenants does not grant access |
| TenantPermissions.OnlyExactAdminName | apps/tenancies/permissions.py:13 | only a role named exactly "Admin" grants access: without one the result is never a grant |
| TenantPermissions.ViewIgnored | apps/tenancies/permissions.py:8-14 | the decision does not depend on the view |
| ErrorEnvelope.PyStr | apps/core/utils.py:49 | definition of `str(v)`: a string is itself, anything else is `show(v)` |
| ErrorEnvelope.StatusOf | apps/core/utils.py:16 | definition of the status expression: the framework response's status, or 500 when there is none |
| ErrorEnvelope.StatusMessage | apps/core/utils.py:18-32 | the message is "Request error" exactly when the status is not one of 400, 401, 403, 404, 405, 409, 429, 500 |
| ErrorEnvelope.SimplifyValidationErrors | apps/core/utils.py:67-73 | with `message_dict`: one entry per field holding its first message, or IndexError when a field has no message. With `messages` only: all of them under "non_field_errors". Otherwise `str(exc)` |
| ErrorEnvelope.FirstMessages | apps/core/utils.py:70 | one (field, first message) entry per field in order, defined exactly when no field's message list is empty |
| ErrorEnvelope.MessageValues | apps/core/utils.py:72 | each message, in order |
| ErrorEnvelope.InnerPairs | apps/core/utils.py:56 | one "k: v" pair per entry of a nested dict, in order |
| ErrorEnvelope.Fragment | apps/core/utils.py:53-59 | the fragment is "key: " followed by `str` of the first element of a non-empty list, the ", "-joined "k: v" pairs of a dict, or `str` of any other value |
| ErrorEnvelope.Flatten | apps/core/utils.py:52-59 | exactly one fragment per key, in key order |
| ErrorEnvelope.ListContributesFirstOnly | apps/core/utils.py:53-54 | a non-empty list contributes only its first element |
| ErrorEnvelope.LogErrorSafely | apps/core/utils.py:76-89 | a log call happens exactly for status ≥ 400: error level for ≥ 500, warning for 400–499, always with the same extra record |
| ErrorEnvelope.ToValue | apps/core/utils.py:29-60 | the Response data is {"error": {...}} whose object holds "status", "message" and "type" in that order with the envelope's values, then "details" exactly when there are details, holding them |
| ErrorEnvelope.FromValue | apps/core/utils.py:29-35 | an envelope is read back only from a dict with an "error" key |
| ErrorEnvelope.ToValueRoundTrip | apps/core/utils.py:29-64 | the JSON data carries the whole envelope: reading it back gives the same status, message, type and details |
| ErrorEnvelope.FlattenMessages | apps/core/utils.py:51-59 | the loop over the response data's keys yields exactly Flatten: one fragment per key, in key order |
| ErrorEnvelope.AppExceptionHandler | apps/core/utils.py:13-64 | the response carries the envelope's status (the framework's, or 500), the class name and the JSON header, and its data is ToValue of the envelope. A ValidationError gets its own message and the simplified details, and Http404 its own message and no details. Any other exception gets the table message, and details only when a response below 500 has dict data: `str` of "detail", or the flattened fragments. The log call is LogErrorSafely's. An empty message list under a field raises IndexError |
| BaseExceptionHandler.WrapData | apps/base/utils.py:10-18 | the new data holds status_code, then "detail" (falling back to `str(exc)`), then "code" (defaulting to None). The original data sits under "errors" exactly when it has no "detail" |
| BaseExceptionHandler.CustomExceptionHandler | apps/base/utils.py:6-33 | with no framework response, a fresh 500 response with the fixed server-error data. Non-dict data raises AttributeError and changes nothing. Otherwise the same response is returned, its status unchanged and its data replaced by WrapData |
| LoginValidation.CheckCredentials | apps/authentication/serializers.py:22-35 | the checks run in a fixed order: both credentials truthy, `authenticate` found a user, the user is active. The first failure decides the message, and every failure has code "authorization" |
| LoginValidation.MissingCredentialsNeverAuthenticate | apps/authentication/serializers.py:25-29 | with a missing credential the result does not depend on `authenticate`, which is never consulted |
| LoginValidation.EmptyEmailIsMissing | apps/authentication/serializers.py:25-26 | an empty email is rejected as missing whatever the password |
| LoginValidation.Validate | apps/authentication/serializers.py:21-38 | on a failed check it raises and leaves attrs untouched. On success the same attrs come back with "user" set to the user and every other entry unchanged |
| Values.SetItemGet | apps/authentication/serializers.py:37 | after `d[k] = v`, `d.get(k)` is v and every other key reads as before |
| Values.SetItemKeys | apps/authentication/serializers.py:37 | `d[k] = v` keeps the key order when k is present and appends k otherwise |
| Values.SetDefault | apps/users/managers.py:23-24 | `setdefault` leaves a present key alone and appends an absent one with the default |
| UserManager.NewUser | apps/users/managers.py:13-20 | a missing or empty email, and only that, raises ValueError("Email field is required"); otherwise the user has the normalized email, the hashed password and the extra fields unchanged |
| UserManager.NewSuperuser | apps/users/managers.py:22-35 | the result is an error exactly when a flag check fails, and then it is that check's ValueError; otherwise the user has the normalized email, the hashed password and the defaulted fields |
| UserManager.SuperuserFields | apps/users/managers.py:23-24 | `is_staff` and `is_superuser` default to True when not supplied; every other field is unchanged |
| UserManager.SuperuserFlagError | apps/users/managers.py:26-29 | a flag that is not the boolean True raises, and `is_staff` is checked first |
| UserManager.DefaultsPass | apps/users/managers.py:23-29 | without either flag supplied, both checks pass |
| UserManager.NonTrueFlagRejected | apps/users/managers.py:26-29 | a flag supplied as anything but True is rejected |
| UserManager.TruthyIntStaffRejected | apps/users/managers.py:26-27 | `is_staff=1` is rejected although 1 is truthy |
| UserManager.UserTable.CreateUser | apps/users/managers.py:13-20 | the result is `NewUser` of the arguments; a created user is appended to the table and an error saves nothing |
| UserManager.UserTable.CreateSuperuser | apps/users/managers.py:22-35 | the result is `NewSuperuser` of the arguments; a created user is appended to the table and an error saves nothing |
| UserManager.EmptyEmailOnlyCheckedByCreateUser | apps/users/managers.py:13-35 | an empty email is refused by `create_user`, while `create_superuser` has no empty-email check: the email reaches normalization and the user is built |
| RequestLogging.ChooseRequestId | apps/core/middleware.py:14 | definition of the id choice: the incoming X-Request-ID value when present, else the fresh hex id |
| RequestLogging.RequestIdLabel | apps/core/middleware.py:30 | definition of the header value: the assigned request id, or "none" |
| RequestLogging.UserLabel | apps/core/middleware.py:23-25 | definition of the user label: the email of an authenticated user, "anonymous" otherwise |
| RequestLogging.AddsRequestIdHeader | apps/core/middleware.py:37-41 | definition of the header rule: the X-Request-ID header is added when DEBUG is on or the status is at least 400 |
| RequestLogging.DurationMs | apps/core/middleware.py:20-21 | definition of the duration: the time since the start time (or the default reading when unset), in milliseconds |
| RequestLogging.LevelForStatus | apps/core/middleware.py:43-57 | error exactly for ≥ 500, warning exactly for 400–499, info exactly below 400 |
| RequestLogging.LevelMonotone | apps/core/middleware.py:43-57 | a higher status never gets a lower level |
| RequestLogging.ResponseLogBelowWarningCap | apps/core/middleware.py:43-57 | the response log line is below WARNING, and so passes a WARNING-capped filter, exactly when the status is below 400 |
| RequestLogging.ContextFor | apps/core/middleware.py:27-35 | the log context carries the user label, the remote address or "", the request id label and the status |
| RequestLogging.ProcessRequest | apps/core/middleware.py:13-17 | it assigns the chosen request id and the start time, changes nothing else and returns None (never short-circuits) |
| RequestLogging.ProcessResponse | apps/core/middleware.py:19-59 | the same response comes back with its status, and at most the X-Request-ID header is added. The header (the request's id, or "none") is added always in DEBUG, else only from 400 up. One log call is made at LevelForStatus |
| RequestLogging.ProcessException | apps/core/middleware.py:61-81 | one error-level log call reporting status 500 with the exception's type and text, and None so that the exception propagates |
| LogLevels.LevelNo | config/loggers/loggers.py:52-53 | Python's level numbers, from 10 to 50 in steps of 10 |
| LogFormat.FillMissing | config/loggers/loggers.py:31-41 | definition of the fill over the placeholder list `Defaults`: each absent name gets its default, in list order |
| LogFormat.FillKeepsPresent | config/loggers/loggers.py:40-41 | filling never overwrites an attribute the record had |
| LogFormat.FillCoversDefaults | config/loggers/loggers.py:31-41 | after filling, every placeholder name is present |
| LogFormat.FillAddsOnlyDefaults | config/loggers/loggers.py:31-41 | filling adds no attribute other than the placeholders |
| LogFormat.FillSetsMissing | config/loggers/loggers.py:40-41 | with distinct names, an attribute the record lacked gets its placeholder value |
| LogFormat.UnlistedStaysAbsent | config/loggers/loggers.py:31-41 | an attribute that is neither present nor a placeholder stays absent |
| LogFormat.FillMissingIdempotent | config/loggers/loggers.py:31-41 | filling a second time changes nothing |
| LogFormat.AlreadyFilled | config/loggers/loggers.py:40 | a record that has every placeholder is left as it is |
| LogFormat.PlaceholdersFilled | config/loggers/loggers.py:31-41 | present attributes are kept. An absent user, ip, request_id, method, path or status_code gets "!MISSING_<name>!", and an absent duration gets 0.0 |
| LogFormat.SafeFormatter.Format | config/loggers/loggers.py:27-42 | a first success, or a failure other than KeyError/ValueError, is the result, and the record is untouched (this holds because the base format is a parameter that does not write to the record; Python's own sets `record.message` and `asctime`). Otherwise the missing placeholders are filled and the result is exactly one more attempt, whose failure propagates |
| LogFormat.MaxLevelFilter.constructor | config/loggers/loggers.py:48-50 | the filter keeps the given maximum level |
| LogFormat.MaxLevelFilter.Filter | config/loggers/loggers.py:52-53 | a record passes exactly when its level number is strictly below the maximum |
| LogFormat.Passes | config/loggers/loggers.py:52-53 | definition of the filter's comparison: `levelno < max_level` |
| LogFormat.WarningCapPassesDebugAndInfoOnly | config/loggers/loggers.py:52-53 | under `Passes`, the comparison `Filter` is proved to make, a cap of WARNING lets DEBUG and INFO records through and nothing at WARNING or above |

## Left out

- Emitting log lines, and their text. The response log message (`f"{method} {path} → {status} ({ms:.2f}ms)"`) and the bootstrap's info, debug and warning lines are not modelled. Floating-point formatting has no counterpart here.
- `exc_info=True` in `process_exception`: the traceback is outside the model.
- Durations are `real`s computed from two clock parameters. Float rounding is not modelled.
- Header case-insensitivity: request headers are an exact-key map keyed by "X-Organization-ID", and `request.META` by "HTTP_X_REQUEST_ID" and "REMOTE_ADDR".
- Concurrency: the thread-local current tenant is one slot (`TenantLocal`), not per-thread state.
- The ORM is modelled as sequences and maps:
  - tenants, role assignments and role permissions are sequences of rows;
  - the permission, group and role tables are fields of `AuthStore`;
  - a saved record is appended to a sequence.
- Database errors on save are not modelled.
- PermissionSync.AuthStore.CreateGroupsWithPermissions: lookups that raise something other than "does not exist" (`except Exception`) are abstracted as a set `faulty` of codenames whose lookup raises. An error raised by `Permission.objects.create` inside the does-not-exist handler is not caught by the sibling `except Exception` clause in Python and would abort the sync. The model does not cover that abort.
- PermissionSync.AuthStore.CreateGroupsWithPermissions: the content type is identified by the model name, since `ContentType.objects.get_for_model` is a lookup keyed by the model.
- TenantContext.TenantLocal.ProcessRequest: it requires unique slugs. This is the database constraint at apps/tenancies/models.py:24-29; with duplicate slugs Django's `get` raises MultipleObjectsReturned, which the source does not handle.
- TenantScoping.RecordTable.PerformUpdate: the record being updated is chosen by index. The serializer's other field validation is not modelled.
- TenantBackends.OneStringPerPermission: it assumes dot-free app labels (Django app labels are Python identifiers). Without that, two permissions could render to the same string.
- TenantPermissions.HasPermission: the user is matched by id. The TypeError for an anonymous user comes from the ORM converting `AnonymousUser` to a key; the model returns it as `Err("TypeError")` without the message text.
- UserManager.UserTable.CreateUser and UserManager.UserTable.CreateSuperuser: both require that the extra fields hold no "email". `email` is a named parameter, so Python's call binding refuses a second one with TypeError before either body runs.
- UserManager.NewUser: an unknown model field among the extra fields (a TypeError from the model constructor) is not modelled.
- The DRF default `exception_handler`, Django's `authenticate`, `normalize_email`, `set_password` hashing, `uuid4` and `time.time` are parameters or inputs, as listed above.
- Model classes beyond the fields read here (apps/business/models.py, apps/billing/models.py and the other model modules): they are declarative schema with no behaviour.
- Migrations, settings, URL configuration, gunicorn configuration and views (JWT and cache) are not part of this model.
- The `SafeFormatter` of config/settings/_logging.py:39-46 (KeyError only, one attribute per retry) is not part of this model; the one of config/loggers/loggers.py is.
- ErrorEnvelope.SimplifyValidationErrors: the `Bare` shape (neither `message_dict` nor `messages`) is modelled as the source writes it, but Django's ValidationError always has `messages`, so no Django-raised exception reaches it.
- The user-facing messages of the login serializer and of `create_user` are wrapped in `gettext_lazy` in the source; the model uses the untranslated English msgids.
- PermissionSync.Store: roles are a map keyed by group name, so a store with two Role rows for one group (possible: apps/authentication/models.py:17 is a plain nullable foreign key) cannot be represented. In that state `update_or_create(group=…)` at apps/authentication/signals.py:64 raises MultipleObjectsReturned, which the model does not cover.
- Logging plumbing: the rotating file handler and the logging mixins, whose only effect is emitting lines.
