/**
 * The permission bootstrap that runs after every migration
 * (apps/authentication/signals.py): for every group of the group table it
 * gets or creates the group, gathers the permissions of its codenames
 * (creating each missing one), replaces the group's permission set with
 * them, and makes the group's system role carry the same set.
 *
 * The permission, group and role tables are the fields of `AuthStore`.
 * A permission lookup that raises something other than "does not exist"
 * is modelled by the set `faulty` of codenames whose lookup raises; the
 * source logs it and goes on with the next codename.
 */
module PermissionSync {
  import opened Values
  import opened PermissionTables

  /** A permission is identified by its codename and its content type (the model). */
  datatype PermKey = PermKey(codename: Codename, model: ModelName)

  /** A row of the permission table. */
  datatype PermRow = PermRow(key: PermKey, name: string)

  /** A system role: its description and its permission set. */
  datatype SystemRole = SystemRole(description: string, permissions: set<PermKey>)

  /**
   * The three tables the bootstrap touches: permission rows, groups by name
   * with their permission sets, and system roles by the name of their group.
   */
  datatype Store = Store(permissions: seq<PermRow>, groups: map<string, set<PermKey>>, roles: map<string, SystemRole>)

  /** The display name of a permission the bootstrap creates: "Can " and the codename with "_" read as " ". */
  function DisplayName(c: Codename): (n: string)
    ensures |n| == |Text(c)| + 4 && n[..4] == "Can "
    ensures forall i :: 4 <= i < |n| ==> n[i] == (if Text(c)[i - 4] == '_' then ' ' else Text(c)[i - 4])
    ensures '_' !in n
  {
    "Can " + ReplaceChar(Text(c), '_', ' ')
  }

  /** The description written into the role of group `group`. */
  function RoleDescription(group: string): string
  {
    "System role corresponding to the '" + group + "' group."
  }

  /** The keys present in the permission table. */
  function RowKeys(rows: seq<PermRow>): set<PermKey>
  {
    set i | 0 <= i < |rows| :: rows[i].key
  }

  /** The permission table's uniqueness constraint on (codename, content type). */
  predicate UniqueKeys(rows: seq<PermRow>)
  {
    forall i, j :: 0 <= i < j < |rows| ==> rows[i].key != rows[j].key
  }

  /**
   * The permissions a group is meant to end with: one for every listed
   * codename that has a mapped model and whose lookup does not raise.
   */
  function Needed(cs: seq<Codename>, modelMap: map<Codename, ModelName>, faulty: set<Codename>): set<PermKey>
  {
    set c | c in cs && c in modelMap && c !in faulty :: PermKey(c, modelMap[c])
  }

  /** One turn of the inner loop: skip, find, or create the permission of `c`. */
  function Step(rows: seq<PermRow>, acc: seq<PermKey>, c: Codename,
                modelMap: map<Codename, ModelName>, faulty: set<Codename>): (seq<PermRow>, seq<PermKey>)
  {
    if c !in modelMap || c in faulty then (rows, acc)
    else
      var k := PermKey(c, modelMap[c]);
      if k in RowKeys(rows) then (rows, acc + [k])
      else (rows + [PermRow(k, DisplayName(c))], acc + [k])
  }

  /** The inner loop over a group's codenames: the new permission table and the permissions gathered. */
  function Collect(rows: seq<PermRow>, cs: seq<Codename>,
                   modelMap: map<Codename, ModelName>, faulty: set<Codename>): (seq<PermRow>, seq<PermKey>)
    decreases |cs|
  {
    if cs == [] then (rows, [])
    else
      var prev := Collect(rows, cs[..|cs| - 1], modelMap, faulty);
      Step(prev.0, prev.1, cs[|cs| - 1], modelMap, faulty)
  }

  /** One turn of the outer loop: sync the group of `e` and its role. */
  function SyncGroup(st: Store, e: GroupEntry, modelMap: map<Codename, ModelName>, faulty: set<Codename>): Store
  {
    var (rows, acc) := Collect(st.permissions, e.codenames, modelMap, faulty);
    var perms := set k | k in acc;
    Store(rows, st.groups[e.name := perms], st.roles[e.name := SystemRole(RoleDescription(e.name), perms)])
  }

  /** The whole bootstrap over a group table. */
  function SyncAll(st: Store, table: seq<GroupEntry>, modelMap: map<Codename, ModelName>, faulty: set<Codename>): Store
    decreases |table|
  {
    if table == [] then st
    else SyncGroup(SyncAll(st, table[..|table| - 1], modelMap, faulty), table[|table| - 1], modelMap, faulty)
  }

  /** The group rows a table asks for: each name with its needed set, a later row of the same name winning. */
  function TableGroups(table: seq<GroupEntry>, modelMap: map<Codename, ModelName>, faulty: set<Codename>): map<string, set<PermKey>>
    decreases |table|
  {
    if table == [] then map[]
    else
      var e := table[|table| - 1];
      TableGroups(table[..|table| - 1], modelMap, faulty)[e.name := Needed(e.codenames, modelMap, faulty)]
  }

  /** The roles a table asks for: the description of the group and the group's set. */
  function TableRoles(table: seq<GroupEntry>, modelMap: map<Codename, ModelName>, faulty: set<Codename>): (m: map<string, SystemRole>)
    ensures m.Keys == TableGroups(table, modelMap, faulty).Keys
    ensures forall n :: n in m ==>
      m[n] == SystemRole(RoleDescription(n), TableGroups(table, modelMap, faulty)[n])
    decreases |table|
  {
    if table == [] then map[]
    else
      var e := table[|table| - 1];
      TableRoles(table[..|table| - 1], modelMap, faulty)[e.name := SystemRole(RoleDescription(e.name), Needed(e.codenames, modelMap, faulty))]
  }

  /** Every permission any row of the table needs. */
  function AllNeeded(table: seq<GroupEntry>, modelMap: map<Codename, ModelName>, faulty: set<Codename>): set<PermKey>
    decreases |table|
  {
    if table == [] then {}
    else AllNeeded(table[..|table| - 1], modelMap, faulty) + Needed(table[|table| - 1].codenames, modelMap, faulty)
  }

  // ---------------------------------------------------------------------------
  // The inner loop

  lemma NeededSnoc(cs: seq<Codename>, c: Codename, modelMap: map<Codename, ModelName>, faulty: set<Codename>)
    ensures Needed(cs + [c], modelMap, faulty) ==
      Needed(cs, modelMap, faulty) + (if c in modelMap && c !in faulty then {PermKey(c, modelMap[c])} else {})
  {
    assert forall x :: x in cs + [c] <==> x in cs || x == c;
  }

  lemma RowKeysSnoc(rows: seq<PermRow>, r: PermRow)
    ensures RowKeys(rows + [r]) == RowKeys(rows) + {r.key}
  {
    var rs := rows + [r];
    assert rs[|rows|].key == r.key;
    forall k | k in RowKeys(rows) ensures k in RowKeys(rs) {
      var i :| 0 <= i < |rows| && rows[i].key == k;
      assert rs[i].key == k;
    }
  }

  /** The inner loop after `j + 1` codenames is one more step after `j`. */
  lemma CollectLast(rows: seq<PermRow>, cs: seq<Codename>, j: nat,
                    modelMap: map<Codename, ModelName>, faulty: set<Codename>)
    requires j < |cs|
    ensures var prev := Collect(rows, cs[..j], modelMap, faulty);
      Collect(rows, cs[..j + 1], modelMap, faulty) == Step(prev.0, prev.1, cs[j], modelMap, faulty)
  {
    assert cs[..j + 1][..j] == cs[..j];
  }

  /** The inner loop gathers exactly the needed permissions. */
  lemma {:induction false} CollectGathers(rows: seq<PermRow>, cs: seq<Codename>,
                                          modelMap: map<Codename, ModelName>, faulty: set<Codename>)
    ensures (set k | k in Collect(rows, cs, modelMap, faulty).1) == Needed(cs, modelMap, faulty)
    decreases |cs|
  {
    if cs != [] {
      var init, c := cs[..|cs| - 1], cs[|cs| - 1];
      assert cs == init + [c];
      CollectGathers(rows, init, modelMap, faulty);
      NeededSnoc(init, c, modelMap, faulty);
      var (r0, acc0) := Collect(rows, init, modelMap, faulty);
      if c in modelMap && c !in faulty {
        var k := PermKey(c, modelMap[c]);
        assert (set x | x in acc0 + [k]) == (set x | x in acc0) + {k};
      }
    }
  }

  /**
   * The inner loop keeps every existing row and adds, named by
   * `DisplayName`, one row for each needed permission that was missing.
   */
  lemma {:induction false} CollectRows(rows: seq<PermRow>, cs: seq<Codename>,
                                       modelMap: map<Codename, ModelName>, faulty: set<Codename>)
    ensures var r := Collect(rows, cs, modelMap, faulty).0;
      && |rows| <= |r| && r[..|rows|] == rows
      && RowKeys(r) == RowKeys(rows) + Needed(cs, modelMap, faulty)
      && (forall i :: |rows| <= i < |r| ==>
            r[i].key !in RowKeys(rows) && r[i].name == DisplayName(r[i].key.codename))
    decreases |cs|
  {
    if cs != [] {
      var init, c := cs[..|cs| - 1], cs[|cs| - 1];
      assert cs == init + [c];
      CollectRows(rows, init, modelMap, faulty);
      NeededSnoc(init, c, modelMap, faulty);
      var r0 := Collect(rows, init, modelMap, faulty).0;
      if c in modelMap && c !in faulty {
        var k := PermKey(c, modelMap[c]);
        if k !in RowKeys(r0) {
          var r := r0 + [PermRow(k, DisplayName(c))];
          RowKeysSnoc(r0, PermRow(k, DisplayName(c)));
          assert r[..|rows|] == r0[..|rows|];
          assert k !in RowKeys(rows);
        }
      }
    }
  }

  /** The inner loop keeps the table's uniqueness constraint. */
  lemma {:induction false} CollectUnique(rows: seq<PermRow>, cs: seq<Codename>,
                                         modelMap: map<Codename, ModelName>, faulty: set<Codename>)
    requires UniqueKeys(rows)
    ensures UniqueKeys(Collect(rows, cs, modelMap, faulty).0)
    decreases |cs|
  {
    if cs != [] {
      var init, c := cs[..|cs| - 1], cs[|cs| - 1];
      CollectUnique(rows, init, modelMap, faulty);
      var r0 := Collect(rows, init, modelMap, faulty).0;
      if c in modelMap && c !in faulty {
        var k := PermKey(c, modelMap[c]);
        if k !in RowKeys(r0) {
          var r := r0 + [PermRow(k, DisplayName(c))];
          forall i, j | 0 <= i < j < |r| ensures r[i].key != r[j].key {
            if j == |r0| {
              assert r[i].key in RowKeys(r0);
            }
          }
        }
      }
    }
  }

  /** When every needed permission exists already, the inner loop writes nothing. */
  lemma {:induction false} CollectNoOp(rows: seq<PermRow>, cs: seq<Codename>,
                                       modelMap: map<Codename, ModelName>, faulty: set<Codename>)
    requires Needed(cs, modelMap, faulty) <= RowKeys(rows)
    ensures Collect(rows, cs, modelMap, faulty).0 == rows
    decreases |cs|
  {
    if cs != [] {
      var init, c := cs[..|cs| - 1], cs[|cs| - 1];
      assert cs == init + [c];
      NeededSnoc(init, c, modelMap, faulty);
      CollectNoOp(rows, init, modelMap, faulty);
      if c in modelMap && c !in faulty {
        assert PermKey(c, modelMap[c]) in RowKeys(rows);
      }
    }
  }

  /**
   * What the inner loop achieves: it gathers exactly the needed permissions,
   * keeps every existing row, adds one row named by `DisplayName` for each
   * needed permission that was missing and nothing else, and so keeps the
   * table's uniqueness constraint.  When nothing is missing it writes nothing.
   */
  lemma CollectSpec(rows: seq<PermRow>, cs: seq<Codename>,
                    modelMap: map<Codename, ModelName>, faulty: set<Codename>)
    ensures var (r, acc) := Collect(rows, cs, modelMap, faulty);
      && (set k | k in acc) == Needed(cs, modelMap, faulty)
      && |rows| <= |r| && r[..|rows|] == rows
      && RowKeys(r) == RowKeys(rows) + Needed(cs, modelMap, faulty)
      && (forall i :: |rows| <= i < |r| ==>
            r[i].key !in RowKeys(rows) && r[i].name == DisplayName(r[i].key.codename))
      && (UniqueKeys(rows) ==> UniqueKeys(r))
      && (Needed(cs, modelMap, faulty) <= RowKeys(rows) ==> r == rows)
  {
    CollectGathers(rows, cs, modelMap, faulty);
    CollectRows(rows, cs, modelMap, faulty);
    if UniqueKeys(rows) {
      CollectUnique(rows, cs, modelMap, faulty);
    }
    if Needed(cs, modelMap, faulty) <= RowKeys(rows) {
      CollectNoOp(rows, cs, modelMap, faulty);
    }
  }

  // ---------------------------------------------------------------------------
  // The outer loop

  /** Group names that occur once each in a table. */
  predicate DistinctNames(table: seq<GroupEntry>)
  {
    forall i, j :: 0 <= i < j < |table| ==> table[i].name != table[j].name
  }

  lemma UpdateUnion<K, V>(a: map<K, V>, b: map<K, V>, k: K, v: V)
    ensures (a + b)[k := v] == a + b[k := v]
  {
  }

  /**
   * The groups and roles after the bootstrap: the table's rows override
   * the existing ones of the same name and every other group and role is
   * untouched.
   */
  lemma {:induction false} SyncAllMaps(st: Store, table: seq<GroupEntry>,
                                       modelMap: map<Codename, ModelName>, faulty: set<Codename>)
    ensures SyncAll(st, table, modelMap, faulty).groups == st.groups + TableGroups(table, modelMap, faulty)
    ensures SyncAll(st, table, modelMap, faulty).roles == st.roles + TableRoles(table, modelMap, faulty)
    decreases |table|
  {
    if table != [] {
      var init, e := table[..|table| - 1], table[|table| - 1];
      SyncAllMaps(st, init, modelMap, faulty);
      var mid := SyncAll(st, init, modelMap, faulty);
      var acc := Collect(mid.permissions, e.codenames, modelMap, faulty).1;
      var perms := Needed(e.codenames, modelMap, faulty);
      assert (set k | k in acc) == perms by {
        CollectSpec(mid.permissions, e.codenames, modelMap, faulty);
      }
      var out := SyncAll(st, table, modelMap, faulty);
      assert out.groups == mid.groups[e.name := perms];
      assert out.roles == mid.roles[e.name := SystemRole(RoleDescription(e.name), perms)];
      UpdateUnion(st.groups, TableGroups(init, modelMap, faulty), e.name, perms);
      UpdateUnion(st.roles, TableRoles(init, modelMap, faulty), e.name, SystemRole(RoleDescription(e.name), perms));
    }
  }

  /**
   * The permission table after the bootstrap: existing rows are kept, and
   * exactly the missing needed permissions are added, named by
   * `DisplayName`.
   */
  lemma {:induction false} SyncAllRows(st: Store, table: seq<GroupEntry>,
                                       modelMap: map<Codename, ModelName>, faulty: set<Codename>)
    ensures var out := SyncAll(st, table, modelMap, faulty).permissions;
      && |st.permissions| <= |out| && out[..|st.permissions|] == st.permissions
      && RowKeys(out) == RowKeys(st.permissions) + AllNeeded(table, modelMap, faulty)
      && (forall i :: |st.permissions| <= i < |out| ==>
            out[i].key !in RowKeys(st.permissions) && out[i].name == DisplayName(out[i].key.codename))
    decreases |table|
  {
    if table != [] {
      var init, e := table[..|table| - 1], table[|table| - 1];
      SyncAllRows(st, init, modelMap, faulty);
      var mid := SyncAll(st, init, modelMap, faulty).permissions;
      var out := SyncAll(st, table, modelMap, faulty).permissions;
      assert out == Collect(mid, e.codenames, modelMap, faulty).0;
      CollectRows(mid, e.codenames, modelMap, faulty);
      var n := |st.permissions|;
      assert out[..|mid|] == mid;
      assert out[..n] == mid[..n];
      assert AllNeeded(table, modelMap, faulty) ==
        AllNeeded(init, modelMap, faulty) + Needed(e.codenames, modelMap, faulty);
      forall i | n <= i < |out|
        ensures out[i].key !in RowKeys(st.permissions) && out[i].name == DisplayName(out[i].key.codename)
      {
        if i < |mid| {
          assert out[i] == mid[i];
        } else {
          assert out[i].key !in RowKeys(mid);
        }
      }
    }
  }

  /** The bootstrap keeps the permission table's uniqueness constraint: a shared permission is created once. */
  lemma {:induction false} SyncAllUnique(st: Store, table: seq<GroupEntry>,
                                         modelMap: map<Codename, ModelName>, faulty: set<Codename>)
    requires UniqueKeys(st.permissions)
    ensures UniqueKeys(SyncAll(st, table, modelMap, faulty).permissions)
    decreases |table|
  {
    if table != [] {
      var init, e := table[..|table| - 1], table[|table| - 1];
      SyncAllUnique(st, init, modelMap, faulty);
      CollectUnique(SyncAll(st, init, modelMap, faulty).permissions, e.codenames, modelMap, faulty);
    }
  }

  /** When every needed permission already exists, the bootstrap writes no permission row. */
  lemma {:induction false} SyncAllWritesNoRow(st: Store, table: seq<GroupEntry>,
                                              modelMap: map<Codename, ModelName>, faulty: set<Codename>)
    requires AllNeeded(table, modelMap, faulty) <= RowKeys(st.permissions)
    ensures SyncAll(st, table, modelMap, faulty).permissions == st.permissions
    decreases |table|
  {
    if table != [] {
      var init, e := table[..|table| - 1], table[|table| - 1];
      SyncAllWritesNoRow(st, init, modelMap, faulty);
      CollectSpec(st.permissions, e.codenames, modelMap, faulty);
    }
  }

  lemma MapUnionTwice<K, V>(a: map<K, V>, b: map<K, V>)
    ensures (a + b) + b == a + b
  {
  }

  /** After the bootstrap every permission the table needs exists. */
  lemma SyncAllCoversNeeded(st: Store, table: seq<GroupEntry>, modelMap: map<Codename, ModelName>, faulty: set<Codename>)
    ensures AllNeeded(table, modelMap, faulty) <= RowKeys(SyncAll(st, table, modelMap, faulty).permissions)
  {
    SyncAllRows(st, table, modelMap, faulty);
  }

  /** Running the bootstrap a second time changes nothing: no new rows, groups or roles, the same sets. */
  lemma Idempotent(st: Store, table: seq<GroupEntry>, modelMap: map<Codename, ModelName>, faulty: set<Codename>)
    ensures SyncAll(SyncAll(st, table, modelMap, faulty), table, modelMap, faulty) == SyncAll(st, table, modelMap, faulty)
  {
    var once := SyncAll(st, table, modelMap, faulty);
    SyncAllCoversNeeded(st, table, modelMap, faulty);
    SyncAllWritesNoRow(once, table, modelMap, faulty);
    SyncAllMaps(st, table, modelMap, faulty);
    SyncAllMaps(once, table, modelMap, faulty);
    MapUnionTwice(st.groups, TableGroups(table, modelMap, faulty));
    MapUnionTwice(st.roles, TableRoles(table, modelMap, faulty));
  }

  lemma {:induction false} TableGroupsKeys(table: seq<GroupEntry>, modelMap: map<Codename, ModelName>, faulty: set<Codename>)
    ensures forall i :: 0 <= i < |table| ==> table[i].name in TableGroups(table, modelMap, faulty)
    decreases |table|
  {
    if table != [] {
      TableGroupsKeys(table[..|table| - 1], modelMap, faulty);
    }
  }

  /** After the bootstrap, every group of the table has a role with the group's set and the fixed description. */
  lemma RoleMirrorsGroup(st: Store, table: seq<GroupEntry>, modelMap: map<Codename, ModelName>, faulty: set<Codename>)
    ensures var out := SyncAll(st, table, modelMap, faulty);
      forall i :: 0 <= i < |table| ==>
        && table[i].name in out.groups && table[i].name in out.roles
        && out.roles[table[i].name] == SystemRole(RoleDescription(table[i].name), out.groups[table[i].name])
  {
    SyncAllMaps(st, table, modelMap, faulty);
    TableGroupsKeys(table, modelMap, faulty);
  }

  /** With distinct group names, the row of each group's name is that group's needed set. */
  lemma {:induction false} TableGroupsAt(table: seq<GroupEntry>, modelMap: map<Codename, ModelName>, faulty: set<Codename>)
    requires DistinctNames(table)
    ensures forall i :: 0 <= i < |table| ==>
      table[i].name in TableGroups(table, modelMap, faulty) &&
      TableGroups(table, modelMap, faulty)[table[i].name] == Needed(table[i].codenames, modelMap, faulty)
    decreases |table|
  {
    if table != [] {
      var init, e := table[..|table| - 1], table[|table| - 1];
      TableGroupsAt(init, modelMap, faulty);
      var m := TableGroups(table, modelMap, faulty);
      assert m == TableGroups(init, modelMap, faulty)[e.name := Needed(e.codenames, modelMap, faulty)];
      forall i | 0 <= i < |table|
        ensures table[i].name in m && m[table[i].name] == Needed(table[i].codenames, modelMap, faulty)
      {
        if i < |table| - 1 {
          assert table[i] == init[i];
          assert table[i].name != e.name;
        }
      }
    }
  }

  lemma {:induction false} AllNeededContains(table: seq<GroupEntry>, i: nat, modelMap: map<Codename, ModelName>, faulty: set<Codename>)
    requires i < |table|
    ensures Needed(table[i].codenames, modelMap, faulty) <= AllNeeded(table, modelMap, faulty)
    decreases |table|
  {
    if i < |table| - 1 {
      assert table[i] == table[..|table| - 1][i];
      AllNeededContains(table[..|table| - 1], i, modelMap, faulty);
    }
  }

  /**
   * After the bootstrap each group of a table with distinct names holds
   * exactly the permissions of its mapped, non-failing codenames, and each
   * of them exists in the permission table.
   */
  lemma GroupsHoldNeeded(st: Store, table: seq<GroupEntry>, modelMap: map<Codename, ModelName>, faulty: set<Codename>)
    requires DistinctNames(table)
    ensures var out := SyncAll(st, table, modelMap, faulty);
      forall i :: 0 <= i < |table| ==>
        && table[i].name in out.groups
        && out.groups[table[i].name] == Needed(table[i].codenames, modelMap, faulty)
        && out.groups[table[i].name] <= RowKeys(out.permissions)
  {
    SyncAllMaps(st, table, modelMap, faulty);
    SyncAllRows(st, table, modelMap, faulty);
    TableGroupsAt(table, modelMap, faulty);
    forall i | 0 <= i < |table|
      ensures Needed(table[i].codenames, modelMap, faulty) <= AllNeeded(table, modelMap, faulty)
    {
      AllNeededContains(table, i, modelMap, faulty);
    }
  }

  /** A codename without a mapped model, or whose lookup raises, is skipped and the others still count. */
  lemma SkippedCodename(cs: seq<Codename>, i: nat, modelMap: map<Codename, ModelName>, faulty: set<Codename>)
    requires i < |cs| && (cs[i] !in modelMap || cs[i] in faulty)
    ensures Needed(cs, modelMap, faulty) == Needed(cs[..i] + cs[i + 1..], modelMap, faulty)
  {
    var rest := cs[..i] + cs[i + 1..];
    forall c | c in cs && c != cs[i] ensures c in rest {
      var j :| 0 <= j < |cs| && cs[j] == c;
      if j < i { assert rest[j] == c; } else { assert rest[j - 1] == c; }
    }
    forall c | c in rest ensures c in cs {
      var j :| 0 <= j < |rest| && rest[j] == c;
      if j < i { assert cs[j] == c; } else { assert cs[j + 1] == c; }
    }
  }

  // ---------------------------------------------------------------------------
  // The tables of the source

  /** Under the codename-to-model table and no failing lookup, every listed codename is needed. */
  lemma NeededUnderSourceMap(cs: seq<Codename>)
    ensures Needed(cs, PermissionToModelMap(), {}) == set c | c in cs :: PermKey(c, ModelOf(c))
  {
  }

  lemma SourceGroupNamesDistinct()
    ensures DistinctNames(GroupPermissions())
  {
    SixGroups();
    var names := GroupNames(GroupPermissions());
    forall i, j | 0 <= i < j < |GroupPermissions()|
      ensures GroupPermissions()[i].name != GroupPermissions()[j].name
    {
      assert names[i] != names[j];
    }
  }

  /**
   * With the source's tables and no failing lookup, every one of the six
   * groups ends with exactly the permissions of its listed codenames, each
   * under the model of the codename-to-model table, and its role mirrors it.
   */
  lemma BootstrapGrantsTable(st: Store)
    ensures var out := SyncAll(st, GroupPermissions(), PermissionToModelMap(), {});
      forall e :: e in GroupPermissions() ==>
        && e.name in out.groups && e.name in out.roles
        && out.groups[e.name] == (set c | c in e.codenames :: PermKey(c, ModelOf(c)))
        && out.roles[e.name] == SystemRole(RoleDescription(e.name), out.groups[e.name])
  {
    var table := GroupPermissions();
    SourceGroupNamesDistinct();
    GroupsHoldNeeded(st, table, PermissionToModelMap(), {});
    RoleMirrorsGroup(st, table, PermissionToModelMap(), {});
    forall e | e in table
      ensures Needed(e.codenames, PermissionToModelMap(), {}) == set c | c in e.codenames :: PermKey(c, ModelOf(c))
    {
      NeededUnderSourceMap(e.codenames);
    }
  }

  // ---------------------------------------------------------------------------
  // The imperative bootstrap

  /** The permission, group and role tables. */
  class AuthStore {
    var permissions: seq<PermRow>
    var groups: map<string, set<PermKey>>
    var roles: map<string, SystemRole>

    ghost predicate Valid()
      reads this
    {
      UniqueKeys(permissions)
    }

    function State(): Store
      reads this
    {
      Store(permissions, groups, roles)
    }

    constructor (permissions: seq<PermRow>, groups: map<string, set<PermKey>>, roles: map<string, SystemRole>)
      requires UniqueKeys(permissions)
      ensures Valid() && State() == Store(permissions, groups, roles)
    {
      this.permissions := permissions;
      this.groups := groups;
      this.roles := roles;
    }

    /** `Permission.objects.get(...)` succeeds for `k`. */
    method Exists(k: PermKey) returns (found: bool)
      ensures found <==> k in RowKeys(permissions)
    {
      found := false;
      var i := 0;
      while i < |permissions|
        invariant 0 <= i <= |permissions|
        invariant found <==> exists j :: 0 <= j < i && permissions[j].key == k
      {
        if permissions[i].key == k {
          found := true;
        }
        i := i + 1;
      }
    }

    /**
     * The inner loop for one group: find or create the permission of every
     * mapped, non-failing codename and return them in order.
     */
    method GatherPermissions(codenames: seq<Codename>, modelMap: map<Codename, ModelName>, faulty: set<Codename>)
      returns (permissionsForGroup: seq<PermKey>)
      requires Valid()
      modifies this
      ensures Valid()
      ensures (permissions, permissionsForGroup) == Collect(old(permissions), codenames, modelMap, faulty)
      ensures groups == old(groups) && roles == old(roles)
    {
      ghost var rows0 := permissions;
      permissionsForGroup := [];
      var j := 0;
      while j < |codenames|
        invariant 0 <= j <= |codenames|
        invariant (permissions, permissionsForGroup) == Collect(rows0, codenames[..j], modelMap, faulty)
        invariant groups == old(groups) && roles == old(roles)
        invariant Valid()
      {
        var codename := codenames[j];
        CollectLast(rows0, codenames, j, modelMap, faulty);
        CollectUnique(rows0, codenames[..j + 1], modelMap, faulty);
        if codename in modelMap && codename !in faulty {
          var key := PermKey(codename, modelMap[codename]);
          var found := Exists(key);
          if !found {
            permissions := permissions + [PermRow(key, DisplayName(codename))];
          }
          permissionsForGroup := permissionsForGroup + [key];
        }
        j := j + 1;
      }
      assert codenames[..j] == codenames;
    }

    /** The post-migrate bootstrap over `table`, with codename lookups in `modelMap`. */
    method CreateGroupsWithPermissions(table: seq<GroupEntry>, modelMap: map<Codename, ModelName>, faulty: set<Codename>)
      requires Valid()
      modifies this
      ensures Valid()
      ensures State() == SyncAll(old(State()), table, modelMap, faulty)
    {
      ghost var st0 := State();
      var g := 0;
      while g < |table|
        invariant 0 <= g <= |table|
        invariant State() == SyncAll(st0, table[..g], modelMap, faulty)
        invariant Valid()
      {
        var entry := table[g];
        var permissionsForGroup := GatherPermissions(entry.codenames, modelMap, faulty);
        var perms := set k | k in permissionsForGroup;
        groups := groups[entry.name := perms];
        roles := roles[entry.name := SystemRole(RoleDescription(entry.name), groups[entry.name])];
        assert table[..g + 1][..g] == table[..g];
        g := g + 1;
      }
      assert table[..g] == table;
    }

    /** The bootstrap with the source's own tables. */
    method CreateGroupsFromTables(faulty: set<Codename>)
      requires Valid()
      modifies this
      ensures Valid()
      ensures State() == SyncAll(old(State()), GroupPermissions(), PermissionToModelMap(), faulty)
    {
      CreateGroupsWithPermissions(GroupPermissions(), PermissionToModelMap(), faulty);
    }
  }
}
