/**
 * Tenant scoping of viewset data (apps/tenancies/mixins.py): the records a
 * view lists are those of the current tenant, and records it creates or
 * updates are stamped with the current tenant.
 */
module TenantScoping {
  import opened Values
  import opened TenantContext

  /** A stored record: its tenant and its other fields. */
  datatype Row<D> = Row(tenant: Option<Tenant>, data: D)

  /**
   * A serializer's validated data: the fields of the record and whatever
   * tenant the client put in them.
   */
  datatype Draft<D> = Draft(tenant: Option<Tenant>, data: D)

  /** The error of a create without a tenant. */
  datatype Error = RuntimeError(message: string)

  /** `a` is `b` with some elements dropped, the rest in order. */
  predicate IsSubsequence<T(==)>(a: seq<T>, b: seq<T>)
    decreases |b|
  {
    if a == [] then true
    else if b == [] then false
    else if a[0] == b[0] then IsSubsequence(a[1..], b[1..])
    else IsSubsequence(a, b[1..])
  }

  /** `queryset.filter(tenant=tenant)`. */
  function FilterByTenant<D(==,!new)>(base: seq<Row<D>>, t: Tenant): (r: seq<Row<D>>)
    ensures IsSubsequence(r, base)
    ensures forall i :: 0 <= i < |r| ==> r[i].tenant == Some(t)
    ensures forall x: Row<D> :: x.tenant == Some(t) ==> multiset(r)[x] == multiset(base)[x]
    ensures forall x: Row<D> :: x.tenant != Some(t) ==> multiset(r)[x] == 0
    decreases |base|
  {
    if base == [] then []
    else
      var rest := FilterByTenant(base[1..], t);
      assert base == [base[0]] + base[1..];
      if base[0].tenant == Some(t) then [base[0]] + rest else rest
  }

  /**
   * `get_queryset`: nothing without a current tenant, otherwise exactly the
   * base records of the current tenant, in their order.
   */
  function GetQueryset<D(==,!new)>(ctx: TenantLocal, base: seq<Row<D>>): (r: seq<Row<D>>)
    reads ctx
    ensures ctx.GetCurrentTenant().None? ==> r == []
    ensures IsSubsequence(r, base)
    ensures forall i :: 0 <= i < |r| ==> r[i].tenant == ctx.GetCurrentTenant()
    ensures ctx.GetCurrentTenant().Some? ==>
      forall x: Row<D> :: x.tenant == ctx.GetCurrentTenant() ==> multiset(r)[x] == multiset(base)[x]
  {
    match ctx.GetCurrentTenant()
    case None => []
    case Some(t) => FilterByTenant(base, t)
  }

  /** Two current tenants never see each other's records. */
  lemma TenantsSeeDisjointRecords<D(!new)>(base: seq<Row<D>>, t1: Tenant, t2: Tenant)
    requires t1 != t2
    ensures multiset(FilterByTenant(base, t1)) !! multiset(FilterByTenant(base, t2))
  {
    var a, b := multiset(FilterByTenant(base, t1)), multiset(FilterByTenant(base, t2));
    forall x ensures a[x] == 0 || b[x] == 0 {
    }
  }

  /** The records behind a viewset. */
  class RecordTable<D(==,!new)> {
    var rows: seq<Row<D>>

    constructor (rows: seq<Row<D>>)
      ensures this.rows == rows
    {
      this.rows := rows;
    }

    /**
     * `perform_create`: without a current tenant it raises and saves
     * nothing; otherwise it saves the draft under the current tenant,
     * whatever tenant the client supplied.
     */
    method PerformCreate(ctx: TenantLocal, draft: Draft<D>) returns (r: Result<Row<D>, Error>)
      modifies this
      ensures ctx.GetCurrentTenant().None? ==>
        r == Err(RuntimeError("Cannot create object without a valid tenant")) && rows == old(rows)
      ensures ctx.GetCurrentTenant().Some? ==>
        r == Ok(Row(ctx.GetCurrentTenant(), draft.data)) && rows == old(rows) + [r.value]
    {
      var tenant := ctx.GetCurrentTenant();
      if tenant.None? {
        return Err(RuntimeError("Cannot create object without a valid tenant"));
      }
      var row := Row(tenant, draft.data);
      rows := rows + [row];
      r := Ok(row);
    }

    /**
     * `perform_update` of the record at `index`: it stamps the current
     * tenant with no guard, so with no tenant set the record's tenant
     * becomes None.
     */
    method PerformUpdate(ctx: TenantLocal, index: nat, draft: Draft<D>)
      requires index < |rows|
      modifies this
      ensures rows == old(rows)[index := Row(ctx.GetCurrentTenant(), draft.data)]
    {
      rows := rows[index := Row(ctx.GetCurrentTenant(), draft.data)];
    }
  }
}
