/**
 * The "current tenant" of a request (apps/tenancies/middleware.py).  The
 * source keeps it in a thread-local attribute that the middleware sets from
 * the X-Organization-ID header and deletes when the response leaves; here
 * the attribute is one mutable slot of a `TenantLocal` object.
 */
module TenantContext {
  import opened Values

  /** A tenant row; the slug is unique across the table. */
  datatype Tenant = Tenant(id: int, slug: string)

  /** The tenant table's uniqueness constraint on the slug. */
  predicate UniqueSlugs(tenants: seq<Tenant>)
  {
    forall i, j :: 0 <= i < j < |tenants| ==> tenants[i].slug != tenants[j].slug
  }

  /**
   * The thread-local attribute: absent (never set, or deleted), or holding
   * the value of the last lookup, itself possibly None.
   */
  datatype Slot = Unset | Holds(tenant: Option<Tenant>)

  /** The request header carrying the tenant slug. */
  const OrganizationHeader: string := "X-Organization-ID"

  /**
   * `Tenant.objects.get(slug=slug)`, with "does not exist" read as None.  A
   * missing header is the slug None, which no row has.
   */
  function FindBySlug(tenants: seq<Tenant>, slug: Option<string>): (r: Option<Tenant>)
    ensures r.Some? ==> r.value in tenants && slug == Some(r.value.slug)
    ensures r.None? ==> forall t :: t in tenants ==> slug != Some(t.slug)
  {
    if tenants == [] then None
    else if slug == Some(tenants[0].slug) then Some(tenants[0])
    else FindBySlug(tenants[1..], slug)
  }

  /** Slugs are unique, so the lookup finds the one tenant with that slug. */
  lemma {:induction false} FindBySlugFindsOwner(tenants: seq<Tenant>, t: Tenant)
    requires UniqueSlugs(tenants) && t in tenants
    ensures FindBySlug(tenants, Some(t.slug)) == Some(t)
  {
    if tenants[0] != t {
      assert tenants[0].slug != t.slug by {
        var k :| 0 <= k < |tenants| && tenants[k] == t;
        assert k > 0;
      }
      assert t in tenants[1..] by {
        var k :| 0 <= k < |tenants| && tenants[k] == t;
        assert tenants[1..][k - 1] == t;
      }
      FindBySlugFindsOwner(tenants[1..], t);
    }
  }

  /** The header value, if the request carries the header. */
  function HeaderValue(headers: map<string, string>, name: string): (v: Option<string>)
    ensures v.Some? <==> name in headers
    ensures v.Some? ==> v.value == headers[name]
  {
    if name in headers then Some(headers[name]) else None
  }

  /** The thread-local holding the current tenant. */
  class TenantLocal {
    var slot: Slot

    /** A fresh thread has no tenant attribute. */
    constructor ()
      ensures slot == Unset
    {
      slot := Unset;
    }

    /** `getattr(_thread_locals, "tenant", None)`. */
    function GetCurrentTenant(): (r: Option<Tenant>)
      reads this
      ensures slot.Unset? ==> r == None
      ensures slot.Holds? ==> r == slot.tenant
    {
      match slot
      case Unset => None
      case Holds(t) => t
    }

    /**
     * Look the header's slug up and store the result, overwriting whatever
     * the slot held: the matching tenant, or None when there is no match or
     * no header.
     */
    method ProcessRequest(headers: map<string, string>, tenants: seq<Tenant>)
      requires UniqueSlugs(tenants)
      modifies this
      ensures slot == Holds(FindBySlug(tenants, HeaderValue(headers, OrganizationHeader)))
      ensures GetCurrentTenant().Some? <==>
        OrganizationHeader in headers && exists t :: t in tenants && t.slug == headers[OrganizationHeader]
      ensures forall t :: t in tenants && OrganizationHeader in headers && t.slug == headers[OrganizationHeader] ==>
        GetCurrentTenant() == Some(t)
    {
      var tenantSlug := HeaderValue(headers, OrganizationHeader);
      var tenant := FindBySlug(tenants, tenantSlug);
      slot := Holds(tenant);
      forall t | t in tenants && OrganizationHeader in headers && t.slug == headers[OrganizationHeader]
        ensures GetCurrentTenant() == Some(t)
      {
        FindBySlugFindsOwner(tenants, t);
      }
    }

    /** Delete the attribute if present and hand the response back untouched. */
    method ProcessResponse<R>(response: R) returns (r: R)
      modifies this
      ensures slot == Unset && GetCurrentTenant() == None
      ensures r == response
    {
      if slot.Holds? {
        slot := Unset;
      }
      r := response;
    }
  }
}
