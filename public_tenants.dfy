/** The public tenant listing (next-frontend/app/api/tenants/public/route.ts):
    the first hundred tenants, each cut down to its id, name and slug. */
module PublicTenants {
  import opened Wrappers
  import opened Cms

  /** What the outside world may see of a tenant. */
  datatype PublicTenant = PublicTenant(id: nat, name: string, slug: string)

  /** `({ id, name, slug })` of one document. */
  function Publish(t: Tenant): (p: PublicTenant)
    ensures p.id == t.id && p.name == t.name && p.slug == t.slug
  {
    PublicTenant(t.id, t.name, t.slug)
  }

  /** What is published does not depend on a tenant's password, domain,
      status, settings or analytics id. */
  lemma PublishHidesPrivateFields(t: Tenant, u: Tenant)
    requires t.id == u.id && t.name == u.name && t.slug == u.slug
    ensures Publish(t) == Publish(u)
  {
  }

  /** `data.docs.map(...)`: the same length and order as the documents. */
  function PublishAll(docs: seq<Tenant>): (r: seq<PublicTenant>)
    ensures |r| == |docs|
    ensures forall k :: 0 <= k < |docs| ==> r[k] == Publish(docs[k])
  {
    if |docs| == 0 then []
    else [Publish(docs[0])] + PublishAll(docs[1..])
  }

  /** The page size the route asks for (`limit=100`). */
  const PageLimit: nat := 100

  /** The listing query against the tenants collection, which anyone may read. */
  function ListQuery(tenants: seq<Tenant>, link: Link): (r: Fetched<seq<Tenant>>)
    ensures link == Up ==> r == Ok(Limit(tenants, PageLimit))
    ensures link.Down? ==> r == NotOk(link.status)
    ensures link == Unreachable ==> r == Thrown
  {
    match link
    case Up => Ok(Limit(tenants, PageLimit))
    case Down(status) => NotOk(status)
    case Unreachable => Thrown
  }

  /** The route's answers. */
  datatype PublicReply =
    | Listed(tenants: seq<PublicTenant>)   // 200 { tenants }
    | FetchFailed                          // 500 "Failed to fetch tenants"
  {
    function Status(): int {
      if Listed? then 200 else 500
    }
  }

  /** `GET /api/tenants/public`. */
  function GetPublicTenants(lookup: Fetched<seq<Tenant>>): (r: PublicReply)
    ensures lookup.Ok? ==> r == Listed(PublishAll(lookup.body))
    ensures !lookup.Ok? ==> r == FetchFailed
  {
    match lookup
    case Ok(docs) => Listed(PublishAll(docs))
    case _ => FetchFailed
  }

  /** Against the live collection: the first hundred tenants, in store order,
      each under its own id, name and slug. */
  lemma ListsFirstPage(tenants: seq<Tenant>)
    ensures var r := GetPublicTenants(ListQuery(tenants, Up));
      && r.Listed?
      && |r.tenants| == (if |tenants| <= PageLimit then |tenants| else PageLimit)
      && forall k :: 0 <= k < |r.tenants| ==> r.tenants[k] == PublicTenant(tenants[k].id, tenants[k].name, tenants[k].slug)
  {
    var page := Limit(tenants, PageLimit);
    assert forall k :: 0 <= k < |page| ==> page[k] == tenants[k];
  }
}
