/** The tenant lookup route (next-frontend/app/api/tenant/route.ts): reads the
    slug from the `x-tenant-slug` request header, looks the tenant up in the
    CMS and answers with the tenant's public record, filling in defaults. */
module TenantApi {
  import opened Wrappers
  import opened Cms
  import Middleware

  /** The success body (`PayloadTenantResponse` in next-frontend/types/tenant.ts). */
  datatype TenantResponse = TenantResponse(
    id: string,
    name: string,
    slug: string,
    domain: string,
    umamiWebsiteId: Option<string>,
    primary: string,
    settings: Settings,
    status: TenantStatus)

  /** The route's answers. */
  datatype TenantReply =
    | Found(tenant: TenantResponse)  // 200
    | NoTenant                       // 400 "No tenant specified"
    | NotFound                       // 404 "Tenant not found"
    | FetchFailed                    // 500 "Failed to fetch tenant"
  {
    function Status(): int {
      match this
      case Found(_) => 200
      case NoTenant => 400
      case NotFound => 404
      case FetchFailed => 500
    }
  }

  /** The public record of a tenant document: the slug doubles as the id, and
      a missing domain, brand colour or settings group gets its default. */
  function Present(t: Tenant): (r: TenantResponse)
    ensures r.id == t.slug && r.slug == t.slug && r.name == t.name && r.status == t.status
    ensures r.umamiWebsiteId == t.umamiWebsiteId
    ensures r.domain == OrElse(t.domain, "")
    ensures r.primary == (if t.settings.Some? then OrElse(t.settings.value.brandColor, DefaultBrandColor) else DefaultBrandColor)
    ensures r.settings == t.settings.GetOr(Settings(Some(DefaultBrandColor)))
    ensures r.primary != ""
  {
    var brand := if t.settings.Some? then t.settings.value.brandColor else None;
    TenantResponse(t.slug, t.name, t.slug, OrElse(t.domain, ""), t.umamiWebsiteId,
                   OrElse(brand, DefaultBrandColor), t.settings.GetOr(Settings(Some(DefaultBrandColor))), t.status)
  }

  /** `request.headers.get("x-tenant-slug")`. */
  function SlugHeader(headers: map<string, string>): Option<string> {
    if Middleware.TenantHeader in headers then Some(headers[Middleware.TenantHeader]) else None
  }

  /** `GET /api/tenant`. `lookup` is the reply of the tenant query for the
      header's slug; it is only made when the header is present and non-empty. */
  function GetTenant(headers: map<string, string>, lookup: Fetched<seq<Tenant>>): (r: TenantReply)
    ensures SlugHeader(headers).None? || SlugHeader(headers).value == "" ==> r == NoTenant
    ensures SlugHeader(headers).Some? && SlugHeader(headers).value != "" ==>
      match lookup
      case Ok(docs) => if docs == [] then r == NotFound else r == Found(Present(docs[0]))
      case _ => r == FetchFailed
  {
    var slug := SlugHeader(headers);
    if slug.None? || slug.value == "" then NoTenant
    else
      match lookup
      case NotOk(_) => FetchFailed
      case Thrown => FetchFailed
      case Ok(docs) => if docs == [] then NotFound else Found(Present(docs[0]))
  }

  /** Against the live tenants collection: the tenant with the header's slug
      is found and presented, and a slug nobody has is a 404. */
  lemma AnswersFromStore(tenants: seq<Tenant>, headers: map<string, string>)
    requires SlugHeader(headers).Some? && SlugHeader(headers).value != ""
    ensures var slug := SlugHeader(headers).value;
      var r := GetTenant(headers, TenantQuery(tenants, slug, Up));
      && (r == NotFound <==> forall k :: 0 <= k < |tenants| ==> tenants[k].slug != slug)
      && (forall k :: 0 <= k < |tenants| && tenants[k].slug == slug && UniqueSlugs(tenants) ==>
            r == Found(Present(tenants[k])))
  {
    var slug := SlugHeader(headers).value;
    var matches := TenantsWithSlug(tenants, slug);
    LimitedQueryNonEmpty(matches, 1);
    forall k | 0 <= k < |tenants| && tenants[k].slug == slug && UniqueSlugs(tenants)
      ensures GetTenant(headers, TenantQuery(tenants, slug, Up)) == Found(Present(tenants[k]))
    {
      SlugQueryAtMostOne(tenants, slug);
      assert tenants[k] in matches;
      assert matches == [tenants[k]];
      assert Limit(matches, 1) == [tenants[k]];
    }
  }

  /** The route is reached through the middleware without a tenant header
      unless the caller sent one itself, and then answers 400. */
  lemma UntaggedRequestsRejected(headers: map<string, string>, lookup: Fetched<seq<Tenant>>)
    requires Middleware.TenantHeader !in headers
    ensures Middleware.Handle(Middleware.Request(headers, "/api/tenant")) == Middleware.Continue
    ensures GetTenant(headers, lookup) == NoTenant
  {
    Middleware.TenantApiRequestsNotTagged(headers);
  }
}
