/** The request middleware of the Next.js frontend
    (next-frontend/middleware.ts): it derives a tenant slug from the `host`
    header and forwards it to the page handlers in the `x-tenant-slug` header. */
module Middleware {
  import opened Wrappers
  import opened Strings

  /** Subdomains that never name a tenant. */
  const ExcludedSubdomains: seq<string> := ["www", "admin", "api", "mail", "ftp"]

  /** The request header the middleware adds. */
  const TenantHeader: string := "x-tenant-slug"

  /** `extractSubdomain`: drop the port, give up on local development hosts,
      and otherwise take the first label of a host with three or more labels. */
  function ExtractSubdomain(hostname: string): (r: Option<string>)
    ensures r.Some? ==> '.' !in r.value && ':' !in r.value
    ensures r.Some? ==> StartsWith(hostname, r.value + ".")
  {
    var host := Split(hostname, ':')[0];
    var parts := Split(host, '.');
    if Contains(host, "localhost") || Contains(host, "127.0.0.1") then None
    else if |parts| >= 3 then
      SplitPiecesFree(hostname, ':');
      SplitPiecesFree(host, '.');
      SplitHead(hostname, ':');
      SplitHead(host, '.');
      assert hostname[..|parts[0]| + 1] == host[..|parts[0]| + 1];
      assert forall k :: 0 <= k < |parts[0]| ==> parts[0][k] == host[k];
      Some(parts[0])
    else None
  }

  /** Paths the middleware lets through untouched: API routes and static assets. */
  predicate IsSkippedPath(pathname: string) {
    StartsWith(pathname, "/api/") || StartsWith(pathname, "/_next") || StartsWith(pathname, "/favicon.ico")
  }

  /** The parts of an incoming request the middleware reads. Header names are
      taken as already normalised to lower case. */
  datatype Request = Request(headers: map<string, string>, pathname: string)

  /** `NextResponse.next()` (continue with the request as it is) or
      `NextResponse.next({ request: { headers } })` (continue with new headers). */
  datatype Outcome = Continue | ContinueWithHeaders(headers: map<string, string>)

  /** `request.headers.get("host") || ""`. */
  function HostOf(req: Request): string {
    if "host" in req.headers then req.headers["host"] else ""
  }

  /** The subdomain a request resolves to, if it is one that names a tenant. */
  predicate ResolvesTenant(req: Request, sub: string) {
    && !IsSkippedPath(req.pathname)
    && ExtractSubdomain(HostOf(req)) == Some(sub)
    && sub != ""
    && sub !in ExcludedSubdomains
  }

  /** `middleware`: the chain of guard returns. The headers are copied and one
      key is set on the copy. */
  function Handle(req: Request): (r: Outcome)
    ensures r.ContinueWithHeaders? <==> exists sub :: ResolvesTenant(req, sub)
    ensures r.ContinueWithHeaders? ==>
      && TenantHeader in r.headers
      && ResolvesTenant(req, r.headers[TenantHeader])
      && (forall k :: k != TenantHeader ==> (k in r.headers <==> k in req.headers))
      && (forall k :: k != TenantHeader && k in req.headers ==> r.headers[k] == req.headers[k])
  {
    if IsSkippedPath(req.pathname) then Continue
    else
      var subdomain := ExtractSubdomain(HostOf(req));
      if subdomain.None? || subdomain.value == "" || subdomain.value in ExcludedSubdomains then Continue
      else
        assert ResolvesTenant(req, subdomain.value);
        ContinueWithHeaders(req.headers[TenantHeader := subdomain.value])
  }

  /** The port never matters: a host followed by `:port` resolves like the bare host. */
  lemma PortIgnored(host: string, port: string)
    requires ':' !in host
    ensures ExtractSubdomain(host + ":" + port) == ExtractSubdomain(host)
  {
    SplitAroundSep(host, port, ':');
    SplitNoSep(host, ':');
    assert host + ":" + port == host + [':'] + port;
  }

  /** Local development hosts never yield a subdomain, with or without a port. */
  lemma LocalHostsYieldNothing(host: string, port: string)
    requires ':' !in host
    requires Contains(host, "localhost") || Contains(host, "127.0.0.1")
    ensures ExtractSubdomain(host) == None
    ensures ExtractSubdomain(host + ":" + port) == None
  {
    SplitNoSep(host, ':');
    PortIgnored(host, port);
  }

  /** A production host written as three or more dot-free labels yields its first label. */
  lemma FirstLabelIsSubdomain(labels: seq<string>)
    requires |labels| >= 3
    requires forall k :: 0 <= k < |labels| ==> '.' !in labels[k] && ':' !in labels[k]
    requires !Contains(Join(labels, '.'), "localhost") && !Contains(Join(labels, '.'), "127.0.0.1")
    ensures ExtractSubdomain(Join(labels, '.')) == Some(labels[0])
  {
    JoinFree(labels, '.', ':');
    SplitNoSep(Join(labels, '.'), ':');
    SplitJoin(labels, '.');
  }

  /** A host of one or two labels (the bare apex domain) yields nothing. */
  lemma FewLabelsYieldNothing(labels: seq<string>)
    requires 1 <= |labels| < 3
    requires forall k :: 0 <= k < |labels| ==> '.' !in labels[k] && ':' !in labels[k]
    ensures ExtractSubdomain(Join(labels, '.')) == None
  {
    JoinFree(labels, '.', ':');
    SplitNoSep(Join(labels, '.'), ':');
    SplitJoin(labels, '.');
  }

  /** Joining pieces free of a character with a different separator keeps it out. */
  lemma {:induction false} JoinFree(parts: seq<string>, sep: char, c: char)
    requires |parts| >= 1 && sep != c
    requires forall k :: 0 <= k < |parts| ==> c !in parts[k]
    ensures c !in Join(parts, sep)
    decreases |parts|
  {
    if |parts| > 1 {
      JoinFree(parts[1..], sep, c);
    }
  }

  /** The production apex under which every tenant gets a subdomain. */
  const AnalyticsApex: string := "analytics.fintyhive.com"

  /** `<slug>.analytics.fintyhive.com`, the domain the frontend and the
      analytics provisioning both derive for a tenant. */
  function TenantDomain(slug: string): string {
    slug + "." + AnalyticsApex
  }

  /** The loopback address cannot straddle the first dot of `a.b` when `a` has
      no dot and `b` starts with something other than the digits that follow a
      dot in `127.0.0.1`. */
  lemma LoopbackNotAcross(a: string, b: string)
    requires '.' !in a && |b| >= 1 && b[0] != '0' && b[0] != '1'
    requires !Contains(b, "127.0.0.1")
    ensures !Contains(a + "." + b, "127.0.0.1")
  {
    var w := "127.0.0.1";
    var s := a + "." + b;
    assert s[..|a|] == a;
    assert s[|a| + 1..] == b;
    forall i | 0 <= i && i + 9 <= |s|
      ensures !OccursAt(s, w, i)
    {
      if i > |a| {
        assert !OccursAt(b, w, i - |a| - 1);
        assert s[i..i + 9] == b[i - |a| - 1..i - |a| + 8];
      } else if i + 9 <= |a| {
        assert s[i + 3] == a[i + 3] != w[3];
      } else {
        var j := |a| - i;
        assert s[i + j] == '.';
        if j == 3 || j == 5 || j == 7 {
          assert s[i + j + 1] == b[0] != w[j + 1];
        } else {
          assert s[i + j] != w[j];
        }
      }
    }
  }

  /** A tenant's domain resolves back to the tenant's slug. */
  lemma TenantDomainResolves(slug: string)
    requires '.' !in slug && ':' !in slug
    requires !Contains(slug, "localhost")
    ensures ExtractSubdomain(TenantDomain(slug)) == Some(slug)
  {
    var apex := ["analytics", "fintyhive", "com"];
    var labels := [slug] + apex;
    assert labels[1..] == apex;
    ApexJoin();
    assert Join(labels, '.') == TenantDomain(slug);
    forall k | 0 <= k < |labels|
      ensures !Contains(labels[k], "localhost")
      ensures '.' !in labels[k] && ':' !in labels[k]
    {
      if k > 0 {
        ApexNoLocalHost();
        assert labels[k] == apex[k - 1];
      }
    }
    JoinAvoids(labels, '.', "localhost");
    ApexNoLoopback();
    LoopbackNotAcross(slug, AnalyticsApex);
    FirstLabelIsSubdomain(labels);
  }

  lemma ApexJoin()
    ensures Join(["analytics", "fintyhive", "com"], '.') == AnalyticsApex
  {
  }

  /** The apex labels are too short to hold a local host name. */
  lemma ApexNoLocalHost()
    ensures !Contains("analytics", "localhost") && !Contains("fintyhive", "localhost") && !Contains("com", "localhost")
  {
    ShortContains("analytics", "localhost");
    ShortContains("fintyhive", "localhost");
    ShortContains("com", "localhost");
  }

  /** The apex has no digit `1`, so no loopback address. */
  lemma ApexNoLoopback()
    ensures !Contains(AnalyticsApex, "127.0.0.1")
  {
    MissingCharNotContained(AnalyticsApex, "127.0.0.1", '1');
  }

  /** The bare analytics host has three labels, so it resolves to `analytics`
      (which no tenant-name exclusion catches). */
  lemma ApexIsItselfASubdomain()
    ensures ExtractSubdomain(AnalyticsApex) == Some("analytics")
  {
    ApexJoin();
    ApexNoLocalHost();
    ApexNoLoopback();
    JoinAvoids(["analytics", "fintyhive", "com"], '.', "localhost");
    FirstLabelIsSubdomain(["analytics", "fintyhive", "com"]);
  }

  /** A tenant host in production resolves to its tenant. */
  lemma AcmeHostResolves()
    ensures ExtractSubdomain("acme.analytics.fintyhive.com") == Some("acme")
  {
    ShortContains("acme", "localhost");
    assert TenantDomain("acme") == "acme.analytics.fintyhive.com";
    TenantDomainResolves("acme");
  }

  /** The marketing domain has two labels, so it resolves to nothing. */
  lemma MarketingDomainYieldsNothing()
    ensures ExtractSubdomain("fintyhive.com") == None
  {
    assert Join(["fintyhive", "com"], '.') == "fintyhive.com";
    FewLabelsYieldNothing(["fintyhive", "com"]);
  }

  /** API routes, `/_next` assets and the favicon are forwarded untouched, whatever the host. */
  lemma SkippedPathsUntouched(headers: map<string, string>, pathname: string)
    requires StartsWith(pathname, "/api/") || StartsWith(pathname, "/_next") || StartsWith(pathname, "/favicon.ico")
    ensures Handle(Request(headers, pathname)) == Continue
  {
  }

  /** Excluded names never become a tenant header. */
  lemma ExcludedNeverTagged(req: Request)
    requires ExtractSubdomain(HostOf(req)) == Some("")
      || exists k :: 0 <= k < |ExcludedSubdomains| && ExtractSubdomain(HostOf(req)) == Some(ExcludedSubdomains[k])
    ensures Handle(req) == Continue
  {
  }

  /** The tenant lookup route lives under `/api/`, so the middleware never tags its
      requests: whatever `x-tenant-slug` it sees comes from the caller. */
  lemma TenantApiRequestsNotTagged(headers: map<string, string>)
    ensures Handle(Request(headers, "/api/tenant")) == Continue
  {
    assert "/api/tenant"[..5] == "/api/";
  }
}
