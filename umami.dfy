/** Provisioning a tenant's analytics site (payload-cms/lib/umami-service.ts):
    log in to the analytics server, reuse a listed site that matches the
    tenant by domain or by name, or else create exactly one. The server's site
    list is a `SiteStore`; how each of the three requests fares is a `Link`. */
module Umami {
  import opened Wrappers
  import opened Strings
  import opened Cms
  import Middleware

  /** A site on the analytics server. The server numbers its sites; here the
      k-th site created has id k + 1. */
  datatype Site = Site(id: nat, name: string, domain: string)

  /** The `find` predicate: same domain or same name. */
  predicate SiteMatches(site: Site, domain: string, name: string) {
    site.domain == domain || site.name == name
  }

  /** The index of the first listed site that matches, if any. */
  function FindSite(sites: seq<Site>, domain: string, name: string): (r: Option<nat>)
    ensures r.Some? ==> r.value < |sites| && SiteMatches(sites[r.value], domain, name)
    ensures r.Some? ==> forall j :: 0 <= j < r.value ==> !SiteMatches(sites[j], domain, name)
    ensures r.None? <==> forall j :: 0 <= j < |sites| ==> !SiteMatches(sites[j], domain, name)
  {
    if |sites| == 0 then None
    else if SiteMatches(sites[0], domain, name) then Some(0)
    else
      match FindSite(sites[1..], domain, name)
      case None => None
      case Some(i) => Some(i + 1)
  }

  /** Why provisioning failed: the message of the error the function throws
      and catches. */
  datatype UmamiError = AuthFailed(status: int) | CreationFailed(status: int) | RequestFailed
  {
    /** The `error` text of the response, where the code fixes it. */
    function Message(): Option<string> {
      match this
      case AuthFailed(status) => Some("Auth failed: " + IntToString(status))
      case CreationFailed(status) => Some("Website creation failed: " + IntToString(status))
      case RequestFailed => None
    }
  }

  /** `UmamiWebsiteResponse`. */
  datatype UmamiResponse =
    | Provided(websiteId: nat, wasExisting: bool)   // success: true
    | Failed(error: UmamiError)                      // success: false

  /** How the login, the listing and the creation request fare. */
  datatype UmamiNet = UmamiNet(auth: Link, listing: Link, creation: Link)

  /** A response and the server's site list afterwards. */
  datatype Provisioned = Provisioned(response: UmamiResponse, sites: seq<Site>)

  /** The analytics domain of a tenant, used both to match and to create. */
  function SiteDomain(t: Tenant): string {
    Middleware.TenantDomain(t.slug)
  }

  /** `createUmamiWebsite(tenant)` against a server holding `sites`. */
  function Provision(sites: seq<Site>, t: Tenant, net: UmamiNet): (p: Provisioned)
    ensures p.response.Failed? ==> p.sites == sites
    ensures p.response.Provided? && p.response.wasExisting ==> p.sites == sites
    ensures p.response.Provided? && !p.response.wasExisting ==>
      p.sites == sites + [Site(|sites| + 1, t.name, SiteDomain(t))] && p.response.websiteId == |sites| + 1
  {
    match net.auth
    case Down(status) => Provisioned(Failed(AuthFailed(status)), sites)
    case Unreachable => Provisioned(Failed(RequestFailed), sites)
    case Up =>
      var existing := if net.listing == Up then FindSite(sites, SiteDomain(t), t.name) else None;
      if existing.Some? then Provisioned(Provided(sites[existing.value].id, true), sites)
      else if net.listing == Unreachable then Provisioned(Failed(RequestFailed), sites)
      else
        match net.creation
        case Down(status) => Provisioned(Failed(CreationFailed(status)), sites)
        case Unreachable => Provisioned(Failed(RequestFailed), sites)
        case Up =>
          var site := Site(|sites| + 1, t.name, SiteDomain(t));
          Provisioned(Provided(site.id, false), sites + [site])
  }

  /** Sites are numbered in the order they were created. */
  ghost predicate Numbered(sites: seq<Site>) {
    forall k :: 0 <= k < |sites| ==> sites[k].id == k + 1
  }

  /** The analytics server's site list. */
  class SiteStore {
    var sites: seq<Site>

    ghost predicate Valid()
      reads this
    {
      Numbered(sites)
    }

    constructor()
      ensures Valid() && sites == []
    {
      sites := [];
    }

    /** `createUmamiWebsite`, step by step: log in, list, match, create. */
    method CreateWebsite(t: Tenant, net: UmamiNet) returns (response: UmamiResponse)
      requires Valid()
      modifies this
      ensures Valid()
      ensures Provisioned(response, sites) == Provision(old(sites), t, net)
    {
      // Step 1: the login.
      if net.auth != Up {
        response := Failed(if net.auth.Down? then AuthFailed(net.auth.status) else RequestFailed);
        return;
      }
      var domain := SiteDomain(t);
      // Step 2: look for an existing site; an error status skips the check.
      if net.listing == Up {
        var existing := FindSite(sites, domain, t.name);
        if existing.Some? {
          response := Provided(sites[existing.value].id, true);
          return;
        }
      } else if net.listing == Unreachable {
        response := Failed(RequestFailed);
        return;
      }
      // Step 3: create the site.
      match net.creation
      case Down(status) =>
        response := Failed(CreationFailed(status));
      case Unreachable =>
        response := Failed(RequestFailed);
      case Up =>
        var site := Site(|sites| + 1, t.name, domain);
        sites := sites + [site];
        response := Provided(site.id, false);
    }
  }

  /** A listed match is reused: its id comes back, marked existing, and nothing
      is created whatever the creation request would have done. */
  lemma ExistingSiteReused(sites: seq<Site>, t: Tenant, net: UmamiNet)
    requires net.auth == Up && net.listing == Up
    requires exists k :: 0 <= k < |sites| && SiteMatches(sites[k], SiteDomain(t), t.name)
    ensures var i := FindSite(sites, SiteDomain(t), t.name).value;
      Provision(sites, t, net) == Provisioned(Provided(sites[i].id, true), sites)
  {
  }

  /** Without a match, one site named after the tenant, on its analytics
      domain, is created, and its id comes back. */
  lemma MissingSiteCreated(sites: seq<Site>, t: Tenant)
    requires forall k :: 0 <= k < |sites| ==> !SiteMatches(sites[k], SiteDomain(t), t.name)
    ensures Provision(sites, t, UmamiNet(Up, Up, Up))
      == Provisioned(Provided(|sites| + 1, false), sites + [Site(|sites| + 1, t.name, Middleware.TenantDomain(t.slug))])
  {
  }

  /** Provisioning the same tenant twice over working links gives the same
      site id both times and adds at most one site in all. */
  lemma {:induction false} ProvisionIdempotent(sites: seq<Site>, t: Tenant)
    ensures var first := Provision(sites, t, UmamiNet(Up, Up, Up));
      var second := Provision(first.sites, t, UmamiNet(Up, Up, Up));
      && first.response.Provided? && second.response.Provided?
      && second.response.websiteId == first.response.websiteId
      && second.response.wasExisting
      && second.sites == first.sites
      && |sites| <= |second.sites| <= |sites| + 1
  {
    var domain := SiteDomain(t);
    var first := Provision(sites, t, UmamiNet(Up, Up, Up));
    match FindSite(sites, domain, t.name)
    case Some(i) =>
      assert first.sites == sites;
    case None =>
      var site := Site(|sites| + 1, t.name, domain);
      assert first.sites == sites + [site];
      assert forall j :: 0 <= j < |sites| ==> first.sites[j] == sites[j];
      assert SiteMatches(first.sites[|sites|], domain, t.name);
      var found := FindSite(first.sites, domain, t.name);
      assert found == Some(|sites|);
  }

  /** A failed login creates nothing and reports the status. */
  lemma AuthFailureCreatesNothing(sites: seq<Site>, t: Tenant, net: UmamiNet)
    requires net.auth != Up
    ensures var p := Provision(sites, t, net);
      && p.sites == sites && p.response.Failed?
      && (net.auth.Down? ==> p.response.error.Message() == Some("Auth failed: " + IntToString(net.auth.status)))
  {
  }

  /** A refused creation reports failure and leaves the list as it was. */
  lemma CreationFailureReported(sites: seq<Site>, t: Tenant, status: int)
    requires forall k :: 0 <= k < |sites| ==> !SiteMatches(sites[k], SiteDomain(t), t.name)
    ensures Provision(sites, t, UmamiNet(Up, Up, Down(status))) == Provisioned(Failed(CreationFailed(status)), sites)
  {
  }

  /** A listing answered with an error status skips the existence check: a
      second site is created even when a matching one exists. */
  lemma ListingFailureSkipsCheck(sites: seq<Site>, t: Tenant, status: int)
    ensures var p := Provision(sites, t, UmamiNet(Up, Down(status), Up));
      && p.response == Provided(|sites| + 1, false)
      && p.sites == sites + [Site(|sites| + 1, t.name, SiteDomain(t))]
  {
  }

  /** The created site's domain is one the middleware reads back as the
      tenant's slug, for a slug that is a single label free of "localhost". */
  lemma CreatedDomainResolves(sites: seq<Site>, t: Tenant, net: UmamiNet)
    requires '.' !in t.slug && ':' !in t.slug && !Contains(t.slug, "localhost")
    requires Provision(sites, t, net).response == Provided(|sites| + 1, false)
    ensures Middleware.ExtractSubdomain(Provision(sites, t, net).sites[|sites|].domain) == Some(t.slug)
  {
    Middleware.TenantDomainResolves(t.slug);
  }
}
