/** The client-side tenant state (next-frontend/contexts/TenantContext.tsx):
    the built-in themes and fallback tenants, the mapping of the tenant
    route's answer to a current tenant, and the two colour operations. Each
    operation is a function from the old provider state to the new one. */
module TenantContext {
  import opened Wrappers
  import opened Strings
  import opened Cms
  import TenantApi
  import Middleware

  // ---------------------------------------------------------------------------
  // Themes (next-frontend/types/tenant.ts)

  datatype DarkTheme = DarkTheme(background: string, surface: string, text: string, textSecondary: string, border: string)

  datatype Theme = Theme(
    primary: string, secondary: string, accent: string,
    background: string, surface: string, text: string, textSecondary: string, border: string,
    success: string, warning: string, error: string,
    dark: DarkTheme)

  /** The client's tenant record. */
  datatype ClientTenant = ClientTenant(
    id: string,
    name: string,
    logo: string,
    domain: string,
    theme: Theme,
    umamiWebsiteId: Option<string>,
    settings: Option<Settings>,
    status: Option<TenantStatus>)

  /** `tenantThemes.modern`, the base of every fetched tenant's theme. */
  const ModernTheme: Theme := Theme(
    "#3B82F6", "#8B5CF6", "#06B6D4", "#FAFBFC", "#FFFFFF", "#1E293B", "#64748B", "#E2E8F0",
    "#10B981", "#F59E0B", "#EF4444",
    DarkTheme("#0F172A", "#1E293B", "#F1F5F9", "#94A3B8", "#334155"))

  /** `tenantThemes.robinhood`. */
  const RobinhoodTheme: Theme := Theme(
    "#00C805", "#FF6B35", "#1DB954", "#FAFBFC", "#FFFFFF", "#1E293B", "#64748B", "#E2E8F0",
    "#00C805", "#FF6B35", "#FF4757",
    DarkTheme("#0D1117", "#161B22", "#F0F6FC", "#8B949E", "#30363D"))

  /** `tenantThemes.notion`. */
  const NotionTheme: Theme := Theme(
    "#2563EB", "#7C3AED", "#059669", "#FAFAFA", "#FFFFFF", "#111827", "#6B7280", "#E5E7EB",
    "#059669", "#D97706", "#DC2626",
    DarkTheme("#111827", "#1F2937", "#F9FAFB", "#9CA3AF", "#374151"))

  /** `defaultTenants`: the fallbacks when no tenant can be loaded. */
  const DefaultTenants: seq<ClientTenant> := [
    ClientTenant("acme-corp", "Acme Analytics", "Building2", "acme.com", ModernTheme, None, None, None),
    ClientTenant("tech-startup", "TechFlow", "Zap", "techflow.io", RobinhoodTheme, None, None, None),
    ClientTenant("creative-agency", "Creative Studio", "Palette", "creativestudio.com", NotionTheme, None, None, None)
  ]

  /** The modern theme's primary colour is the CMS's default brand colour. */
  lemma ModernPrimaryIsDefaultBrand()
    ensures ModernTheme.primary == DefaultBrandColor
    ensures DefaultTenants[0].theme == ModernTheme
  {
  }

  // ---------------------------------------------------------------------------
  // Provider state

  datatype View = DashboardView | SettingsView

  datatype ContextState = ContextState(
    currentTenant: Option<ClientTenant>,
    loading: bool,
    error: Option<string>,
    isDarkMode: bool,
    timeframe: string,
    currentView: View)

  /** The state before the tenant is fetched. */
  const InitialState: ContextState := ContextState(None, true, None, false, "7d", DashboardView)

  /** The client tenant built from the tenant route's success body: id from the
      slug, the domain or the analytics subdomain, and the modern theme with the
      brand colour as primary. */
  function FromResponse(data: TenantApi.TenantResponse): (t: ClientTenant)
    ensures t.id == data.slug && t.name == data.name && t.logo == "Building2"
    ensures t.domain == (if data.domain != "" then data.domain else Middleware.TenantDomain(data.slug))
    ensures t.theme == ModernTheme.(primary := OrElse(data.settings.brandColor, ModernTheme.primary))
    ensures t.umamiWebsiteId == data.umamiWebsiteId && t.settings == Some(data.settings) && t.status == Some(data.status)
  {
    ClientTenant(
      data.slug, data.name, "Building2",
      OrElse(Some(data.domain), data.slug + "." + Middleware.AnalyticsApex),
      ModernTheme.(primary := OrElse(data.settings.brandColor, ModernTheme.primary)),
      data.umamiWebsiteId, Some(data.settings), Some(data.status))
  }

  /** `fetchTenant`'s effect on the state, given how `fetch("/api/tenant")` went. */
  function FetchTenant(s: ContextState, reply: Fetched<TenantApi.TenantResponse>): (r: ContextState)
    ensures !r.loading
    ensures r.isDarkMode == s.isDarkMode && r.timeframe == s.timeframe && r.currentView == s.currentView
    ensures reply.Ok? ==> r.currentTenant == Some(FromResponse(reply.body)) && r.error == s.error
    ensures reply.NotOk? && (reply.status == 404 || reply.status == 400) ==>
      r.currentTenant == Some(DefaultTenants[0]) && r.error == s.error
    ensures reply.NotOk? && reply.status != 404 && reply.status != 400 ==>
      r.currentTenant == s.currentTenant && r.error == Some("Failed to load tenant")
    ensures reply.Thrown? ==> r.currentTenant == Some(DefaultTenants[0]) && r.error == Some("Network error")
  {
    var settled := match reply
      case Ok(data) => s.(currentTenant := Some(FromResponse(data)))
      case NotOk(status) =>
        if status == 404 || status == 400 then s.(currentTenant := Some(DefaultTenants[0]))
        else s.(error := Some("Failed to load tenant"))
      case Thrown => s.(error := Some("Network error"), currentTenant := Some(DefaultTenants[0]));
    settled.(loading := false)
  }

  /** What `fetch` makes of the tenant route's answer: a success body for a 200,
      otherwise a response that is not ok, with its status. */
  function AsFetched(reply: TenantApi.TenantReply): (f: Fetched<TenantApi.TenantResponse>)
    ensures reply.Found? ==> f == Ok(reply.tenant)
    ensures !reply.Found? ==> f == NotOk(reply.Status())
  {
    if reply.Found? then Ok(reply.tenant) else NotOk(reply.Status())
  }

  /** A request without a tenant header makes the route answer 400, and the
      provider then falls back to the first default tenant without an error.
      The page's own fetch passes through the middleware untagged, so this is
      what it gets unless the caller adds the header itself. */
  lemma UntaggedFetchShowsDefault(headers: map<string, string>, lookup: Fetched<seq<Tenant>>)
    requires Middleware.TenantHeader !in headers
    ensures var r := FetchTenant(InitialState, AsFetched(TenantApi.GetTenant(headers, lookup)));
      r.currentTenant == Some(DefaultTenants[0]) && r.error.None? && !r.loading
  {
    TenantApi.UntaggedRequestsRejected(headers, lookup);
  }

  /** A fetched tenant without its own domain gets the analytics subdomain,
      which the middleware reads back as the tenant's id. */
  lemma FetchedDomainResolves(data: TenantApi.TenantResponse)
    requires data.domain == "" && '.' !in data.slug && ':' !in data.slug && !Contains(data.slug, "localhost")
    ensures Middleware.ExtractSubdomain(FromResponse(data).domain) == Some(FromResponse(data).id)
  {
    Middleware.TenantDomainResolves(data.slug);
  }

  // ---------------------------------------------------------------------------
  // Colours

  datatype Colors = Colors(primary: string, secondary: string, accent: string)

  /** `updateTenantColors`: replaces the three colours of the current tenant's theme. */
  function UpdateTenantColors(s: ContextState, c: Colors): (r: ContextState)
    ensures s.currentTenant.None? ==> r == s
    ensures s.currentTenant.Some? ==>
      var t := s.currentTenant.value;
      && r.currentTenant.Some?
      && r.currentTenant.value.theme.primary == c.primary
      && r.currentTenant.value.theme.secondary == c.secondary
      && r.currentTenant.value.theme.accent == c.accent
      && r.currentTenant.value.theme.(primary := t.theme.primary, secondary := t.theme.secondary, accent := t.theme.accent) == t.theme
      && r.currentTenant.value.(theme := t.theme) == t
      && r.(currentTenant := s.currentTenant) == s
  {
    match s.currentTenant
    case None => s
    case Some(t) =>
      s.(currentTenant := Some(t.(theme := t.theme.(primary := c.primary, secondary := c.secondary, accent := c.accent))))
  }

  /** `resetTenantColors`: puts the modern theme back, whole. */
  function ResetTenantColors(s: ContextState): (r: ContextState)
    ensures s.currentTenant.None? ==> r == s
    ensures s.currentTenant.Some? ==>
      && r.currentTenant.Some?
      && r.currentTenant.value.theme == ModernTheme
      && r.currentTenant.value.(theme := s.currentTenant.value.theme) == s.currentTenant.value
      && r.(currentTenant := s.currentTenant) == s
  {
    match s.currentTenant
    case None => s
    case Some(t) => s.(currentTenant := Some(t.(theme := ModernTheme)))
  }

  /** Resetting forgets any colour update. */
  lemma ResetAfterUpdate(s: ContextState, c: Colors)
    ensures ResetTenantColors(UpdateTenantColors(s, c)) == ResetTenantColors(s)
  {
  }

  /** The last colour update wins; applying one twice is applying it once. */
  lemma UpdateLastWins(s: ContextState, c1: Colors, c2: Colors)
    ensures UpdateTenantColors(UpdateTenantColors(s, c1), c2) == UpdateTenantColors(s, c2)
    ensures UpdateTenantColors(UpdateTenantColors(s, c1), c1) == UpdateTenantColors(s, c1)
  {
  }

  lemma ResetIdempotent(s: ContextState)
    ensures ResetTenantColors(ResetTenantColors(s)) == ResetTenantColors(s)
  {
  }

  /** Updating with the modern theme's colours and then the rest of it is a
      reset: the modern theme is reset's only target. */
  lemma UpdateToModernIsReset(s: ContextState)
    requires s.currentTenant.Some?
    requires var th := s.currentTenant.value.theme;
      th == ModernTheme.(primary := th.primary, secondary := th.secondary, accent := th.accent)
    ensures UpdateTenantColors(s, Colors(ModernTheme.primary, ModernTheme.secondary, ModernTheme.accent))
      == ResetTenantColors(s)
  {
  }

  /** Reset discards a fetched tenant's brand colour along with any edit. */
  lemma ResetDropsBrandColor(s: ContextState, data: TenantApi.TenantResponse)
    ensures ResetTenantColors(FetchTenant(s, Ok(data))).currentTenant.value.theme.primary == DefaultBrandColor
  {
  }
}
