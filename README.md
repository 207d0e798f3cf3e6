# Multi-tenant analytics platform: a Dafny model

This project models the tenant-handling core of a multi-tenant analytics
platform. The platform has a Next.js frontend and a Payload CMS backend. Each
customer organisation (a *tenant*) gets its own subdomain
`<slug>.analytics.fintyhive.com`. The model and its proofs cover:

- **Subdomain resolution** (`Middleware`). The Next.js middleware reads the
  tenant slug from the `host` header and forwards it as `x-tenant-slug`.
- **Slug availability** (`SlugCheck`). The guard chain of the check-slug
  route: format, length 3..50, 15 reserved names, then a lookup.
- **Registration** (`Register`). Form validation, the two duplicate checks,
  then creation of a pending tenant and a pending user.
- **The Users collection** (`Users`, over the `Cms` store). Password
  generation, the access rules, the tenant field's validation, the
  `beforeChange` hook (clearing fields on create and stamping an approval)
  and the `afterChange` hook (activating the tenant and sending one approval
  email).
- **The tenant, login and public listing routes** (`TenantApi`, `Login`,
  `PublicTenants`). The tenant lookup with its defaults, the shared-password
  login with a day-long token and cookie, and the id/name/slug projection.
- **The client tenant context** (`TenantContext`). How `fetchTenant` turns the
  tenant route's answer into a current tenant or an error, and the two colour
  operations.
- **Analytics provisioning** (`Umami`). Find-or-create of a tenant's site on
  the analytics server.
- **The live activity panel** (`Activity`). A feed of at most ten events, a
  visitor counter floored at 200, and relative-time formatting.

How state is modelled:

- **Remote services are parameters.** A `fetch` is given as a `Fetched` reply:
  ok with a body, not ok with a status, or thrown. How a remote call fares
  before the remote logic runs is a `Link`.
- **Server-side state is a class.** The CMS collections are a `Cms.Store`,
  the analytics server's site list is an `Umami.SiteStore`, and the email
  service is a `Users.Mailer` that records what it was asked to send.
- **Client-side state is a value.** React state updates become functions
  from the old state to the new one.
- **Randomness and time are parameters.** `Math.random()` draws are `real`
  parameters in [0, 1), and `Date.now()` is an integer parameter.

Observations the proofs make precise:

- **The tenant route never gets the middleware's header.** The middleware
  skips every `/api/` path, so it never tags the client's own
  `fetch("/api/tenant")` (`TenantApi.UntaggedRequestsRejected`). That call
  then gets a 400, and the context falls back to the first default tenant
  (`TenantContext.UntaggedFetchShowsDefault`).
- **The bare apex host resolves to a tenant.** `analytics.fintyhive.com` has
  three labels, so it resolves to the slug `analytics`, which is not excluded
  (`Middleware.ApexIsItselfASubdomain`).
- **Registration enforces only the slug's characters.** It does not apply
  check-slug's length or reserved-name rules (`Register.SlugRulesNotEnforced`).
- **A slug containing `localhost` is unusable.** Such a slug passes
  check-slug, but its subdomain never resolves, because the middleware treats
  the host as a development host (`SlugCheck.LocalhostSlugExample`).
- **A 50-character slug passes.** The error text says a slug "must be less
  than 50 characters", but the guard accepts one of 50
  (`SlugCheck.MaxLengthInclusive`).
- **A failed user create leaves the tenant behind.** When registration fails
  at the user-create step, the tenant it already created stays (`Register.Register`).

Behaviour of the code worth knowing:

- **No access gate.** The middleware checks no cookie or token: it only tags
  requests (next-frontend/middleware.ts:6-36). No session-token check is
  modelled.
- **The apex is not skipped.** The bare apex `analytics.fintyhive.com`
  has three labels and resolves to the slug `analytics`.
- **Local hosts never resolve.** Any host containing `localhost` or
  `127.0.0.1` yields no subdomain, whatever its labels.
- **Admins get no status.** A user created as an admin has its status
  cleared.
- **Approval does not provision analytics.** The approval hooks do not call
  the analytics provisioning. `Umami` models that operation on its own.
- **Tenants have a password.** The Tenants collection
  (payload-cms/src/collections/Tenants.ts) declares no `password` field. The
  registration route still writes one, and the login route and the approval
  hook read it. `Cms.Tenant` carries it as an optional field.

## Model

| member | source | states |
|---|---|---|
| Wrappers.OrElse | next-frontend/app/api/tenant/route.ts:41 | JavaScript's `a \|\| b` on an optional string: the value when present and non-empty, otherwise the default |
| Wrappers.Pick | payload-cms/src/collections/Users.ts:10 | `Math.floor(r * n)` for a draw in [0, 1) is an index below `n`, the floor of `r * n` |
| Wrappers.PickOnto | payload-cms/src/collections/Users.ts:10 | every index below `n` is reached by some draw |
| Cms.TenantsWithSlug | next-frontend/app/api/tenants/check-slug/route.ts:71-78 | the slug query's result holds exactly the tenants with that slug, and is empty iff none has it |
| Cms.UsersWithEmail | next-frontend/app/api/auth/register/route.ts:89-96 | the email query's result holds exactly the users with that email, and is empty iff none has it |
| Cms.Limit | next-frontend/app/api/tenant/route.ts:15 | `limit=` keeps a prefix of at most `limit` documents, all of them when there are few enough |
| Cms.TenantQuery | next-frontend/app/api/tenant/route.ts:14-25 | a working link answers with the first matching tenant, an error status is not ok, a failure throws |
| Cms.LimitedQueryNonEmpty | next-frontend/app/api/tenant/route.ts:30 | a limited query is empty exactly when nothing matches |
| Cms.FindById | payload-cms/src/collections/Users.ts:262-265 | `findByID`, on tenants and on users alike, finds a document exactly when the id is in range, and it is the document with that id |
| Cms.SlugQueryAtMostOne | payload-cms/src/collections/Tenants.ts:22-31 | with the slug field unique, a slug query finds at most one tenant |
| Cms.Store.constructor | payload-cms/src/collections/Tenants.ts:3-73 | an empty database satisfies the store invariant (ids in sequence, unique slugs and emails) |
| Cms.Store.CreateTenant | payload-cms/src/collections/Tenants.ts:15-72 | a create is refused iff the slug is taken; otherwise exactly one tenant is appended under the next id, with status defaulting to active |
| Cms.Store.SetTenantStatus | payload-cms/src/collections/Users.ts:296-302 | an update sets only that tenant's status and fails iff no tenant has the id |
| Cms.Store.InsertUser | payload-cms/src/collections/Users.ts:71-80 | a user create is refused iff the email is taken; otherwise exactly one user is appended |
| Cms.Store.ReplaceUser | payload-cms/src/collections/Users.ts:71-80 | an update succeeds iff the user exists and no other user has the new email, and changes only that document |
| Middleware.ExtractSubdomain | next-frontend/middleware.ts:38-54 | a subdomain, when one is found, is a single label free of `.` and `:` and is the start of the host header up to its first dot (its characterisation by cases is in the lemmas below) |
| Middleware.Handle | next-frontend/middleware.ts:6-36 | the header is added iff the request resolves a tenant subdomain; it then holds that subdomain, and every other header is kept unchanged |
| Middleware.PortIgnored | next-frontend/middleware.ts:40 | `host:port` resolves like `host` |
| Middleware.LocalHostsYieldNothing | next-frontend/middleware.ts:44-46 | a host containing `localhost` or `127.0.0.1` yields no subdomain, with or without a port |
| Middleware.FirstLabelIsSubdomain | next-frontend/middleware.ts:41-51 | a non-local host of three or more labels yields its first label |
| Middleware.FewLabelsYieldNothing | next-frontend/middleware.ts:49-53 | a host of one or two labels yields nothing |
| Middleware.TenantDomainResolves | next-frontend/middleware.ts:38-54 | `<slug>.analytics.fintyhive.com` resolves back to a one-label slug free of `localhost` |
| Middleware.ApexIsItselfASubdomain | next-frontend/middleware.ts:49-51 | `analytics.fintyhive.com` yields `analytics` |
| Middleware.AcmeHostResolves | next-frontend/middleware.ts:49-51 | `acme.analytics.fintyhive.com` yields `acme` |
| Middleware.MarketingDomainYieldsNothing | next-frontend/middleware.ts:49-53 | `fintyhive.com` yields nothing |
| Middleware.SkippedPathsUntouched | next-frontend/middleware.ts:11-17 | `/api/`, `/_next` and `/favicon.ico` paths pass untouched whatever the host |
| Middleware.ExcludedNeverTagged | next-frontend/middleware.ts:4-25 | an empty or excluded subdomain adds no header |
| Middleware.TenantApiRequestsNotTagged | next-frontend/middleware.ts:11-17 | requests to `/api/tenant` are never tagged by the middleware |
| SlugCheck.IsSlugFormat | next-frontend/app/api/tenants/check-slug/route.ts:16 | `/^[a-z0-9-]+$/` accepts exactly the non-empty strings whose every character is listed in `abcdefghijklmnopqrstuvwxyz0123456789-` |
| SlugCheck.Violations | next-frontend/app/api/tenants/check-slug/route.ts:16-64 | a slug breaks no rule iff it matches `[a-z0-9-]+`, has 3 to 50 characters and is not reserved |
| SlugCheck.FirstViolation | next-frontend/app/api/tenants/check-slug/route.ts:16-64 | the guard chain reports the first rule broken, in the order format, minimum, maximum, reserved |
| SlugCheck.CheckSlug | next-frontend/app/api/tenants/check-slug/route.ts:3-101 | missing slug gives 400; a broken rule gives that rule's error; otherwise a failed lookup gives 500 and an ok one the availability; `available: true` implies every rule holds |
| SlugCheck.GuardsIgnoreLookup | next-frontend/app/api/tenants/check-slug/route.ts:16-64 | a slug breaking a rule is unavailable whatever the directory holds |
| SlugCheck.AvailableIffUnused | next-frontend/app/api/tenants/check-slug/route.ts:71-93 | a slug passing the guards is available iff no tenant has it |
| SlugCheck.MaxLengthInclusive | next-frontend/app/api/tenants/check-slug/route.ts:33-38 | 50 characters pass the bound, 51 do not |
| SlugCheck.SlugIsOneLabel | next-frontend/app/api/tenants/check-slug/route.ts:16-17 | a well-formed slug holds no dot or colon |
| SlugCheck.ExcludedSubdomainsReserved | next-frontend/app/api/tenants/check-slug/route.ts:41-64 | every subdomain the middleware excludes is reported reserved |
| SlugCheck.AvailableSlugResolves | next-frontend/app/api/tenants/check-slug/route.ts:16-93 | an available slug free of `localhost` is what the middleware reads back from its domain |
| SlugCheck.LocalhostSlugNeverResolves | next-frontend/middleware.ts:44-46 | a well-formed slug containing `localhost` never resolves from its domain |
| SlugCheck.LocalhostSlugExample | next-frontend/app/api/tenants/check-slug/route.ts:16-64 | `my-localhost` passes every guard yet resolves to no tenant |
| Register.EmailDescriptionsAgree | next-frontend/app/api/auth/register/route.ts:32-33 | the email regex, read as written, accepts exactly the strings with no white space, one `@`, and a dot strictly inside the part after it |
| Register.IsHttpUrl | next-frontend/app/api/auth/register/route.ts:41 | an accepted URL has at least eight characters and starts with `http:` or `https:` |
| Register.UrlPatternUnanchored | next-frontend/app/api/auth/register/route.ts:41 | the pattern has no end anchor: anything appended to an accepted URL is accepted |
| Register.ValidateForm | next-frontend/app/api/auth/register/route.ts:17-62 | the four 400 guards in order (required fields, email, URL, slug characters), and the form passes iff all four hold |
| Register.SlugRulesNotEnforced | next-frontend/app/api/auth/register/route.ts:53-62 | a valid form may carry a slug check-slug calls too short, too long or reserved |
| Register.Screen | next-frontend/app/api/auth/register/route.ts:64-106 | validation errors come first; the screen only stops a request, it never registers it |
| Register.TakenSlugConflicts | next-frontend/app/api/auth/register/route.ts:68-86 | a taken slug whose lookup gets through gives 409 |
| Register.FailedLookupsIgnored | next-frontend/app/api/auth/register/route.ts:78-106 | lookups answered with an error status never block, whatever the directory holds |
| Register.DuplicateEmailSlipsThrough | next-frontend/app/api/auth/register/route.ts:88-106 | as written (no credentials), the email lookup is refused and a registered email passes the screen |
| Register.DuplicateEmailRejected | next-frontend/app/api/auth/register/route.ts:88-106 | with read access, a registered email gives 409 |
| Register.RequestedTenant | next-frontend/app/api/auth/register/route.ts:109-119 | the submitted tenant is pending, has the requested slug and name, the website as domain, and brand colour #3B82F6 |
| Register.RequestedUser | next-frontend/app/api/auth/register/route.ts:144-153 | the submitted user is a pending regular user linked to the new tenant, with the message defaulting to "" |
| Register.RequestedUserUnchangedByHook | payload-cms/src/collections/Users.ts:239-250 | the create hook leaves the registered user as submitted |
| Register.Register | next-frontend/app/api/auth/register/route.ts:3-190 | an early answer creates nothing; otherwise one pending tenant, then one pending user; a failed user create gives 500 with the tenant kept; no email is sent |
| Users.CharsetSize | payload-cms/src/collections/Users.ts:7 | the charset has 70 characters |
| Users.CharsetOnto | payload-cms/src/collections/Users.ts:7-10 | every charset character can be drawn |
| Users.GeneratePassword | payload-cms/src/collections/Users.ts:6-13 | the password has the requested length, and its k-th character is the charset character picked by the k-th draw |
| Users.UserQuery | payload-cms/src/collections/Users.ts:25-28 | a users query gets through only for a requester the read rule admits, and is refused with 403 otherwise |
| Users.AnonymousUserQueryNeverOk | payload-cms/src/collections/Users.ts:25-28 | an anonymous users query never comes back ok |
| Users.AccessMatrix | payload-cms/src/collections/Users.ts:24-50 | for anonymous requesters, regular users and admins, which of read, create, update and delete are allowed |
| Users.AccessCharacterised | payload-cms/src/collections/Users.ts:24-50 | read, update and delete iff admin; create iff anonymous or admin |
| Users.ValidateTenant | payload-cms/src/collections/Users.ts:114-120 | the tenant field fails iff the role is user and the tenant is missing or the falsy id `0`, with the message "Organization is required for regular users" |
| Users.AdminsNeedNoTenant | payload-cms/src/collections/Users.ts:114-120 | admins never need a tenant |
| Users.ApprovedOnce | payload-cms/src/collections/Users.ts:286-290 | along a history in which approval is never undone, exactly one save approves when it starts unapproved and ends approved, and none otherwise |
| Users.OnCreate | payload-cms/src/collections/Users.ts:223-250 | creating an admin clears tenant, status, message and the generated password, and records the requester as creator when there is one; creating a user forces pending and clears the generated password and the creator |
| Users.OnApproval | payload-cms/src/collections/Users.ts:256-276 | an approval sets both passwords to the tenant's, stamps approver and time only when a requester exists, and changes nothing else |
| Users.TenantPasswordFor | payload-cms/src/collections/Users.ts:260-267 | no tenant (or the falsy id `0`) gives an undefined password, a tenant `findByID` cannot find aborts, otherwise the tenant's password |
| Users.UserDraft.constructor | payload-cms/src/collections/Users.ts:218 | the hook starts from the submitted data |
| Users.UserDraft.BeforeChange | payload-cms/src/collections/Users.ts:217-281 | create applies the create rules; an approving update of a user applies the approval, or aborts when the tenant lookup fails; any other update changes nothing |
| Users.CreatedUsersPending | payload-cms/src/collections/Users.ts:239-250 | whatever a new user submits, it is stored pending with no generated password |
| Users.ApprovalIsATransition | payload-cms/src/collections/Users.ts:253-254 | an update approves iff the old status is not approved and the new one is; re-saving an approved user is no approval |
| Users.ApprovalEmailFor | payload-cms/src/collections/Users.ts:306-324 | the email carries the user's address, names and generated password; without a tenant the slug is "unknown" and the name "Unknown Organization" |
| Users.Mailer.constructor | payload-cms/src/collections/Users.ts:316-324 | the email service starts with nothing sent |
| Users.Mailer.Send | payload-cms/src/collections/Users.ts:316-324 | sending appends exactly that email |
| Users.AfterChange | payload-cms/src/collections/Users.ts:283-346 | only a newly approved user's update activates the linked tenant and sends exactly one email; a failed activation sends none; nothing else changes |
| Users.CreateUser | payload-cms/src/collections/Users.ts:24-250 | a create passes the access rule and the tenant validation, then adds exactly one user with the create rules applied, iff the email is free; no email is sent |
| Users.UpdateUser | payload-cms/src/collections/Users.ts:42-334 | succeeds iff an admin asks, the user exists, the tenant field validates, an approval's tenant is found and no other user has the email; a failure changes nothing; an approving update stores the approval fields, activates the linked tenant and sends exactly `ApprovalEmailFor` the stored user and the activated tenant; any other update stores the data as given and sends nothing |
| TenantApi.Present | next-frontend/app/api/tenant/route.ts:34-49 | id and slug are the slug; domain defaults to "", the primary colour and the settings to #3B82F6 |
| TenantApi.GetTenant | next-frontend/app/api/tenant/route.ts:3-57 | no header gives 400 with no lookup; no document gives 404; otherwise the first document presented; a failed lookup gives 500 |
| TenantApi.AnswersFromStore | next-frontend/app/api/tenant/route.ts:14-40 | against the store: 404 iff no tenant has the slug, else that tenant presented |
| TenantApi.UntaggedRequestsRejected | next-frontend/app/api/tenant/route.ts:4-10 | a request reaching the route through the middleware without a caller's header gets 400 |
| PublicTenants.Publish | next-frontend/app/api/tenants/public/route.ts:22-26 | a public record holds the tenant's id, name and slug |
| PublicTenants.PublishHidesPrivateFields | next-frontend/app/api/tenants/public/route.ts:21-26 | what is published does not depend on password, domain, status, settings or site id |
| PublicTenants.PublishAll | next-frontend/app/api/tenants/public/route.ts:22-26 | the list has the documents' length and order |
| PublicTenants.ListQuery | next-frontend/app/api/tenants/public/route.ts:9-13 | a working link returns the first hundred tenants |
| PublicTenants.GetPublicTenants | next-frontend/app/api/tenants/public/route.ts:3-38 | an ok reply is published in full, anything else gives 500 |
| PublicTenants.ListsFirstPage | next-frontend/app/api/tenants/public/route.ts:9-30 | against the store: at most one hundred tenants, in order, each as id, name and slug |
| Login.ValidateTenant | next-frontend/app/api/auth/login/route.ts:5-39 | valid iff the lookup is ok, finds a document, and the first one's password equals the given one |
| Login.ExpiryFor | next-frontend/app/api/auth/login/route.ts:70 | the expiry is the current second plus 86400 |
| Login.Login | next-frontend/app/api/auth/login/route.ts:41-105 | a missing field gives 400; otherwise a login succeeds iff validation does and gives 401 if not; the token carries the tenant's id, slug, name and site id; the body only id, name and slug |
| Login.TokenOutlivesCookieByLessThanASecond | next-frontend/app/api/auth/login/route.ts:70-93 | the token's expiry falls in the last second before the cookie's |
| Login.LogsInWithStoredPassword | next-frontend/app/api/auth/login/route.ts:7-34 | against the store: the tenant logs in iff its stored password is the one given |
| Login.UnknownSlugRefused | next-frontend/app/api/auth/login/route.ts:25-34 | a slug no tenant has never logs in |
| TenantContext.ModernPrimaryIsDefaultBrand | next-frontend/contexts/TenantContext.tsx:36-105 | the modern theme's primary is #3B82F6 and the first default tenant uses it |
| TenantContext.FromResponse | next-frontend/contexts/TenantContext.tsx:171-185 | id is the slug, domain the given one or the analytics subdomain, the theme modern with the brand colour as primary |
| TenantContext.FetchTenant | next-frontend/contexts/TenantContext.tsx:161-204 | ok gives the mapped tenant; 404 or 400 the first default tenant with no error; another status "Failed to load tenant" with the tenant unchanged; an exception "Network error" and the first default tenant; loading ends on every outcome |
| TenantContext.AsFetched | next-frontend/contexts/TenantContext.tsx:164-166 | a 200 from the tenant route is an ok response, every other answer a non-ok one with its status |
| TenantContext.UntaggedFetchShowsDefault | next-frontend/contexts/TenantContext.tsx:188-193 | a fetch without the header ends on the first default tenant with no error |
| TenantContext.FetchedDomainResolves | next-frontend/contexts/TenantContext.tsx:175-176 | a fetched tenant's derived domain is read back as its id by the middleware |
| TenantContext.UpdateTenantColors | next-frontend/contexts/TenantContext.tsx:227-244 | no tenant changes nothing; otherwise exactly primary, secondary and accent change |
| TenantContext.ResetTenantColors | next-frontend/contexts/TenantContext.tsx:246-255 | no tenant changes nothing; otherwise the whole theme becomes the modern one and nothing else changes |
| TenantContext.ResetAfterUpdate | next-frontend/contexts/TenantContext.tsx:227-255 | reset after update is reset |
| TenantContext.UpdateLastWins | next-frontend/contexts/TenantContext.tsx:227-244 | the last update wins, so updating twice with the same colours is updating once |
| TenantContext.ResetIdempotent | next-frontend/contexts/TenantContext.tsx:246-255 | resetting twice is resetting once |
| TenantContext.UpdateToModernIsReset | next-frontend/contexts/TenantContext.tsx:227-255 | on a theme that differs from modern only in the three colours, updating to modern's colours is a reset |
| TenantContext.ResetDropsBrandColor | next-frontend/contexts/TenantContext.tsx:171-255 | reset replaces a fetched tenant's brand colour by #3B82F6 |
| Umami.FindSite | payload-cms/lib/umami-service.ts:55-57 | the index of the first site matching by domain or name, and none iff no site matches |
| Umami.Provision | payload-cms/lib/umami-service.ts:17-103 | failure or reuse leaves the site list alone; a fresh site is exactly one appended site named after the tenant |
| Umami.SiteStore.CreateWebsite | payload-cms/lib/umami-service.ts:17-103 | the step-by-step operation yields what `Provision` describes and keeps the site numbering |
| Umami.ExistingSiteReused | payload-cms/lib/umami-service.ts:51-67 | a listed match's id comes back marked existing and nothing is created |
| Umami.MissingSiteCreated | payload-cms/lib/umami-service.ts:70-95 | without a match one site is created on the tenant's domain and its id comes back |
| Umami.ProvisionIdempotent | payload-cms/lib/umami-service.ts:51-95 | two calls over working links return the same id and add at most one site |
| Umami.AuthFailureCreatesNothing | payload-cms/lib/umami-service.ts:22-35 | a failed login fails with "Auth failed: <status>" and creates nothing |
| Umami.CreationFailureReported | payload-cms/lib/umami-service.ts:83-85 | a refused creation fails and creates nothing |
| Umami.ListingFailureSkipsCheck | payload-cms/lib/umami-service.ts:51 | a listing answered with an error status skips the existence check and creates a site |
| Umami.CreatedDomainResolves | payload-cms/lib/umami-service.ts:79 | a created site's domain resolves back to the tenant's slug |
| Activity.TickIdsDistinct | next-frontend/components/RealTimeActivity.tsx:186 | the list's keys: ticks at different clock readings get different ids, and a tick after millisecond 6 never reuses a mock event's id |
| Activity.MockActivities | next-frontend/components/RealTimeActivity.tsx:9-52 | six events fifteen seconds apart, newest first, ids 1 to 6 |
| Activity.NewEvent | next-frontend/components/RealTimeActivity.tsx:90-96 | a session iff the draw exceeds 0.7, otherwise a page view, on a listed page and location, stamped and named by the clock |
| Activity.PushBounded | next-frontend/components/RealTimeActivity.tsx:98 | the new event first, then a prefix of the old feed, ten at most |
| Activity.Step | next-frontend/components/RealTimeActivity.tsx:100 | the counter's change lies in [-2, 3] |
| Activity.NextLiveCount | next-frontend/components/RealTimeActivity.tsx:99-101 | the counter becomes the larger of 200 and its old value plus the step |
| Activity.ActivityFeed.constructor | next-frontend/components/RealTimeActivity.tsx:64-65 | the panel starts with the mock events and 247 visitors |
| Activity.ActivityFeed.Tick | next-frontend/components/RealTimeActivity.tsx:67-105 | with no tenant nothing changes; otherwise the event is pushed and the counter stepped; at most ten events and at least 200 visitors always |
| Activity.FeedShowsNewestFirst | next-frontend/components/RealTimeActivity.tsx:98 | after many ticks the feed shows min(10, old + new) events, the pushed ones newest first |
| Activity.CountStaysBounded | next-frontend/components/RealTimeActivity.tsx:99-101 | over n ticks the counter stays at least 200 and gains at most 3n |
| Activity.ActivityColor | next-frontend/components/RealTimeActivity.tsx:130-139 | sessions use the secondary colour, every other kind the primary |
| Activity.FormatTimeAgo | next-frontend/components/RealTimeActivity.tsx:141-148 | under a minute whole seconds, under an hour whole minutes, else whole hours, each the floor of the elapsed milliseconds |
| Activity.FloorsCompose | next-frontend/components/RealTimeActivity.tsx:142-147 | the chained floors equal single floors by 60000 and 3600000 |
| Activity.UnitBoundaries | next-frontend/components/RealTimeActivity.tsx:141-148 | 59.999 s reads "59s ago", 60 s "1m ago", 59:59.999 "59m ago", one hour "1h ago" |
| Activity.FutureEventsReadNegative | next-frontend/components/RealTimeActivity.tsx:142-143 | an event five seconds in the future reads "-5s ago" |

## Left out

- Network and process I/O is not modelled: `fetch`, the Payload runtime, the
  Resend email service, `jsonwebtoken` signing and `console` logging. Each
  remote call is a `Fetched` or `Link` parameter, and a token is an unsigned
  `Login.Token` value.
- Concurrency is not modelled: requests run one at a time against the store,
  so races between two registrations are outside the model.
- Header names are taken as already lower-cased. The Headers API's joining of
  repeated headers is not modelled.
- The middleware's path `matcher` (next-frontend/middleware.ts:56-58) is left
  out. It decides which requests reach the middleware at all. The in-code
  skip list is modelled.
- Query strings are taken as exact matches. The routes interpolate slugs and
  emails into URLs without encoding, and that URL decoding is not modelled.
- JSON bodies only carry strings or nothing. Other JSON types are not
  modelled, and neither is a body that fails to parse (the 500 answers of the
  login and registration routes).
- Login.Login: the 500 "Internal server error" for an unparsable body is not
  modelled.
- Register.Register: the text of a failed create (`errorText`) is not kept.
  Both failures are `ServerError`.
- Register.Register: the create replies are taken to carry the new
  document's `id` at their top level, as `createdTenant.id` and
  `createdUser.id` read it. The reply shape of Payload's REST create is not
  part of this model. If the id sat under `doc` instead, the user would be
  posted without a tenant and refused by the tenant validation.
- Register.Register: the two `Math.random().toString(36).slice(-12)`
  passwords are parameters, because that base-36 rendering of a float has no
  integer model.
- Users.GeneratePassword: the draws are a parameter sequence. `Math.random`
  is not modelled. The default `length` of 12 is not modelled, since nothing
  calls the function.
- Cms.TenantQuery, PublicTenants.ListsFirstPage: Payload's documents are
  taken to come back in store order. The routes ask for no sort, and
  Payload's default ordering is not part of this model, so "the first" match
  and "the first hundred" tenants rest on that assumption.
- Payload's own field checks are not modelled: `required` fields, the
  `email` field type and the `defaultValue` of the settings group's brand
  colour. Only the unique slug and email, the tenant status default and the
  tenant validation are modelled.
- Cms.Store.CreateTenant: the tenant's `password` is stored and read back
  although the Tenants collection declares no such field. The model assumes
  the CMS keeps the undeclared field the registration route sends. Whether
  Payload keeps or drops it is not part of this model; if it drops it, no
  tenant login succeeds and an approval sets no password.
- Cms.Store.CreateTenant: an absent settings group is stored absent, not
  filled with the brand colour default.
- Users.UpdateUser: an update replaces the whole document. Payload's merging
  of a partial update is not modelled.
- Users.AfterChange: the email service's own success or failure is not
  modelled. The hook only logs it.
- Umami: site ids are numbers handed out in sequence, not UUID strings. The
  listing's pagination and response shape are not modelled, and the whole
  list counts as the listing.
- Umami.UmamiError.Message: the message of a network exception is not
  modelled.
- TenantContext: several parts of the provider are left out because they are
  plain state setters or UI:
  - `switchTenant`, `toggleDarkMode`, `setTimeframe` and `setCurrentView`;
  - the dark-mode media query, `colorPresets` and `availableTenants`;
  - `useTenant`'s error outside a provider.
- The optional `slug` field of the client tenant type is left out, because
  neither the fetch nor the default tenants set it.
- Activity: the three-second interval and its cleanup are left out. A tick is
  one call of `ActivityFeed.Tick`.
- Activity: `getActivityIcon` and all rendering are left out. A new event's
  id and timestamp are read from one clock reading.
- Activity.MockActivities: the mock list calls `Date.now()` once per event.
  The model uses one reading `t0` for all six, so the drift of a millisecond
  or so between those calls is not modelled.
- Rendering and styling in the other React components are not part of this
  model, and neither are the email template in
  payload-cms/src/lib/emailService.ts or floating-point chart arithmetic.

## Findings

| source | as written | input that shows it | evidently intended | confidence | as-written member | corrected member |
|---|---|---|---|---|---|---|
| next-frontend/app/api/auth/register/route.ts:88-106 | the duplicate-email lookup is sent without credentials, and the Users read rule (payload-cms/src/collections/Users.ts:25-28) admits only admins, so the lookup is refused and the 409 branch never runs | any valid form whose email an existing user already has, with a free slug | an already registered email is answered with 409 "User with this email already exists" before anything is created | medium, not executed | Register.DuplicateEmailSlipsThrough | Register.DuplicateEmailRejected |
