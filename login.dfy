/** The tenant login route (next-frontend/app/api/auth/login/route.ts): checks
    the tenant's shared password against the first document the slug query
    returns and, on success, issues a day-long token in a cookie. */
module Login {
  import opened Wrappers
  import opened Cms
  import opened PublicTenants

  /** `24 * 60 * 60`: the token lifetime in seconds, also the cookie's `maxAge`. */
  const SessionSeconds: nat := 24 * 60 * 60

  /** `validateTenant`'s result. */
  datatype Validation = Validation(valid: bool, tenant: Option<Tenant>)

  /** `validateTenant(tenantSlug, password)` given the reply of its slug query:
      an error status and an exception both count as invalid. */
  function ValidateTenant(lookup: Fetched<seq<Tenant>>, password: string): (v: Validation)
    ensures v.valid <==> lookup.Ok? && |lookup.body| >= 1 && lookup.body[0].password == Some(password)
    ensures v.valid ==> v.tenant == Some(lookup.body[0])
    ensures !v.valid ==> v.tenant.None?
  {
    match lookup
    case Ok(docs) =>
      if |docs| > 0 && docs[0].password == Some(password) then Validation(true, Some(docs[0]))
      else Validation(false, None)
    case _ => Validation(false, None)
  }

  /** The JWT claims. `exp` is a NumericDate: seconds since the epoch, as
      section 4.1.4 of RFC 7519 requires. */
  datatype TokenPayload = TokenPayload(
    tenantId: nat, tenantSlug: string, tenantName: string, websiteId: Option<string>, exp: int)

  /** A signed token; the signature itself is not modelled. */
  datatype Token = Signed(payload: TokenPayload)

  /** The `auth-token` cookie's value and attributes. */
  datatype Cookie = Cookie(name: string, token: Token, httpOnly: bool, secure: bool, sameSite: string,
                           maxAge: nat, path: string)

  /** The JSON body; absent fields are `None`. */
  datatype LoginForm = LoginForm(tenantSlug: Option<string>, password: Option<string>)

  /** The route's answers. */
  datatype LoginReply =
    | LoggedIn(tenant: PublicTenant, cookie: Cookie)  // 200 { success: true, tenant } and the cookie
    | MissingFields                                   // 400 "Tenant slug and password are required"
    | Unauthorized                                    // 401 "Invalid tenant or password"
  {
    function Status(): int {
      match this
      case LoggedIn(_, _) => 200
      case MissingFields => 400
      case Unauthorized => 401
    }
  }

  /** `Math.floor(Date.now() / 1000) + 24 * 60 * 60` for a clock reading in milliseconds. */
  function ExpiryFor(nowMs: int): (exp: int)
    ensures (exp - SessionSeconds) * 1000 <= nowMs < (exp - SessionSeconds + 1) * 1000
  {
    nowMs / 1000 + SessionSeconds
  }

  /** `POST /api/auth/login`. `lookup` is the reply of the slug query, made only
      when both fields are present; `nowMs` is `Date.now()` and `production`
      whether `NODE_ENV` is `production`. */
  function Login(form: LoginForm, lookup: Fetched<seq<Tenant>>, nowMs: int, production: bool): (r: LoginReply)
    ensures form.tenantSlug.None? || form.tenantSlug.value == "" || form.password.None? || form.password.value == "" ==>
      r == MissingFields
    ensures form.tenantSlug.Some? && form.tenantSlug.value != "" && form.password.Some? && form.password.value != "" ==>
      (r.LoggedIn? <==> ValidateTenant(lookup, form.password.value).valid)
      && (!r.LoggedIn? ==> r == Unauthorized)
    ensures r.LoggedIn? ==>
      var t := lookup.body[0];
      && r.tenant == Publish(t)
      && r.cookie == Cookie("auth-token", Signed(TokenPayload(t.id, t.slug, t.name, t.umamiWebsiteId, ExpiryFor(nowMs))),
                            true, production, "lax", SessionSeconds, "/")
  {
    if form.tenantSlug.None? || form.tenantSlug.value == "" || form.password.None? || form.password.value == "" then
      MissingFields
    else
      var v := ValidateTenant(lookup, form.password.value);
      if !v.valid || v.tenant.None? then Unauthorized
      else
        var t := v.tenant.value;
        var payload := TokenPayload(t.id, t.slug, t.name, t.umamiWebsiteId, ExpiryFor(nowMs));
        LoggedIn(PublicTenant(t.id, t.name, t.slug),
                 Cookie("auth-token", Signed(payload), true, production, "lax", SessionSeconds, "/"))
  }

  /** The token and the cookie run out together: the token's expiry, in
      milliseconds, lies within the last second before the cookie's. */
  lemma TokenOutlivesCookieByLessThanASecond(form: LoginForm, lookup: Fetched<seq<Tenant>>, nowMs: int, production: bool)
    requires Login(form, lookup, nowMs, production).LoggedIn?
    ensures var r := Login(form, lookup, nowMs, production);
      var cookieEndMs := nowMs + r.cookie.maxAge * 1000;
      cookieEndMs - 1000 < r.cookie.token.payload.exp * 1000 <= cookieEndMs
  {
  }

  /** Against the live tenants collection: the tenant with that slug logs in
      exactly when its stored password is the one supplied. */
  lemma LogsInWithStoredPassword(tenants: seq<Tenant>, k: nat, password: string, nowMs: int, production: bool)
    requires UniqueSlugs(tenants) && k < |tenants| && tenants[k].slug != "" && password != ""
    ensures var form := LoginForm(Some(tenants[k].slug), Some(password));
      var r := Login(form, TenantQuery(tenants, tenants[k].slug, Up), nowMs, production);
      && (r.LoggedIn? <==> tenants[k].password == Some(password))
      && (r.LoggedIn? ==> r.tenant == Publish(tenants[k]) && r.cookie.token.payload.tenantId == tenants[k].id)
  {
    var matches := TenantsWithSlug(tenants, tenants[k].slug);
    SlugQueryAtMostOne(tenants, tenants[k].slug);
    assert tenants[k] in matches;
    assert matches == [tenants[k]];
  }

  /** A slug nobody has never logs in, whatever the password. */
  lemma UnknownSlugRefused(tenants: seq<Tenant>, slug: string, password: string, nowMs: int, production: bool)
    requires slug != "" && password != ""
    requires forall k :: 0 <= k < |tenants| ==> tenants[k].slug != slug
    ensures Login(LoginForm(Some(slug), Some(password)), TenantQuery(tenants, slug, Up), nowMs, production) == Unauthorized
  {
  }
}
