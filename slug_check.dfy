/** The slug availability route (next-frontend/app/api/tenants/check-slug/route.ts):
    a chain of guards on the requested slug, then one lookup in the tenants
    collection. */
module SlugCheck {
  import opened Wrappers
  import opened Strings
  import opened Cms
  import Middleware

  /** A character of `[a-z0-9-]`. */
  predicate IsSlugChar(c: char) {
    'a' <= c <= 'z' || '0' <= c <= '9' || c == '-'
  }

  /** The characters the slug pattern's class lists. */
  const SlugAlphabet: string := "abcdefghijklmnopqrstuvwxyz0123456789-"

  /** A character is in the class exactly when it is one of those listed. */
  lemma SlugCharListed(c: char)
    ensures IsSlugChar(c) <==> c in SlugAlphabet
  {
    var a := SlugAlphabet;
    assert |a| == 37;
    if c in a {
      var k :| 0 <= k < 37 && a[k] == c;
      assert forall j | 0 <= j < 37 :: IsSlugChar(a[j]);
    }
    if 'a' <= c <= 'z' {
      assert SlugAlphabet[c as int - 'a' as int] == c;
    } else if '0' <= c <= '9' {
      assert SlugAlphabet[26 + c as int - '0' as int] == c;
    } else if c == '-' {
      assert SlugAlphabet[36] == c;
    }
  }

  /** `/^[a-z0-9-]+$/.test(slug)`: one or more characters, each listed in the class. */
  predicate IsSlugFormat(slug: string)
    ensures IsSlugFormat(slug) <==> |slug| >= 1 && forall c :: c in slug ==> c in SlugAlphabet
  {
    SlugCharsListed(slug);
    |slug| >= 1 && forall k :: 0 <= k < |slug| ==> IsSlugChar(slug[k])
  }

  lemma SlugCharsListed(slug: string)
    ensures (forall k :: 0 <= k < |slug| ==> IsSlugChar(slug[k])) <==> (forall c :: c in slug ==> c in SlugAlphabet)
  {
    forall c | c in slug {
      SlugCharListed(c);
    }
  }

  const MinSlugLength: nat := 3
  const MaxSlugLength: nat := 50

  /** Names no tenant may take. */
  const ReservedSlugs: seq<string> := [
    "admin", "api", "app", "auth", "dashboard", "login", "register", "www",
    "mail", "ftp", "blog", "help", "support", "docs", "status"
  ]

  const FormatError: string := "Slug can only contain lowercase letters, numbers, and hyphens"
  const TooShortError: string := "Slug must be at least 3 characters long"
  const TooLongError: string := "Slug must be less than 50 characters"
  const ReservedError: string := "This slug is reserved"

  /** The route's answers. */
  datatype SlugReply =
    | Missing                                   // 400 "Slug parameter is required"
    | Unavailable(error: string)                // 200 { available: false, error }
    | Availability(available: bool, slug: string) // 200 { available, slug }
    | LookupFailed                              // 500 "Failed to check slug availability"
    | InternalError                             // 500 "Internal server error"
  {
    function Status(): int {
      match this
      case Missing => 400
      case LookupFailed | InternalError => 500
      case _ => 200
    }
  }

  /** Every rule the slug breaks, in the order the route tests them. */
  function Violations(slug: string): (errors: seq<string>)
    ensures errors == [] <==>
      IsSlugFormat(slug) && MinSlugLength <= |slug| <= MaxSlugLength && slug !in ReservedSlugs
  {
    (if IsSlugFormat(slug) then [] else [FormatError])
    + (if |slug| < MinSlugLength then [TooShortError] else [])
    + (if |slug| > MaxSlugLength then [TooLongError] else [])
    + (if slug in ReservedSlugs then [ReservedError] else [])
  }

  /** The guard chain: the error of the first guard that fires, if any. */
  function FirstViolation(slug: string): (error: Option<string>)
    ensures error.None? <==> Violations(slug) == []
    ensures error.Some? ==> error.value == Violations(slug)[0]
  {
    if !IsSlugFormat(slug) then Some(FormatError)
    else if |slug| < MinSlugLength then Some(TooShortError)
    else if |slug| > MaxSlugLength then Some(TooLongError)
    else if slug in ReservedSlugs then Some(ReservedError)
    else None
  }

  /** `GET /api/tenants/check-slug?slug=…`. `lookup` is the reply of the
      tenants query (`where[slug][equals]=<slug>&limit=1`), whose body holds an
      optional `docs` list; it is only consulted once every guard has passed. */
  function CheckSlug(slug: Option<string>, lookup: Fetched<Option<seq<Tenant>>>): (r: SlugReply)
    ensures slug.None? || slug.value == "" ==> r == Missing
    ensures slug.Some? && slug.value != "" && FirstViolation(slug.value).Some? ==>
      r == Unavailable(FirstViolation(slug.value).value)
    ensures slug.Some? && slug.value != "" && FirstViolation(slug.value).None? ==>
      match lookup
      case NotOk(_) => r == LookupFailed
      case Thrown => r == InternalError
      case Ok(docs) => r == Availability(docs.None? || docs.value == [], slug.value)
    ensures r.Availability? && r.available ==>
      && IsSlugFormat(r.slug) && MinSlugLength <= |r.slug| <= MaxSlugLength && r.slug !in ReservedSlugs
  {
    if slug.None? || slug.value == "" then Missing
    else
      var s := slug.value;
      var error := FirstViolation(s);
      if error.Some? then Unavailable(error.value)
      else
        match lookup
        case NotOk(_) => LookupFailed
        case Thrown => InternalError
        case Ok(docs) => Availability(docs.None? || docs.value == [], s)
  }

  /** A guard failure does not depend on the directory. */
  lemma GuardsIgnoreLookup(slug: string, a: Fetched<Option<seq<Tenant>>>, b: Fetched<Option<seq<Tenant>>>)
    requires slug != "" && Violations(slug) != []
    ensures CheckSlug(Some(slug), a) == CheckSlug(Some(slug), b)
    ensures CheckSlug(Some(slug), a).Unavailable?
  {
  }

  /** Against the live tenants collection, a slug that passes the guards is
      available exactly when no tenant has it. */
  lemma AvailableIffUnused(tenants: seq<Tenant>, slug: string)
    requires slug != "" && Violations(slug) == []
    ensures CheckSlug(Some(slug), Ok(Some(Limit(TenantsWithSlug(tenants, slug), 1))))
      == Availability(forall k :: 0 <= k < |tenants| ==> tenants[k].slug != slug, slug)
  {
    var matches := TenantsWithSlug(tenants, slug);
    assert |matches| >= 1 ==> Limit(matches, 1) != [] by {
      if |matches| >= 1 {
        assert Limit(matches, 1)[0] == matches[0];
      }
    }
  }

  /** The length bound is inclusive: 50 characters pass, 51 do not. */
  lemma MaxLengthInclusive(slug: string)
    requires IsSlugFormat(slug) && slug !in ReservedSlugs
    ensures |slug| == 50 ==> FirstViolation(slug).None?
    ensures |slug| == 51 ==> FirstViolation(slug) == Some(TooLongError)
  {
  }

  /** A well-formed slug contains neither a dot nor a colon, so it is a single host label. */
  lemma SlugIsOneLabel(slug: string)
    requires IsSlugFormat(slug)
    ensures '.' !in slug && ':' !in slug
  {
    assert !IsSlugChar('.') && !IsSlugChar(':');
    forall k | 0 <= k < |slug|
      ensures slug[k] != '.' && slug[k] != ':'
    {
      assert IsSlugChar(slug[k]);
    }
  }

  /** Every subdomain the middleware refuses to treat as a tenant is reported
      reserved here, so no tenant can be registered through the availability
      check under a name the middleware would drop. */
  lemma ExcludedSubdomainsReserved(k: nat, lookup: Fetched<Option<seq<Tenant>>>)
    requires k < |Middleware.ExcludedSubdomains|
    ensures CheckSlug(Some(Middleware.ExcludedSubdomains[k]), lookup) == Unavailable(ReservedError)
  {
    var name := Middleware.ExcludedSubdomains[k];
    assert name in ReservedSlugs;
    forall i | 0 <= i < |name|
      ensures IsSlugChar(name[i])
    {
    }
    assert |name| >= 3;
  }

  /** A slug reported available, that does not contain `localhost`, is what
      the middleware reads back from the tenant's domain. */
  lemma AvailableSlugResolves(slug: Option<string>, lookup: Fetched<Option<seq<Tenant>>>)
    requires CheckSlug(slug, lookup).Availability? && CheckSlug(slug, lookup).available
    requires !Contains(slug.value, "localhost")
    ensures Middleware.ExtractSubdomain(Middleware.TenantDomain(slug.value)) == Some(slug.value)
  {
    SlugIsOneLabel(slug.value);
    Middleware.TenantDomainResolves(slug.value);
  }

  /** But a slug may contain `localhost` (`my-localhost` passes every guard),
      and then the middleware takes its domain for a local development host and
      resolves no tenant from it. */
  lemma LocalhostSlugNeverResolves(slug: string)
    requires IsSlugFormat(slug) && Contains(slug, "localhost")
    ensures Middleware.ExtractSubdomain(Middleware.TenantDomain(slug)) == None
  {
    SlugIsOneLabel(slug);
    var host := Middleware.TenantDomain(slug);
    var i :| 0 <= i <= |slug| && OccursAt(slug, "localhost", i);
    assert host[i..i + 9] == slug[i..i + 9];
    assert OccursAt(host, "localhost", i);
    assert host == slug + "." + Middleware.AnalyticsApex;
    SplitNoSep(host, ':');
  }

  /** `my-localhost` passes every guard, yet its domain resolves to no tenant. */
  lemma LocalhostSlugExample()
    ensures FirstViolation("my-localhost").None?
    ensures Middleware.ExtractSubdomain(Middleware.TenantDomain("my-localhost")) == None
  {
    var slug := "my-localhost";
    assert OccursAt(slug, "localhost", 3);
    LocalhostSlugNeverResolves(slug);
  }
}
