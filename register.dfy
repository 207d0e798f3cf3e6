/** The registration route (next-frontend/app/api/auth/register/route.ts):
    validation of the submitted form, a duplicate check on the slug and on the
    email, then the creation of a pending tenant and of a pending user linked
    to it, through the CMS's REST interface. */
module Register {
  import opened Wrappers
  import opened Strings
  import opened Cms
  import opened Users
  import SlugCheck

  // ---------------------------------------------------------------------------
  // The email pattern /^[^\s@]+@[^\s@]+\.[^\s@]+$/

  /** The characters JavaScript's `\s` matches. */
  predicate IsJsSpace(c: char) {
    || c == '\t' || c == '\n' || c == '\U{0B}' || c == '\U{0C}' || c == '\r' || c == ' '
    || c == '\U{A0}' || c == '\U{1680}' || ('\U{2000}' <= c <= '\U{200A}')
    || c == '\U{2028}' || c == '\U{2029}' || c == '\U{202F}' || c == '\U{205F}'
    || c == '\U{3000}' || c == '\U{FEFF}'
  }

  /** `[^\s@]`. */
  predicate IsEmailChar(c: char) {
    !IsJsSpace(c) && c != '@'
  }

  /** `[^\s@]+`. */
  predicate IsEmailRun(s: string) {
    |s| >= 1 && forall k :: 0 <= k < |s| ==> IsEmailChar(s[k])
  }

  /** The regular expression read as written: a run, `@`, a run, `.`, a run,
      with the `@` at `i` and the `.` at `j`. */
  predicate EmailSplitsAt(s: string, i: int, j: int) {
    0 <= i < j < |s| && s[i] == '@' && s[j] == '.'
    && IsEmailRun(s[..i]) && IsEmailRun(s[i + 1..j]) && IsEmailRun(s[j + 1..])
  }

  predicate MatchesEmailPattern(s: string) {
    exists i, j :: 0 <= i < j < |s| && EmailSplitsAt(s, i, j)
  }

  /** An equivalent description of the same strings: no white space, a single
      `@` that is not the first character, and a `.` after it with at least one
      character on either side. */
  predicate IsValidEmail(s: string) {
    && (forall k :: 0 <= k < |s| ==> !IsJsSpace(s[k]))
    && exists i :: 0 < i < |s| && s[i] == '@' && (forall k :: 0 <= k < |s| && s[k] == '@' ==> k == i)
         && exists j :: i + 1 < j < |s| - 1 && s[j] == '.'
  }

  lemma EmailDescriptionsAgree(s: string)
    ensures MatchesEmailPattern(s) <==> IsValidEmail(s)
  {
    if MatchesEmailPattern(s) {
      var i, j :| 0 <= i < j < |s| && EmailSplitsAt(s, i, j);
      forall k | 0 <= k < |s| && k != i
        ensures IsEmailChar(s[k])
      {
        if k < i {
          assert s[..i][k] == s[k];
        } else if k < j {
          assert s[i + 1..j][k - i - 1] == s[k];
        } else if k > j {
          assert s[j + 1..][k - j - 1] == s[k];
        }
      }
      assert s[..i][0] == s[0];
      assert s[j + 1..][0] == s[j + 1];
      assert s[i + 1..j][0] == s[i + 1];
      assert i > 0 && i + 1 < j && j < |s| - 1;
    }
    if IsValidEmail(s) {
      var i :| 0 < i < |s| && s[i] == '@' && (forall k :: 0 <= k < |s| && s[k] == '@' ==> k == i)
        && exists j :: i + 1 < j < |s| - 1 && s[j] == '.';
      var j :| i + 1 < j < |s| - 1 && s[j] == '.';
      assert forall k :: 0 <= k < |s| && k != i ==> IsEmailChar(s[k]);
      SliceRun(s, 0, i);
      SliceRun(s, i + 1, j);
      SliceRun(s, j + 1, |s|);
      assert s[..i] == s[0..i] && s[j + 1..] == s[j + 1..|s|];
      assert EmailSplitsAt(s, i, j);
    }
  }

  /** A stretch of pattern characters is a run. */
  lemma SliceRun(s: string, a: int, b: int)
    requires 0 <= a < b <= |s|
    requires forall k :: a <= k < b ==> IsEmailChar(s[k])
    ensures IsEmailRun(s[a..b])
  {
    var t := s[a..b];
    forall k | 0 <= k < |t|
      ensures IsEmailChar(t[k])
    {
      assert t[k] == s[a + k];
    }
  }

  // ---------------------------------------------------------------------------
  // The URL pattern /^https?:\/\/.+/

  /** The characters JavaScript's `.` does not match. */
  predicate IsLineTerminator(c: char) {
    c == '\n' || c == '\r' || c == '\U{2028}' || c == '\U{2029}'
  }

  /** `http://` or `https://`, then at least one character other than a line
      terminator (the pattern is not anchored at the end). */
  predicate IsHttpUrl(s: string)
    ensures IsHttpUrl(s) ==> |s| >= 8 && StartsWith(s, "http") && (StartsWith(s, "http:") || StartsWith(s, "https:"))
  {
    || (StartsWith(s, "http://") && |s| > 7 && !IsLineTerminator(s[7]))
    || (StartsWith(s, "https://") && |s| > 8 && !IsLineTerminator(s[8]))
  }

  /** The pattern is not anchored at the end: whatever follows an accepted
      URL, the result is accepted too. */
  lemma UrlPatternUnanchored(s: string, t: string)
    requires IsHttpUrl(s)
    ensures IsHttpUrl(s + t)
  {
    assert (s + t)[..7] == s[..7] && (s + t)[7] == s[7];
    if |s| > 8 {
      assert (s + t)[..8] == s[..8] && (s + t)[8] == s[8];
    }
  }

  // ---------------------------------------------------------------------------
  // Validation

  /** The JSON body. Absent fields are `None`; only strings are modelled. */
  datatype Form = Form(
    firstName: Option<string>,
    lastName: Option<string>,
    email: Option<string>,
    companyName: Option<string>,
    desiredSlug: Option<string>,
    websiteUrl: Option<string>,
    message: Option<string>)

  /** A truthy string: present and not empty. */
  predicate Filled(field: Option<string>) {
    field.Some? && field.value != ""
  }

  predicate RequiredFilled(f: Form) {
    Filled(f.firstName) && Filled(f.lastName) && Filled(f.email) && Filled(f.companyName)
    && Filled(f.desiredSlug) && Filled(f.websiteUrl)
  }

  const RequiredError: string := "All required fields must be provided"
  const EmailError: string := "Invalid email format"
  const UrlError: string := "Please enter a valid website URL starting with http:// or https://"
  const SlugTakenError: string := "This organization URL is already taken"
  const EmailTakenError: string := "User with this email already exists"

  /** The four 400 guards, in order; `None` when the form passes them all. */
  function ValidateForm(f: Form): (error: Option<string>)
    ensures !RequiredFilled(f) ==> error == Some(RequiredError)
    ensures RequiredFilled(f) && !MatchesEmailPattern(f.email.value) ==> error == Some(EmailError)
    ensures RequiredFilled(f) && MatchesEmailPattern(f.email.value) && !IsHttpUrl(f.websiteUrl.value) ==>
      error == Some(UrlError)
    ensures (RequiredFilled(f) && MatchesEmailPattern(f.email.value) && IsHttpUrl(f.websiteUrl.value)
      && !SlugCheck.IsSlugFormat(f.desiredSlug.value)) ==> error == Some(SlugCheck.FormatError)
    ensures error.None? <==>
      RequiredFilled(f) && MatchesEmailPattern(f.email.value) && IsHttpUrl(f.websiteUrl.value)
      && SlugCheck.IsSlugFormat(f.desiredSlug.value)
  {
    if !RequiredFilled(f) then Some(RequiredError)
    else if !(EmailDescriptionsAgree(f.email.value); IsValidEmail(f.email.value)) then Some(EmailError)
    else if !IsHttpUrl(f.websiteUrl.value) then Some(UrlError)
    else if !SlugCheck.IsSlugFormat(f.desiredSlug.value) then Some(SlugCheck.FormatError)
    else None
  }

  /** Registration checks only the slug's characters: a slug the availability
      route calls too short, too long or reserved is let through. */
  lemma SlugRulesNotEnforced(f: Form, lookup: Fetched<Option<seq<Tenant>>>)
    requires ValidateForm(f).None?
    requires |f.desiredSlug.value| < SlugCheck.MinSlugLength || |f.desiredSlug.value| > SlugCheck.MaxSlugLength
      || f.desiredSlug.value in SlugCheck.ReservedSlugs
    ensures SlugCheck.CheckSlug(f.desiredSlug, lookup).Unavailable?
  {
  }

  // ---------------------------------------------------------------------------
  // The duplicate checks

  /** The route's answers. */
  datatype RegisterReply =
    | Registered(tenantId: nat, userId: nat)   // 200 { success: true, tenantId, userId }
    | Invalid(error: string)                   // 400
    | Conflict(error: string)                  // 409
    | ServerError                              // 500, from a failed create or a thrown exception
  {
    function Status(): int {
      match this
      case Registered(_, _) => 200
      case Invalid(_) => 400
      case Conflict(_) => 409
      case ServerError => 500
    }
  }

  /** How each of the route's four remote calls fares. */
  datatype Network = Network(slugLookup: Link, emailLookup: Link, tenantCreate: Link, userCreate: Link)

  /** The early answer from validation and the two lookups, with `asWho` the
      identity the lookups are made as; `None` when the route goes on to create.
      A lookup that is not ok is ignored, one that throws ends in 500. */
  function Screen(tenants: seq<Tenant>, users: seq<UserDoc>, f: Form, net: Network, asWho: Option<Requester>)
    : (r: Option<RegisterReply>)
    ensures ValidateForm(f).Some? ==> r == Some(Invalid(ValidateForm(f).value))
    ensures r.None? ==> ValidateForm(f).None?
    ensures r.Some? ==> !r.value.Registered?
  {
    var invalid := ValidateForm(f);
    if invalid.Some? then Some(Invalid(invalid.value))
    else
      var slugReply := TenantQuery(tenants, f.desiredSlug.value, net.slugLookup);
      if slugReply.Thrown? then Some(ServerError)
      else if slugReply.Ok? && slugReply.body != [] then Some(Conflict(SlugTakenError))
      else
        var userReply := UserQuery(users, f.email.value, asWho, net.emailLookup);
        if userReply.Thrown? then Some(ServerError)
        else if userReply.Ok? && userReply.body != [] then Some(Conflict(EmailTakenError))
        else None
  }

  /** A taken slug is refused with 409 when its lookup gets through. */
  lemma TakenSlugConflicts(tenants: seq<Tenant>, users: seq<UserDoc>, f: Form, net: Network, asWho: Option<Requester>)
    requires ValidateForm(f).None? && net.slugLookup == Up
    requires exists k :: 0 <= k < |tenants| && tenants[k].slug == f.desiredSlug.value
    ensures Screen(tenants, users, f, net, asWho) == Some(Conflict(SlugTakenError))
  {
    LimitedQueryNonEmpty(TenantsWithSlug(tenants, f.desiredSlug.value), 1);
  }

  /** A lookup that answers with an error status does not block: the outcome
      is then the same whatever the tenants and users are. */
  lemma FailedLookupsIgnored(t1: seq<Tenant>, t2: seq<Tenant>, u1: seq<UserDoc>, u2: seq<UserDoc>,
                             f: Form, net: Network, asWho: Option<Requester>)
    requires net.slugLookup.Down? && net.emailLookup.Down?
    ensures Screen(t1, u1, f, net, asWho) == Screen(t2, u2, f, net, asWho)
    ensures Screen(t1, u1, f, net, asWho) == if ValidateForm(f).Some? then Some(Invalid(ValidateForm(f).value)) else None
  {
  }

  /** The route's lookups carry no credentials. Users may only be read by an
      admin, so the email lookup is refused and an email that is already
      registered passes the screen. */
  lemma DuplicateEmailSlipsThrough(tenants: seq<Tenant>, users: seq<UserDoc>, f: Form, net: Network)
    requires ValidateForm(f).None? && net.slugLookup == Up && net.emailLookup == Up
    requires forall k :: 0 <= k < |tenants| ==> tenants[k].slug != f.desiredSlug.value
    ensures Screen(tenants, users, f, net, None) == None
  {
    LimitedQueryNonEmpty(TenantsWithSlug(tenants, f.desiredSlug.value), 1);
  }

  /** The lookup made with an admin's credentials, as the 409 branch intends,
      refuses an email that is already registered. */
  lemma DuplicateEmailRejected(tenants: seq<Tenant>, users: seq<UserDoc>, f: Form, net: Network, admin: Requester)
    requires ValidateForm(f).None? && net.slugLookup == Up && net.emailLookup == Up && admin.role == Admin
    requires forall k :: 0 <= k < |tenants| ==> tenants[k].slug != f.desiredSlug.value
    requires exists k :: 0 <= k < |users| && users[k].data.email == f.email.value
    ensures Screen(tenants, users, f, net, Some(admin)) == Some(Conflict(EmailTakenError))
  {
    LimitedQueryNonEmpty(TenantsWithSlug(tenants, f.desiredSlug.value), 1);
    LimitedQueryNonEmpty(UsersWithEmail(users, f.email.value), 1);
  }

  // ---------------------------------------------------------------------------
  // Creation

  /** The tenant the route submits, as stored under `id`. */
  function RequestedTenant(id: nat, f: Form, password: string): (t: Tenant)
    requires ValidateForm(f).None?
    ensures t.status == Pending && t.slug == f.desiredSlug.value && t.name == f.companyName.value
    ensures t.settings == Some(Settings(Some(DefaultBrandColor))) && t.password == Some(password)
    ensures t.domain == f.websiteUrl && t.umamiWebsiteId.None?
  {
    Tenant(id, f.companyName.value, f.desiredSlug.value, None, f.websiteUrl,
           Some(Settings(Some(DefaultBrandColor))), Pending, Some(password))
  }

  /** The user the route submits, linked to tenant `tenantId`. */
  function RequestedUser(f: Form, tenantId: nat, password: string): (u: UserData)
    requires ValidateForm(f).None?
    ensures u.role == RegularUser && u.status == Some(PendingApproval) && u.tenant == Some(tenantId)
    ensures u.email == f.email.value && u.firstName == f.firstName.value && u.lastName == f.lastName.value
    ensures u.message == Some(OrElse(f.message, ""))
    ensures u.password == Some(password) && u.generatedPassword.None?
  {
    UserData(f.firstName.value, f.lastName.value, f.email.value, RegularUser, Some(tenantId),
             Some(PendingApproval), Some(OrElse(f.message, "")), None, Some(password), None, None, None)
  }

  /** The create hook keeps a registered user as submitted: already pending,
      with no generated password and no creating admin. */
  lemma RequestedUserUnchangedByHook(f: Form, tenantId: nat, password: string)
    requires ValidateForm(f).None?
    ensures OnCreate(None, RequestedUser(f, tenantId, password)) == RequestedUser(f, tenantId, password)
  {
  }

  /** `POST /api/auth/register`. `asWho` is the identity both lookups are
      made as: the route sends no credentials (`None`). `tenantPassword` and
      `userPassword` stand for the two random passwords. */
  method Register(store: Store, mailer: Mailer, f: Form, net: Network, asWho: Option<Requester>,
                  tenantPassword: string, userPassword: string, now: int)
    returns (reply: RegisterReply)
    requires store.Valid()
    modifies store, mailer
    ensures store.Valid()
    ensures mailer.sent == old(mailer.sent)
    ensures reply.Registered? ==> reply.Status() == 200
    ensures Screen(old(store.tenants), old(store.users), f, net, asWho).Some? ==>
      && reply == Screen(old(store.tenants), old(store.users), f, net, asWho).value
      && store.tenants == old(store.tenants) && store.users == old(store.users)
    ensures Screen(old(store.tenants), old(store.users), f, net, asWho).None? ==>
      if net.tenantCreate != Up || TenantsWithSlug(old(store.tenants), f.desiredSlug.value) != [] then
        reply == ServerError && store.tenants == old(store.tenants) && store.users == old(store.users)
      else
        var tenant := RequestedTenant(|old(store.tenants)| + 1, f, tenantPassword);
        && store.tenants == old(store.tenants) + [tenant]
        && if net.userCreate != Up || UsersWithEmail(old(store.users), f.email.value) != [] then
             reply == ServerError && store.users == old(store.users)
           else
             var user := UserDoc(|old(store.users)| + 1, RequestedUser(f, tenant.id, userPassword));
             reply == Registered(tenant.id, user.id) && store.users == old(store.users) + [user]
  {
    var early := Screen(store.tenants, store.users, f, net, asWho);
    if early.Some? {
      return early.value;
    }
    if net.tenantCreate != Up {
      return ServerError;
    }
    var tenant := store.CreateTenant(f.companyName.value, f.desiredSlug.value, f.websiteUrl, Some(tenantPassword),
                                     Some(Pending), Some(Settings(Some(DefaultBrandColor))));
    if tenant.None? {
      return ServerError;
    }
    if net.userCreate != Up {
      return ServerError;
    }
    var data := RequestedUser(f, tenant.value.id, userPassword);
    RequestedUserUnchangedByHook(f, tenant.value.id, userPassword);
    var user := CreateUser(store, mailer, None, data, now);
    if user.None? {
      return ServerError;
    }
    reply := Registered(tenant.value.id, user.value.id);
  }
}
