/** The two Payload CMS collections the frontend and the hooks talk to
    (payload-cms/src/collections/Tenants.ts and Users.ts), and the store that
    holds their documents. Payload itself is not modelled: the store keeps the
    documents in insertion order, hands out ids in sequence and enforces the
    two `unique: true` fields (a tenant's slug, a user's email). */
module Cms {
  import opened Wrappers

  /** A tenant's `status` select. */
  datatype TenantStatus = Active | Suspended | Pending

  /** The select's `defaultValue`. */
  const DefaultTenantStatus: TenantStatus := Active

  /** The default brand colour, used by the tenant settings group and by every
      route that fills in a missing colour. */
  const DefaultBrandColor: string := "#3B82F6"

  /** The `settings` group. */
  datatype Settings = Settings(brandColor: Option<string>)

  /** A tenant document. `password` is the shared tenant password the
      registration route submits and the login route and the approval hook read. */
  datatype Tenant = Tenant(
    id: nat,
    name: string,
    slug: string,
    umamiWebsiteId: Option<string>,
    domain: Option<string>,
    settings: Option<Settings>,
    status: TenantStatus,
    password: Option<string>)

  /** A user's `role` select. */
  datatype Role = Admin | RegularUser

  /** A user's approval `status` select. */
  datatype ApprovalStatus = PendingApproval | Approved | Rejected

  /** The fields of a user document: what the hooks receive as `data` and `doc`.
      Relationships (`tenant`, `approvedBy`, `adminCreatedBy`) hold document ids;
      `approvedAt` is a time in milliseconds. */
  datatype UserData = UserData(
    firstName: string,
    lastName: string,
    email: string,
    role: Role,
    tenant: Option<nat>,
    status: Option<ApprovalStatus>,
    message: Option<string>,
    generatedPassword: Option<string>,
    password: Option<string>,
    approvedBy: Option<nat>,
    approvedAt: Option<int>,
    adminCreatedBy: Option<nat>)

  /** A relationship field is set in JavaScript's sense (`if (data.tenant)`,
      `!value`): present and not `0`, since `0` is falsy. */
  predicate Linked(id: Option<nat>) {
    id.Some? && id.value != 0
  }

  /** A stored user document. */
  datatype UserDoc = UserDoc(id: nat, data: UserData)

  /** The documents whose slug equals `slug` (`where[slug][equals]=…`), in store order. */
  function TenantsWithSlug(tenants: seq<Tenant>, slug: string): (r: seq<Tenant>)
    ensures |r| <= |tenants|
    ensures forall t :: t in r <==> t in tenants && t.slug == slug
    ensures r == [] <==> forall k :: 0 <= k < |tenants| ==> tenants[k].slug != slug
  {
    if |tenants| == 0 then []
    else
      var rest := TenantsWithSlug(tenants[1..], slug);
      assert forall k :: 1 <= k < |tenants| ==> tenants[k] == tenants[1..][k - 1];
      if tenants[0].slug == slug then [tenants[0]] + rest else rest
  }

  /** The user documents whose email equals `email`, in store order. */
  function UsersWithEmail(users: seq<UserDoc>, email: string): (r: seq<UserDoc>)
    ensures |r| <= |users|
    ensures forall u :: u in r <==> u in users && u.data.email == email
    ensures r == [] <==> forall k :: 0 <= k < |users| ==> users[k].data.email != email
  {
    if |users| == 0 then []
    else
      var rest := UsersWithEmail(users[1..], email);
      assert forall k :: 1 <= k < |users| ==> users[k] == users[1..][k - 1];
      if users[0].data.email == email then [users[0]] + rest else rest
  }

  /** At most `limit` of the matches, the first ones (the `limit=` query parameter). */
  function Limit<T>(docs: seq<T>, limit: nat): (r: seq<T>)
    ensures |r| <= limit && |r| <= |docs|
    ensures r == docs[..|r|]
    ensures |docs| <= limit ==> r == docs
  {
    if |docs| <= limit then docs else docs[..limit]
  }

  /** A REST query for the tenants with a slug (`where[slug][equals]=…&limit=1`);
      the tenants collection lets anyone read. */
  function TenantQuery(tenants: seq<Tenant>, slug: string, link: Link): (r: Fetched<seq<Tenant>>)
    ensures link == Up ==> r == Ok(Limit(TenantsWithSlug(tenants, slug), 1))
    ensures link.Down? ==> r == NotOk(link.status)
    ensures link == Unreachable ==> r == Thrown
  {
    match link
    case Up => Ok(Limit(TenantsWithSlug(tenants, slug), 1))
    case Down(status) => NotOk(status)
    case Unreachable => Thrown
  }

  /** A limited query finds something exactly when some document matches. */
  lemma LimitedQueryNonEmpty<T>(docs: seq<T>, limit: nat)
    requires limit >= 1
    ensures Limit(docs, limit) == [] <==> docs == []
  {
    if docs != [] {
      assert Limit(docs, limit)[0] == docs[0];
    }
  }

  /** `findByID` on either collection: `None` when no document has that id
      (Payload answers with a not-found error). Ids are positions plus one. */
  function FindById<T>(docs: seq<T>, id: nat): (r: Option<T>)
    ensures r.Some? <==> 1 <= id <= |docs|
    ensures r.Some? ==> r.value == docs[id - 1]
  {
    if 1 <= id <= |docs| then Some(docs[id - 1]) else None
  }

  /** No two tenants share a slug. */
  ghost predicate UniqueSlugs(tenants: seq<Tenant>) {
    forall i, j :: 0 <= i < j < |tenants| ==> tenants[i].slug != tenants[j].slug
  }

  /** No user other than document `id` has `email`: the unique-email rule
      for an update of that document. */
  predicate EmailFreeFor(users: seq<UserDoc>, id: nat, email: string) {
    forall k :: 0 <= k < |users| && k != id - 1 ==> users[k].data.email != email
  }

  /** No two users share an email. */
  ghost predicate UniqueEmails(users: seq<UserDoc>) {
    forall i, j :: 0 <= i < j < |users| ==> users[i].data.email != users[j].data.email
  }

  /** With unique slugs a slug query finds at most one tenant. */
  lemma {:induction false} SlugQueryAtMostOne(tenants: seq<Tenant>, slug: string)
    requires UniqueSlugs(tenants)
    ensures |TenantsWithSlug(tenants, slug)| <= 1
    decreases |tenants|
  {
    if |tenants| > 0 {
      SlugQueryAtMostOne(tenants[1..], slug);
      if tenants[0].slug == slug {
        assert TenantsWithSlug(tenants[1..], slug) == [] by {
          forall k | 0 <= k < |tenants[1..]|
            ensures tenants[1..][k].slug != slug
          {
            assert tenants[1..][k] == tenants[k + 1];
          }
        }
      }
    }
  }

  /** The Payload database: both collections, in insertion order. */
  class Store {
    var tenants: seq<Tenant>
    var users: seq<UserDoc>

    /** Ids are positions plus one, and the unique fields are unique. */
    ghost predicate Valid()
      reads this
    {
      && (forall i :: 0 <= i < |tenants| ==> tenants[i].id == i + 1)
      && (forall i :: 0 <= i < |users| ==> users[i].id == i + 1)
      && UniqueSlugs(tenants)
      && UniqueEmails(users)
    }

    constructor ()
      ensures Valid() && tenants == [] && users == []
    {
      tenants := [];
      users := [];
    }

    /** A tenant create: rejected when the slug is taken, otherwise stored
        under the next id. An absent status takes the collection default. */
    method CreateTenant(name: string, slug: string, domain: Option<string>, password: Option<string>,
                        status: Option<TenantStatus>, settings: Option<Settings>)
      returns (created: Option<Tenant>)
      requires Valid()
      modifies this
      ensures Valid()
      ensures users == old(users)
      ensures created.None? <==> TenantsWithSlug(old(tenants), slug) != []
      ensures created.None? ==> tenants == old(tenants)
      ensures created.Some? ==>
        && created.value == Tenant(|old(tenants)| + 1, name, slug, None, domain, settings,
                                   status.GetOr(DefaultTenantStatus), password)
        && tenants == old(tenants) + [created.value]
    {
      if TenantsWithSlug(tenants, slug) != [] {
        return None;
      }
      var t := Tenant(|tenants| + 1, name, slug, None, domain, settings, status.GetOr(DefaultTenantStatus), password);
      tenants := tenants + [t];
      created := Some(t);
    }

    /** A tenant update that sets only the status; `false` when no tenant has that id. */
    method SetTenantStatus(id: nat, status: TenantStatus) returns (ok: bool)
      requires Valid()
      modifies this
      ensures Valid()
      ensures users == old(users)
      ensures ok <==> 1 <= id <= |old(tenants)|
      ensures ok ==> tenants == old(tenants)[id - 1 := old(tenants)[id - 1].(status := status)]
      ensures !ok ==> tenants == old(tenants)
    {
      ok := 1 <= id <= |tenants|;
      if ok {
        tenants := tenants[id - 1 := tenants[id - 1].(status := status)];
      }
    }

    /** A user create: rejected when the email is taken, otherwise stored under the next id. */
    method InsertUser(data: UserData) returns (created: Option<UserDoc>)
      requires Valid()
      modifies this
      ensures Valid()
      ensures tenants == old(tenants)
      ensures created.None? <==> UsersWithEmail(old(users), data.email) != []
      ensures created.None? ==> users == old(users)
      ensures created.Some? ==> created.value == UserDoc(|old(users)| + 1, data) && users == old(users) + [created.value]
    {
      if UsersWithEmail(users, data.email) != [] {
        return None;
      }
      var u := UserDoc(|users| + 1, data);
      users := users + [u];
      created := Some(u);
    }

    /** A user update that replaces the stored fields of document `id`: rejected
        when no such user exists or another user already has the new email. */
    method ReplaceUser(id: nat, data: UserData) returns (updated: Option<UserDoc>)
      requires Valid()
      modifies this
      ensures Valid()
      ensures tenants == old(tenants)
      ensures updated.Some? <==> 1 <= id <= |old(users)| && EmailFreeFor(old(users), id, data.email)
      ensures updated.None? ==> users == old(users)
      ensures updated.Some? ==> updated.value == UserDoc(id, data) && users == old(users)[id - 1 := updated.value]
    {
      if !(1 <= id <= |users|) || !EmailFreeFor(users, id, data.email) {
        return None;
      }
      var u := UserDoc(id, data);
      users := users[id - 1 := u];
      updated := Some(u);
    }
  }
}
