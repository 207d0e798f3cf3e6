/** The Users collection of the CMS (payload-cms/src/collections/Users.ts):
    the password generator, the access rules, the tenant field's validation,
    the `beforeChange` hook that prepares the submitted data and the
    `afterChange` hook that activates the tenant and sends the approval email.
    `CreateUser` and `UpdateUser` run them for a create or an update request.
    They validate the tenant field before `beforeChange`, where Payload
    validates after it; the outcome is the same, since the hook never changes
    a regular user's role or tenant and an admin always validates. */
module Users {
  import opened Wrappers
  import opened Cms

  // ---------------------------------------------------------------------------
  // generatePassword

  /** The 70 characters a generated password is drawn from. */
  const Charset: string := "abcdefghijklmnopqrstuvwxyzABCDEFGHIJKLMNOPQRSTUVWXYZ0123456789!@#$%^&*"

  lemma CharsetSize()
    ensures |Charset| == 70
  {
  }

  /** Every character of the charset can be drawn. */
  lemma CharsetOnto(c: char)
    requires c in Charset
    ensures exists r: real :: 0.0 <= r < 1.0 && Charset[Pick(r, |Charset|)] == c
  {
    var k :| 0 <= k < |Charset| && Charset[k] == c;
    PickOnto(k, |Charset|);
    var r := k as real / |Charset| as real;
    assert Charset[Pick(r, |Charset|)] == c;
  }

  /** `generatePassword(length)`: appends one drawn character per iteration.
      `draws` are the successive values `Math.random()` returns. */
  method GeneratePassword(length: nat, draws: seq<real>) returns (password: string)
    requires |draws| >= length
    requires forall k :: 0 <= k < |draws| ==> 0.0 <= draws[k] < 1.0
    ensures |password| == length
    ensures forall k :: 0 <= k < length ==> password[k] in Charset
    ensures forall k :: 0 <= k < length ==> password[k] == Charset[Pick(draws[k], |Charset|)]
  {
    password := "";
    for i := 0 to length
      invariant |password| == i
      invariant forall k :: 0 <= k < i ==> password[k] == Charset[Pick(draws[k], |Charset|)]
    {
      password := password + [Charset[Pick(draws[i], |Charset|)]];
    }
  }

  // ---------------------------------------------------------------------------
  // Access rules

  /** `req.user`: the logged-in user making the request, if any. */
  datatype Requester = Requester(id: nat, role: Role)

  /** `user?.role === 'admin'`. */
  predicate IsAdmin(user: Option<Requester>) {
    user.Some? && user.value.role == Admin
  }

  predicate CanRead(user: Option<Requester>) {
    IsAdmin(user)
  }

  /** Anonymous requests are the frontend's registration form and are let in;
      a logged-in requester must be an admin. */
  predicate CanCreate(user: Option<Requester>) {
    if user.None? then true else user.value.role == Admin
  }

  predicate CanUpdate(user: Option<Requester>) {
    IsAdmin(user)
  }

  predicate CanDelete(user: Option<Requester>) {
    IsAdmin(user)
  }

  /** A REST query for the users with an email (`where[email][equals]=…&limit=1`)
      made as `requester`: a requester the read rule refuses gets 403. */
  function UserQuery(users: seq<UserDoc>, email: string, requester: Option<Requester>, link: Link): (r: Fetched<seq<UserDoc>>)
    ensures link == Up && CanRead(requester) ==> r == Ok(Limit(UsersWithEmail(users, email), 1))
    ensures link == Up && !CanRead(requester) ==> r == NotOk(403)
    ensures link.Down? ==> r == NotOk(link.status)
    ensures link == Unreachable ==> r == Thrown
  {
    match link
    case Up => if CanRead(requester) then Ok(Limit(UsersWithEmail(users, email), 1)) else NotOk(403)
    case Down(status) => NotOk(status)
    case Unreachable => Thrown
  }

  /** An anonymous users query never comes back ok. */
  lemma AnonymousUserQueryNeverOk(users: seq<UserDoc>, email: string, link: Link)
    ensures !UserQuery(users, email, None, link).Ok?
  {
  }

  /** The full access matrix, by kind of requester. */
  lemma AccessMatrix(user: Option<Requester>)
    ensures user.None? ==> !CanRead(user) && CanCreate(user) && !CanUpdate(user) && !CanDelete(user)
    ensures user.Some? && user.value.role == RegularUser ==>
      !CanRead(user) && !CanCreate(user) && !CanUpdate(user) && !CanDelete(user)
    ensures user.Some? && user.value.role == Admin ==>
      CanRead(user) && CanCreate(user) && CanUpdate(user) && CanDelete(user)
  {
  }

  /** Reading, updating and deleting need an admin; creating needs an admin or nobody. */
  lemma AccessCharacterised(user: Option<Requester>)
    ensures CanRead(user) <==> user.Some? && user.value.role == Admin
    ensures CanUpdate(user) <==> CanRead(user)
    ensures CanDelete(user) <==> CanRead(user)
    ensures CanCreate(user) <==> user.None? || CanRead(user)
  {
  }

  // ---------------------------------------------------------------------------
  // The tenant field's validation

  /** `validate` on the `tenant` relationship: an error message, or `None` for `true`. */
  function ValidateTenant(role: Role, tenant: Option<nat>): (error: Option<string>)
    ensures error.Some? <==> role == RegularUser && !Linked(tenant)
    ensures error.Some? ==> error.value == "Organization is required for regular users"
  {
    if role == RegularUser && !Linked(tenant) then Some("Organization is required for regular users")
    else None
  }

  /** Admins never need a tenant. */
  lemma AdminsNeedNoTenant(tenant: Option<nat>)
    ensures ValidateTenant(Admin, tenant) == None
  {
  }

  // ---------------------------------------------------------------------------
  // beforeChange

  datatype Operation = Create | Update

  /** `originalDoc?.status !== 'approved' && data.status === 'approved'`. The
      same test, on `previousDoc` and `doc`, drives the `afterChange` hook. */
  predicate NewlyApproved(previous: Option<UserData>, status: Option<ApprovalStatus>) {
    Approves(if previous.None? then None else previous.value.status, status)
  }

  /** A save that moves the status from anything else to approved. */
  predicate Approves(before: Option<ApprovalStatus>, after: Option<ApprovalStatus>) {
    before != Some(Approved) && after == Some(Approved)
  }

  /** The number of approving saves along a user's successive statuses. */
  function Approvals(history: seq<Option<ApprovalStatus>>): nat
    decreases |history|
  {
    if |history| < 2 then 0
    else (if Approves(history[0], history[1]) then 1 else 0) + Approvals(history[1..])
  }

  /** Once approved, a user who stays approved is approved (and so emailed)
      exactly once: when the history starts unapproved and ends approved, and
      never otherwise. */
  lemma {:induction false} ApprovedOnce(history: seq<Option<ApprovalStatus>>)
    requires |history| >= 1
    requires forall i, j :: 0 <= i < j < |history| && history[i] == Some(Approved) ==> history[j] == Some(Approved)
    ensures Approvals(history) == if history[0] != Some(Approved) && history[|history| - 1] == Some(Approved) then 1 else 0
    decreases |history|
  {
    if |history| >= 2 {
      var rest := history[1..];
      assert forall i, j :: 0 <= i < j < |rest| && rest[i] == Some(Approved) ==> rest[j] == Some(Approved) by {
        forall i, j | 0 <= i < j < |rest| && rest[i] == Some(Approved)
          ensures rest[j] == Some(Approved)
        {
          assert history[i + 1] == rest[i] && history[j + 1] == rest[j];
        }
      }
      ApprovedOnce(rest);
      assert rest[|rest| - 1] == history[|history| - 1];
      if history[0] == Some(Approved) {
        assert history[1] == Some(Approved);
      }
    }
  }

  /** What a create leaves of the submitted data, by role. */
  function OnCreate(user: Option<Requester>, d: UserData): (r: UserData)
    ensures r.firstName == d.firstName && r.lastName == d.lastName && r.email == d.email
    ensures r.role == d.role && r.password == d.password
    ensures r.approvedBy == d.approvedBy && r.approvedAt == d.approvedAt
    ensures d.role == Admin ==>
      && r.tenant.None? && r.status.None? && r.message.None? && r.generatedPassword.None?
      && r.adminCreatedBy == (if user.Some? then Some(user.value.id) else d.adminCreatedBy)
    ensures d.role == RegularUser ==>
      && r.status == Some(PendingApproval) && r.generatedPassword.None? && r.adminCreatedBy.None?
      && r.tenant == d.tenant && r.message == d.message
  {
    match d.role
    case Admin =>
      d.(tenant := None, status := None, message := None, generatedPassword := None,
         adminCreatedBy := if user.Some? then Some(user.value.id) else d.adminCreatedBy)
    case RegularUser =>
      d.(status := Some(PendingApproval), generatedPassword := None, adminCreatedBy := None)
  }

  /** What an approving update sets: both passwords to the tenant's, and the
      approver and the time when a requester is known. */
  function OnApproval(user: Option<Requester>, d: UserData, tenantPassword: Option<string>, now: int): (r: UserData)
    ensures r.generatedPassword == tenantPassword && r.password == tenantPassword
    ensures user.Some? ==> r.approvedBy == Some(user.value.id) && r.approvedAt == Some(now)
    ensures user.None? ==> r.approvedBy == d.approvedBy && r.approvedAt == d.approvedAt
    ensures r.(generatedPassword := d.generatedPassword, password := d.password,
               approvedBy := d.approvedBy, approvedAt := d.approvedAt) == d
  {
    var withPassword := d.(generatedPassword := tenantPassword, password := tenantPassword);
    if user.Some? then withPassword.(approvedBy := Some(user.value.id), approvedAt := Some(now))
    else withPassword
  }

  /** The tenant lookup of an approval. `None` when `findByID` fails, which
      aborts the update; otherwise the password it yields (`undefined` when the
      user has no tenant or the tenant has no password). */
  function TenantPasswordFor(tenants: seq<Tenant>, tenant: Option<nat>): (r: Option<Option<string>>)
    ensures r.None? <==> Linked(tenant) && FindById(tenants, tenant.value).None?
    ensures !Linked(tenant) ==> r == Some(None)
    ensures Linked(tenant) && r.Some? ==> r.value == tenants[tenant.value - 1].password
  {
    if !Linked(tenant) then Some(None)
    else
      var t := FindById(tenants, tenant.value);
      if t.None? then None else Some(t.value.password)
  }

  /** The hook's `data` object, which it changes field by field. */
  class UserDraft {
    var data: UserData

    constructor (d: UserData)
      ensures data == d
    {
      data := d;
    }

    /** The `beforeChange` hook. `ok` is `false` when the approval's tenant
        lookup throws; the update is then aborted with `data` untouched. */
    method BeforeChange(op: Operation, user: Option<Requester>, original: Option<UserData>,
                        tenants: seq<Tenant>, now: int)
      returns (ok: bool)
      modifies this
      ensures op == Create ==> ok && data == OnCreate(user, old(data))
      ensures op == Update && !(old(data).role == RegularUser && NewlyApproved(original, old(data).status)) ==>
        ok && data == old(data)
      ensures op == Update && old(data).role == RegularUser && NewlyApproved(original, old(data).status) ==>
        && (ok <==> TenantPasswordFor(tenants, old(data).tenant).Some?)
        && (ok ==> data == OnApproval(user, old(data), TenantPasswordFor(tenants, old(data).tenant).value, now))
        && (!ok ==> data == old(data))
    {
      ok := true;
      var isAdmin := data.role == Admin;
      var isUser := data.role == RegularUser;

      if op == Create && isAdmin {
        data := data.(tenant := None);
        data := data.(status := None);
        data := data.(message := None);
        data := data.(generatedPassword := None);
        if user.Some? {
          data := data.(adminCreatedBy := Some(user.value.id));
        }
      }

      if op == Create && isUser {
        data := data.(status := Some(PendingApproval));
        data := data.(generatedPassword := None);
        data := data.(adminCreatedBy := None);
      }

      if op == Update && isUser {
        var wasApproved := NewlyApproved(original, data.status);
        if wasApproved {
          var tenantPassword: Option<string> := None;
          if Linked(data.tenant) {
            var tenant := FindById(tenants, data.tenant.value);
            if tenant.None? {
              return false;
            }
            tenantPassword := tenant.value.password;
          }
          data := data.(generatedPassword := tenantPassword);
          data := data.(password := tenantPassword);
          if user.Some? {
            data := data.(approvedBy := Some(user.value.id));
            data := data.(approvedAt := Some(now));
          }
        }
      }
    }
  }

  /** Whatever a new regular user submits, it is stored as pending with no
      generated password. */
  lemma CreatedUsersPending(user: Option<Requester>, d: UserData)
    requires d.role == RegularUser
    ensures OnCreate(user, d).status == Some(PendingApproval)
    ensures OnCreate(user, d).generatedPassword.None?
  {
  }

  /** Re-saving an approved user, or saving a pending or rejected one without
      approving it, is not an approval. */
  lemma ApprovalIsATransition(previous: UserData, status: Option<ApprovalStatus>)
    ensures NewlyApproved(Some(previous), status) <==> previous.status != Some(Approved) && status == Some(Approved)
    ensures previous.status == Some(Approved) ==> !NewlyApproved(Some(previous), status)
    ensures status != Some(Approved) ==> !NewlyApproved(Some(previous), status)
  {
  }

  // ---------------------------------------------------------------------------
  // afterChange

  /** The arguments of one `sendApprovalEmail` call. */
  datatype ApprovalEmail = ApprovalEmail(
    email: string,
    firstName: string,
    lastName: string,
    tenantSlug: string,
    tenantName: string,
    generatedPassword: Option<string>,
    websiteId: Option<string>)

  /** The email for a user and the tenant found for it (if any); an empty or
      missing slug, name or website id falls back to its default. */
  function ApprovalEmailFor(doc: UserData, tenant: Option<Tenant>): (e: ApprovalEmail)
    ensures e.email == doc.email && e.firstName == doc.firstName && e.lastName == doc.lastName
    ensures e.generatedPassword == doc.generatedPassword
    ensures tenant.None? ==> e.tenantSlug == "unknown" && e.tenantName == "Unknown Organization" && e.websiteId.None?
    ensures tenant.Some? ==>
      && e.tenantSlug == OrElse(Some(tenant.value.slug), "unknown")
      && e.tenantName == OrElse(Some(tenant.value.name), "Unknown Organization")
      && (e.websiteId.Some? <==> tenant.value.umamiWebsiteId.Some? && tenant.value.umamiWebsiteId.value != "")
      && (e.websiteId.Some? ==> e.websiteId == tenant.value.umamiWebsiteId)
  {
    var slug := if tenant.Some? then Some(tenant.value.slug) else None;
    var name := if tenant.Some? then Some(tenant.value.name) else None;
    var website := if tenant.Some? then tenant.value.umamiWebsiteId else None;
    ApprovalEmail(doc.email, doc.firstName, doc.lastName,
                  OrElse(slug, "unknown"), OrElse(name, "Unknown Organization"), doc.generatedPassword,
                  if website.Some? && website.value != "" then website else None)
  }

  /** The email service, seen as the list of emails handed to it. */
  class Mailer {
    var sent: seq<ApprovalEmail>

    constructor ()
      ensures sent == []
    {
      sent := [];
    }

    method Send(e: ApprovalEmail)
      modifies this
      ensures sent == old(sent) + [e]
    {
      sent := sent + [e];
    }
  }

  /** The hook's trigger: a regular user's update that approves them. */
  predicate SendsApproval(op: Operation, previous: Option<UserData>, doc: UserData) {
    doc.role == RegularUser && op == Update && NewlyApproved(previous, doc.status)
  }

  /** The `afterChange` hook. A failed tenant update throws inside the hook's
      `try` and is swallowed, so no email goes out then. */
  method AfterChange(store: Store, mailer: Mailer, op: Operation, previous: Option<UserData>, doc: UserData)
    requires store.Valid()
    modifies store, mailer
    ensures store.Valid()
    ensures store.users == old(store.users)
    ensures !SendsApproval(op, previous, doc) ==> store.tenants == old(store.tenants) && mailer.sent == old(mailer.sent)
    ensures SendsApproval(op, previous, doc) && !Linked(doc.tenant) ==>
      store.tenants == old(store.tenants) && mailer.sent == old(mailer.sent) + [ApprovalEmailFor(doc, None)]
    ensures SendsApproval(op, previous, doc) && Linked(doc.tenant) && FindById(old(store.tenants), doc.tenant.value).None? ==>
      store.tenants == old(store.tenants) && mailer.sent == old(mailer.sent)
    ensures SendsApproval(op, previous, doc) && Linked(doc.tenant) && FindById(old(store.tenants), doc.tenant.value).Some? ==>
      var i := doc.tenant.value - 1;
      var activated := old(store.tenants)[i].(status := Active);
      && store.tenants == old(store.tenants)[i := activated]
      && mailer.sent == old(mailer.sent) + [ApprovalEmailFor(doc, Some(activated))]
  {
    if SendsApproval(op, previous, doc) {
      if Linked(doc.tenant) {
        var ok := store.SetTenantStatus(doc.tenant.value, Active);
        if !ok {
          return;
        }
      }
      var tenant: Option<Tenant> := None;
      if Linked(doc.tenant) {
        tenant := FindById(store.tenants, doc.tenant.value);
      }
      mailer.Send(ApprovalEmailFor(doc, tenant));
    }
  }

  // ---------------------------------------------------------------------------
  // Create and update requests

  /** A create request: access, the tenant field's validation, `beforeChange`,
      the unique-email insert, then `afterChange` (which does nothing on create). */
  method CreateUser(store: Store, mailer: Mailer, user: Option<Requester>, data: UserData, now: int)
    returns (created: Option<UserDoc>)
    requires store.Valid()
    modifies store, mailer
    ensures store.Valid()
    ensures mailer.sent == old(mailer.sent)
    ensures store.tenants == old(store.tenants)
    ensures (!CanCreate(user) || ValidateTenant(data.role, data.tenant).Some?) ==> created.None? && store.users == old(store.users)
    ensures created.None? ==> store.users == old(store.users)
    ensures created.Some? ==>
      && CanCreate(user) && ValidateTenant(data.role, data.tenant).None?
      && created.value == UserDoc(|old(store.users)| + 1, OnCreate(user, data))
      && store.users == old(store.users) + [created.value]
    ensures CanCreate(user) && ValidateTenant(data.role, data.tenant).None? ==>
      (created.Some? <==> UsersWithEmail(old(store.users), data.email) == [])
  {
    if !CanCreate(user) || ValidateTenant(data.role, data.tenant).Some? {
      return None;
    }
    var draft := new UserDraft(data);
    var ok := draft.BeforeChange(Create, user, None, store.tenants, now);
    created := store.InsertUser(draft.data);
    if created.Some? {
      AfterChange(store, mailer, Create, None, created.value.data);
    }
  }

  /** An update request replacing user `id`'s fields with `data` (the admin
      form submits the whole document). It succeeds exactly when an admin
      makes it, the user exists, the tenant field validates, an approval finds
      its tenant and no other user has the email. An approving save of a
      regular user, who always has a tenant once the field validates, also
      activates that tenant and sends one email. */
  method UpdateUser(store: Store, mailer: Mailer, user: Option<Requester>, id: nat, data: UserData, now: int)
    returns (updated: Option<UserDoc>)
    requires store.Valid()
    modifies store, mailer
    ensures store.Valid()
    ensures updated.Some? <==>
      && CanUpdate(user) && FindById(old(store.users), id).Some?
      && ValidateTenant(data.role, data.tenant).None?
      && (SendsApproval(Update, Some(old(store.users)[id - 1].data), data) ==>
            TenantPasswordFor(old(store.tenants), data.tenant).Some?)
      && EmailFreeFor(old(store.users), id, data.email)
    ensures updated.None? ==> store.users == old(store.users) && store.tenants == old(store.tenants) && mailer.sent == old(mailer.sent)
    ensures updated.Some? ==>
      && updated.value.id == id
      && store.users == old(store.users)[id - 1 := updated.value]
    ensures updated.Some? && !SendsApproval(Update, Some(old(store.users)[id - 1].data), data) ==>
      updated.value.data == data && mailer.sent == old(mailer.sent) && store.tenants == old(store.tenants)
    ensures updated.Some? && SendsApproval(Update, Some(old(store.users)[id - 1].data), data) ==>
      updated.value.data == OnApproval(user, data, TenantPasswordFor(old(store.tenants), data.tenant).value, now)
    ensures updated.Some? && SendsApproval(Update, Some(old(store.users)[id - 1].data), data) ==>
      && Linked(data.tenant)
      && var i := data.tenant.value - 1;
         var activated := old(store.tenants)[i].(status := Active);
         && store.tenants == old(store.tenants)[i := activated]
         && mailer.sent == old(mailer.sent) + [ApprovalEmailFor(updated.value.data, Some(activated))]
  {
    if !CanUpdate(user) {
      return None;
    }
    var original := FindById(store.users, id);
    if original.None? || ValidateTenant(data.role, data.tenant).Some? {
      return None;
    }
    var draft := new UserDraft(data);
    var ok := draft.BeforeChange(Update, user, Some(original.value.data), store.tenants, now);
    if !ok {
      return None;
    }
    updated := store.ReplaceUser(id, draft.data);
    if updated.Some? {
      AfterChange(store, mailer, Update, Some(original.value.data), updated.value.data);
    }
  }
}
