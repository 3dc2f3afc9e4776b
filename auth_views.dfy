/**
 * The account endpoints: the client-address rule used for audit records,
 * the per-role permission flags reported to the client, and the
 * guard-then-effect handlers for registration, login, password change,
 * profile and organization updates, the user and invitation lists,
 * invitation creation and the invitation lookup.
 */
module AuthViews {
  import opened Wrappers
  import opened AuthModels
  import opened AuthSerializers
  import opened Text

  // ---------------------------------------------------------------------
  // Client address
  // ---------------------------------------------------------------------

  /** `s.split(',')[0]`: the text before the first comma, or all of `s`. */
  function FirstField(s: string): (r: string)
    ensures r <= s && ',' !in r
    ensures |r| < |s| ==> s[|r|] == ','
  {
    if s == [] || s[0] == ',' then []
    else [s[0]] + FirstField(s[1..])
  }

  /** The three properties above pin the first field down. */
  lemma {:induction false} FirstFieldUnique(s: string, p: string)
    requires p <= s && ',' !in p
    requires |p| < |s| ==> s[|p|] == ','
    ensures FirstField(s) == p
  {
    if p != [] {
      assert p[0] == s[0];
      assert p[1..] <= s[1..];
      assert forall k :: 0 <= k < |p[1..]| ==> p[1..][k] == p[k + 1];
      FirstFieldUnique(s[1..], p[1..]);
    }
  }

  /**
   * `get_client_ip`: the first entry of a non-empty `X-Forwarded-For`
   * header, else `REMOTE_ADDR`.
   */
  function ClientIp(forwardedFor: Option<string>, remoteAddr: Option<string>): (ip: Option<string>)
    ensures forwardedFor.Some? && forwardedFor.value != "" ==>
      ip.Some? && ip.value <= forwardedFor.value && ',' !in ip.value
      && (|ip.value| < |forwardedFor.value| ==> forwardedFor.value[|ip.value|] == ',')
    ensures forwardedFor.None? || forwardedFor.value == "" ==> ip == remoteAddr
  {
    if forwardedFor.Some? && forwardedFor.value != "" then Some(FirstField(forwardedFor.value))
    else remoteAddr
  }

  // ---------------------------------------------------------------------
  // Permission flags reported to the client
  // ---------------------------------------------------------------------

  const PermissionFlags: seq<string> :=
    ["manage_users", "manage_settings", "view_reports", "manage_data", "view_data", "export_data"]

  function Flags(manageUsers: bool, manageSettings: bool, viewReports: bool,
                 manageData: bool, viewData: bool, exportData: bool): (m: map<string, bool>)
    ensures m.Keys == set k | k in PermissionFlags
  {
    map["manage_users" := manageUsers, "manage_settings" := manageSettings,
        "view_reports" := viewReports, "manage_data" := manageData,
        "view_data" := viewData, "export_data" := exportData]
  }

  /** The `permissions_map` lookup of `user_permissions_view`. */
  function PermissionsMap(role: string): (m: map<string, bool>)
    ensures role in Roles ==> m.Keys == set k | k in PermissionFlags
    ensures role !in Roles ==> m == map[]
  {
    if role == "owner" then Flags(true, true, true, true, true, true)
    else if role == "admin" then Flags(true, true, true, true, true, true)
    else if role == "manager" then Flags(false, false, true, true, true, true)
    else if role == "employee" then Flags(false, false, false, true, true, false)
    else if role == "viewer" then Flags(false, false, false, false, true, false)
    else map[]
  }

  /** Owner and administrator see every flag set. */
  lemma OwnerAdminAllFlags(role: string, k: string)
    requires role == "owner" || role == "admin"
    requires k in PermissionsMap(role)
    ensures PermissionsMap(role)[k]
  {
  }

  /** The viewer's only flag is `view_data`. */
  lemma ViewerFlags(k: string)
    requires k in PermissionsMap("viewer")
    ensures PermissionsMap("viewer")[k] <==> k == "view_data"
  {
  }

  /** A manager lacks exactly `manage_users` and `manage_settings`. */
  lemma ManagerFlags(k: string)
    requires k in PermissionsMap("manager")
    ensures !PermissionsMap("manager")[k] <==> k == "manage_users" || k == "manage_settings"
  {
  }

  /** An employee has exactly `manage_data` and `view_data`. */
  lemma EmployeeFlags(k: string)
    requires k in PermissionsMap("employee")
    ensures PermissionsMap("employee")[k] <==> k == "manage_data" || k == "view_data"
  {
  }

  /**
   * The reported flags never deny what `has_organization_permission`
   * grants: for each known role and each reported flag, a granted
   * permission is reported as set.
   */
  lemma FlagsCoverRoleCheck(u: User, k: string)
    requires u.role in Roles && k in PermissionFlags
    requires HasOrganizationPermission(u, k)
    ensures PermissionsMap(u.role)[k]
  {
  }

  /**
   * The converse fails: the flags report `view_data` for an
   * administrator, whom `has_organization_permission` refuses it.
   */
  lemma FlagsExceedRoleCheck(u: User)
    requires u.role == "admin"
    ensures PermissionsMap(u.role)["view_data"] && !HasOrganizationPermission(u, "view_data")
  {
  }

  // ---------------------------------------------------------------------
  // Stored accounts and audit records
  // ---------------------------------------------------------------------

  /** The request headers the handlers read. */
  datatype RequestMeta = RequestMeta(forwardedFor: Option<string>, remoteAddr: Option<string>, userAgent: string)

  datatype AuditEntry = AuditEntry(
    user: Option<Id>,
    organization: Id,
    action: string,
    resourceType: string,
    resourceId: string,
    description: string,
    ipAddress: Option<string>,
    userAgent: string)

  /** An audit record written on behalf of `user` from the request `meta`. */
  function AuditBy(user: Id, org: Id, action: string, resourceType: string, resourceId: string,
                   description: string, meta: RequestMeta): (e: AuditEntry)
    ensures e.user == Some(user) && e.organization == org
    ensures e.ipAddress == ClientIp(meta.forwardedFor, meta.remoteAddr)
  {
    AuditEntry(Some(user), org, action, resourceType, resourceId, description,
               ClientIp(meta.forwardedFor, meta.remoteAddr), meta.userAgent)
  }

  datatype Accounts = Accounts(
    users: map<Id, User>,
    organizations: map<Id, Organization>,
    invitations: seq<Invitation>,
    auditLog: seq<AuditEntry>)

  /**
   * Every organization a user or an invitation points at is stored,
   * invitation tokens are unique, and so are organization slugs.
   */
  predicate AccountsValid(a: Accounts)
  {
    (forall id :: id in a.users && a.users[id].organization.Some? ==> a.users[id].organization.value in a.organizations)
    && (forall i :: 0 <= i < |a.invitations| ==> a.invitations[i].organization in a.organizations)
    && TokensUnique(a.invitations)
    && SlugsUnique(a.organizations)
  }

  /** The number of users of organization `org` (`org.users.count()`). */
  function MemberCount(a: Accounts, org: Id): nat
  {
    |set id | id in a.users && a.users[id].organization == Some(org)|
  }

  // ---------------------------------------------------------------------
  // Organization update
  // ---------------------------------------------------------------------

  /** `UpdateRejected` is the serializer's 400 response. */
  datatype UpdateOutcome = OrganizationUpdated | UpdateForbidden | UpdateRejected(error: OrganizationError)

  /**
   * `OrganizationView.update` with the organization `sent`: refused
   * without `manage_settings`; then refused when the serializer does not
   * validate it; otherwise the requester's organization becomes the one
   * the serializer saves and an audit record follows, naming it by its
   * new name.
   */
  function UpdateOrganizationEffect(a: Accounts, requester: Id, sent: Organization, meta: RequestMeta): (r: (Accounts, UpdateOutcome))
    requires requester in a.users && a.users[requester].organization.Some?
  {
    var u := a.users[requester];
    if !HasOrganizationPermission(u, "manage_settings") then (a, UpdateForbidden)
    else
      var org := u.organization.value;
      match ValidateOrganization(sent, a.organizations, org)
      case Err(e) => (a, UpdateRejected(e))
      case Ok(updated) =>
        (a.(organizations := a.organizations[org := updated],
            auditLog := a.auditLog + [AuditBy(requester, org, "update", "organization", org,
                                              "Organization " + updated.name + " updated", meta)]),
         OrganizationUpdated)
  }

  /** An organization update keeps the accounts consistent. */
  lemma UpdateOrganizationKeepsValid(a: Accounts, requester: Id, sent: Organization, meta: RequestMeta)
    requires AccountsValid(a)
    requires requester in a.users && a.users[requester].organization.Some?
    ensures AccountsValid(UpdateOrganizationEffect(a, requester, sent, meta).0)
  {
    var org := a.users[requester].organization.value;
    if HasOrganizationPermission(a.users[requester], "manage_settings") && ValidateOrganization(sent, a.organizations, org).Ok? {
      ValidatedOrganizationSaves(sent, a.organizations, org);
    }
  }

  /**
   * Only owners and administrators update their organization, and only
   * with an organization the serializer accepts; a refusal changes
   * nothing, and an update replaces that one organization by the trimmed
   * one sent, keeps slugs unique and appends one audit record.
   */
  lemma UpdateOrganizationGuard(a: Accounts, requester: Id, sent: Organization, meta: RequestMeta)
    requires AccountsValid(a)
    requires requester in a.users && a.users[requester].organization.Some?
    ensures var (b, out) := UpdateOrganizationEffect(a, requester, sent, meta);
      var org := a.users[requester].organization.value;
      var manager := a.users[requester].role == "owner" || a.users[requester].role == "admin";
      (out == UpdateForbidden <==> !manager)
      && (out.UpdateRejected? <==> manager && !OrganizationAcceptable(TrimmedOrganization(sent), a.organizations, org))
      && (out == OrganizationUpdated <==> manager && OrganizationAcceptable(TrimmedOrganization(sent), a.organizations, org))
      && (out != OrganizationUpdated ==> b == a)
      && (out == OrganizationUpdated ==>
            b.users == a.users && b.invitations == a.invitations
            && b.organizations == a.organizations[org := TrimmedOrganization(sent)]
            && !SlugHeldByOther(a.organizations, org, b.organizations[org].slug)
            && |b.auditLog| == |a.auditLog| + 1 && b.auditLog[..|a.auditLog|] == a.auditLog
            && b.auditLog[|a.auditLog|].organization == org)
      && AccountsValid(b)
  {
    var u := a.users[requester];
    var org := u.organization.value;
    ManageSettingsHolders(u);
    UpdateOrganizationKeepsValid(a, requester, sent, meta);
    if HasOrganizationPermission(u, "manage_settings") && ValidateOrganization(sent, a.organizations, org).Ok? {
      ValidatedOrganizationSaves(sent, a.organizations, org);
      var (b, out) := UpdateOrganizationEffect(a, requester, sent, meta);
      assert b.organizations == a.organizations[org := TrimmedOrganization(sent)];
      assert (a.auditLog + [b.auditLog[|a.auditLog|]])[..|a.auditLog|] == a.auditLog;
    }
  }

  // ---------------------------------------------------------------------
  // User and invitation lists
  // ---------------------------------------------------------------------

  /** `UserListView.get_queryset`. */
  function UserList(a: Accounts, requester: Id): (ids: set<Id>)
    requires requester in a.users
  {
    if !HasOrganizationPermission(a.users[requester], "view_users") then {}
    else set id | id in a.users && a.users[id].organization == a.users[requester].organization
  }

  /**
   * The user list is empty except for owners and managers, who see
   * exactly the users sharing their organization, themselves included.
   */
  lemma UserListScope(a: Accounts, requester: Id, id: Id)
    requires requester in a.users
    ensures UserList(a, requester) != {} ==> a.users[requester].role in {"owner", "manager"}
    ensures a.users[requester].role in {"owner", "manager"} ==>
      requester in UserList(a, requester)
      && (id in UserList(a, requester) <==> id in a.users && a.users[id].organization == a.users[requester].organization)
  {
    ViewUsersHolders(a.users[requester]);
  }

  /**
   * The invitations addressed from organization `org`
   * (`filter(organization=…)`), in store order; the newest-first ordering
   * of the invitation table is not modelled.
   */
  function InvitationsOf(invs: seq<Invitation>, org: Option<Id>): (r: seq<Invitation>)
    ensures |r| <= |invs|
    ensures forall x :: x in r <==> x in invs && org == Some(x.organization)
  {
    if invs == [] then []
    else
      var init := InvitationsOf(invs[..|invs| - 1], org);
      var last := invs[|invs| - 1];
      assert invs == invs[..|invs| - 1] + [last];
      if org == Some(last.organization) then init + [last] else init
  }

  /** `InvitationListCreateView.get_queryset`. */
  function InvitationList(a: Accounts, requester: Id): (r: seq<Invitation>)
    requires requester in a.users
  {
    if !HasOrganizationPermission(a.users[requester], "manage_users") then []
    else InvitationsOf(a.invitations, a.users[requester].organization)
  }

  /**
   * Only owners and administrators see invitations, and then exactly
   * those of their own organization.
   */
  lemma InvitationListScope(a: Accounts, requester: Id, x: Invitation)
    requires requester in a.users
    ensures InvitationList(a, requester) != [] ==> a.users[requester].role in {"owner", "admin"}
    ensures a.users[requester].role in {"owner", "admin"} ==>
      (x in InvitationList(a, requester) <==> x in a.invitations && a.users[requester].organization == Some(x.organization))
  {
  }

  // ---------------------------------------------------------------------
  // Invitation creation
  // ---------------------------------------------------------------------

  /**
   * The refusals of `perform_create`.  None of them is the response the
   * handler means to give: `InviteForbidden` raises
   * `permissions.PermissionDenied`, a name the `permissions` module does not
   * have, and `UserLimitReached` raises through `serializers`, a module the
   * views do not import, so both end as server errors;
   * `InviterWithoutOrganization` and `InvitationConflict` (the database's
   * uniqueness of organization and email, or of the token) are server
   * errors too.  `InvitationInvalid` is the 400 of a body the serializer
   * refuses, which `create` reports before `perform_create` runs.  None of
   * them stores anything.
   */
  datatype InviteOutcome =
    | Invited
    | InvitationInvalid(error: InvitationError)
    | InviteForbidden
    | InviterWithoutOrganization
    | UserLimitReached
    | InvitationConflict

  predicate Conflicts(invs: seq<Invitation>, org: Id, email: string, token: string)
  {
    exists i :: 0 <= i < |invs| && ((invs[i].organization == org && invs[i].email == email) || invs[i].token == token)
  }

  /**
   * `InvitationListCreateView.create`: the serializer validates the body
   * `sent`, then `perform_create` runs on the validated email and role.
   */
  function CreateInvitationEffect(a: Accounts, requester: Id, invitationId: Id, sent: InvitationRequest,
                                  token: string, meta: RequestMeta, now: int): (r: (Accounts, InviteOutcome))
    requires AccountsValid(a) && requester in a.users
  {
    match ValidateInvitation(sent)
    case Err(e) => (a, InvitationInvalid(e))
    case Ok((email, role)) => PerformCreateInvitation(a, requester, invitationId, email, role, token, meta, now)
  }

  /** `perform_create` with the serializer's `create`, on the validated email and role. */
  function PerformCreateInvitation(a: Accounts, requester: Id, invitationId: Id, email: string, role: string,
                                   token: string, meta: RequestMeta, now: int): (r: (Accounts, InviteOutcome))
    requires AccountsValid(a) && requester in a.users
  {
    var u := a.users[requester];
    if !HasOrganizationPermission(u, "manage_users") then (a, InviteForbidden)
    else if u.organization.None? then (a, InviterWithoutOrganization)
    else
      var org := u.organization.value;
      if MemberCount(a, org) >= a.organizations[org].maxUsers then (a, UserLimitReached)
      else if Conflicts(a.invitations, org, email, token) then (a, InvitationConflict)
      else
        (a.(invitations := a.invitations + [NewInvitation(requester, org, email, role, token, now)],
            auditLog := a.auditLog + [AuditBy(requester, org, "create", "invitation", invitationId,
                                              "Invitation sent to " + email, meta)]),
         Invited)
  }

  /**
   * Past the serializer, an invitation is created exactly when the
   * requester may manage users, belongs to an organization below its user
   * limit, and nothing conflicts; it is then pending in the requester's
   * organization for seven days, with the role given.  Every refusal
   * leaves the accounts as they were.
   */
  lemma PerformCreateInvitationGuard(a: Accounts, requester: Id, invitationId: Id, email: string, role: string,
                                     token: string, meta: RequestMeta, now: int)
    requires AccountsValid(a) && requester in a.users
    ensures var (b, out) := PerformCreateInvitation(a, requester, invitationId, email, role, token, meta, now);
      var u := a.users[requester];
      (out == Invited <==>
         HasOrganizationPermission(u, "manage_users") && u.organization.Some?
         && MemberCount(a, u.organization.value) < a.organizations[u.organization.value].maxUsers
         && !Conflicts(a.invitations, u.organization.value, email, token))
      && !out.InvitationInvalid?
      && (out != Invited ==> b == a)
      && (out == Invited ==>
            b.users == a.users && b.organizations == a.organizations
            && |b.invitations| == |a.invitations| + 1 && b.invitations[..|a.invitations|] == a.invitations
            && b.invitations[|a.invitations|].organization == u.organization.value
            && b.invitations[|a.invitations|].status == "pending"
            && b.invitations[|a.invitations|].email == email
            && b.invitations[|a.invitations|].role == role
            && b.invitations[|a.invitations|].expiresAt == now + 604800
            && !IsExpired(b.invitations[|a.invitations|], now)
            && |b.auditLog| == |a.auditLog| + 1)
      && AccountsValid(b)
  {
    var (b, out) := PerformCreateInvitation(a, requester, invitationId, email, role, token, meta, now);
    if out == Invited {
      var org := a.users[requester].organization.value;
      var inv := NewInvitation(requester, org, email, role, token, now);
      assert b.invitations == a.invitations + [inv];
      assert b.invitations[..|a.invitations|] == a.invitations;
      assert forall i :: 0 <= i < |a.invitations| ==> a.invitations[i].token != token;
    }
  }

  /**
   * A body the serializer refuses is answered with its error before any
   * permission check, and changes nothing; otherwise the invitation is
   * created exactly as `perform_create` allows, holding the trimmed email
   * and a role among the choices.
   */
  lemma CreateInvitationGuard(a: Accounts, requester: Id, invitationId: Id, sent: InvitationRequest,
                              token: string, meta: RequestMeta, now: int)
    requires AccountsValid(a) && requester in a.users
    ensures var (b, out) := CreateInvitationEffect(a, requester, invitationId, sent, token, meta, now);
      var v := ValidateInvitation(sent);
      (out.InvitationInvalid? <==> v.Err?)
      && (out.InvitationInvalid? ==> out.error == v.error)
      && (out != Invited ==> b == a)
      && AccountsValid(b)
    ensures var (b, out) := CreateInvitationEffect(a, requester, invitationId, sent, token, meta, now);
      var v := ValidateInvitation(sent);
      var u := a.users[requester];
      (out == Invited <==>
         v.Ok? && HasOrganizationPermission(u, "manage_users") && u.organization.Some?
         && MemberCount(a, u.organization.value) < a.organizations[u.organization.value].maxUsers
         && !Conflicts(a.invitations, u.organization.value, v.value.0, token))
      && (out == Invited ==>
            b.users == a.users && b.organizations == a.organizations
            && b.invitations == a.invitations + [b.invitations[|a.invitations|]]
            && b.invitations[|a.invitations|].organization == u.organization.value
            && b.invitations[|a.invitations|].status == "pending"
            && b.invitations[|a.invitations|].email == Strip(sent.email.value)
            && b.invitations[|a.invitations|].role in Roles
            && b.invitations[|a.invitations|].role == (if sent.role.Some? then sent.role.value else "employee")
            && !IsExpired(b.invitations[|a.invitations|], now)
            && |b.auditLog| == |a.auditLog| + 1)
  {
    match ValidateInvitation(sent)
    case Err(_) =>
    case Ok((email, role)) =>
      PerformCreateInvitationGuard(a, requester, invitationId, email, role, token, meta, now);
      var b := PerformCreateInvitation(a, requester, invitationId, email, role, token, meta, now).0;
      if b != a {
        assert b.invitations == b.invitations[..|a.invitations|] + [b.invitations[|a.invitations|]];
      }
  }

  // ---------------------------------------------------------------------
  // Invitation lookup
  // ---------------------------------------------------------------------

  /** The position of the pending invitation with this token, if any. */
  function FindPendingToken(invs: seq<Invitation>, token: string): (r: Option<nat>)
    ensures r.Some? ==> r.value < |invs| && invs[r.value].token == token && invs[r.value].status == "pending"
    ensures r.None? <==> forall i :: 0 <= i < |invs| ==> !(invs[i].token == token && invs[i].status == "pending")
  {
    if invs == [] then None
    else if invs[0].token == token && invs[0].status == "pending" then Some(0)
    else
      match FindPendingToken(invs[1..], token)
      case None => None
      case Some(j) => Some(j + 1)
  }

  datatype InvitationLookup = InvalidInvitation | ExpiredInvitation | InvitationDetails(invitation: Invitation, organization: Organization)

  /** `accept_invitation_view`: 404 for an unknown or used token, 400 once expired. */
  function AcceptInvitationView(a: Accounts, token: string, now: int): (r: InvitationLookup)
    requires AccountsValid(a)
    ensures r == InvalidInvitation <==>
      forall i :: 0 <= i < |a.invitations| ==> !(a.invitations[i].token == token && a.invitations[i].status == "pending")
    ensures r.InvitationDetails? ==>
      r.invitation in a.invitations && r.invitation.token == token && r.invitation.status == "pending"
      && !IsExpired(r.invitation, now) && r.organization == a.organizations[r.invitation.organization]
  {
    match FindPendingToken(a.invitations, token)
    case None => InvalidInvitation
    case Some(i) =>
      var inv := a.invitations[i];
      if IsExpired(inv, now) then ExpiredInvitation
      else InvitationDetails(inv, a.organizations[inv.organization])
  }

  /** With unique tokens, the lookup reports expiry exactly for the invitation the token names. */
  lemma AcceptInvitationExpired(a: Accounts, token: string, now: int, i: nat)
    requires AccountsValid(a)
    requires i < |a.invitations| && a.invitations[i].token == token && a.invitations[i].status == "pending"
    ensures AcceptInvitationView(a, token, now) == ExpiredInvitation <==> IsExpired(a.invitations[i], now)
  {
    var j := FindPendingToken(a.invitations, token).value;
    assert a.invitations[j].token == a.invitations[i].token;
  }

  // ---------------------------------------------------------------------
  // Registration
  // ---------------------------------------------------------------------

  datatype RegisterOutcome = RegistrationRejected(error: RegistrationError) | UserRegistered | RegistrationCrashed

  /** The accounts after the serializer's `create` stored `r` as user `userId`. */
  function StoreRegistered(a: Accounts, userId: Id, orgId: Id, r: Registered): (b: Accounts)
  {
    Accounts(
      a.users[userId := r.user],
      if r.founded.Some? then a.organizations[orgId := r.founded.value] else a.organizations,
      r.invitations,
      a.auditLog)
  }

  function RegisteredAudit(userId: Id, org: Id, email: string, meta: RequestMeta): AuditEntry
  {
    AuditBy(userId, org, "create", "user", userId, "User " + email + " registered", meta)
  }

  /**
   * The founded organization's slug (`slugify` of its name, given as
   * `slug`) is already stored: the unique `slug` column refuses the insert
   * with `IntegrityError`.
   */
  predicate FoundsTakenSlug(a: Accounts, reg: Registered, slug: string)
  {
    reg.founded.Some? && SlugTaken(a.organizations, slug)
  }

  /**
   * `RegisterView.create` as written, on the trimmed payload `d`.  The
   * serializer's `create` fails with `TypeError` whenever an invitation
   * token was given (`CreateRegisteredAsWritten`), and the organization it
   * founds fails to insert when its slug is taken (`FoundsTakenSlug`);
   * the audit record is always written with the new user's organization,
   * a column that may not be empty, so an account created outside any
   * organization makes the insert fail.  Each failure happens inside the
   * transaction, which undoes the registration.
   */
  function RegisterAsWritten(a: Accounts, d: Registration, userId: Id, orgId: Id, slug: string,
                             meta: RequestMeta, now: int): (r: (Accounts, RegisterOutcome))
  {
    match ValidateRegistration(d, a.users, a.invitations, now)
    case Err(e) => (a, RegistrationRejected(e))
    case Ok(invite) =>
      match CreateRegisteredAsWritten(d, invite, a.invitations, orgId, slug, now)
      case None => (a, RegistrationCrashed)
      case Some(reg) =>
        if FoundsTakenSlug(a, reg, slug) || reg.user.organization.None? then (a, RegistrationCrashed)
        else
          var b := StoreRegistered(a, userId, orgId, reg);
          (b.(auditLog := a.auditLog + [RegisteredAudit(userId, reg.user.organization.value, reg.user.email, meta)]),
           UserRegistered)
  }

  /**
   * Registration as evidently intended: the serializer's `create` accepts
   * the invitation (`CreateRegistered`), and, like the login, logout and
   * password-change handlers, the audit record is written only for an
   * account that belongs to an organization.  An organization whose slug
   * is taken still fails to insert, which undoes the registration.
   */
  function Register(a: Accounts, d: Registration, userId: Id, orgId: Id, slug: string,
                    meta: RequestMeta, now: int): (r: (Accounts, RegisterOutcome))
  {
    match ValidateRegistration(d, a.users, a.invitations, now)
    case Err(e) => (a, RegistrationRejected(e))
    case Ok(invite) =>
      var reg := CreateRegistered(d, invite, a.invitations, orgId, slug, now);
      var b := StoreRegistered(a, userId, orgId, reg);
      if FoundsTakenSlug(a, reg, slug) then (a, RegistrationCrashed)
      else if reg.user.organization.None? then (b, UserRegistered)
      else
        (b.(auditLog := a.auditLog + [RegisteredAudit(userId, reg.user.organization.value, reg.user.email, meta)]),
         UserRegistered)
  }

  /**
   * A registration with matching passwords, no invitation and no
   * organization name fails as written and leaves nothing behind, while
   * the intended handler stores the account outside any organization.
   */
  lemma RegistrationWithoutOrganizationCrashes(a: Accounts, d: Registration, userId: Id, orgId: Id,
                                               slug: string, meta: RequestMeta, now: int)
    requires ValidateRegistration(d, a.users, a.invitations, now).Ok?
    requires d.invitationToken.None? && d.organizationName.None?
    ensures RegisterAsWritten(a, d, userId, orgId, slug, meta, now) == (a, RegistrationCrashed)
    ensures var (b, out) := Register(a, d, userId, orgId, slug, meta, now);
      out == UserRegistered && userId in b.users && b.users[userId].organization.None?
      && b.users[userId].email == d.email && b.auditLog == a.auditLog
  {
  }

  /**
   * A validated registration with an invitation token fails as written and
   * leaves nothing behind, while the intended handler stores the account in
   * the invitation's organization with the invitation's role, marks the
   * invitation accepted and writes the audit record.
   */
  lemma InvitedRegistrationCrashes(a: Accounts, d: Registration, userId: Id, orgId: Id,
                                   slug: string, meta: RequestMeta, now: int)
    requires ValidateRegistration(d, a.users, a.invitations, now).Ok?
    requires d.invitationToken.Some?
    ensures RegisterAsWritten(a, d, userId, orgId, slug, meta, now) == (a, RegistrationCrashed)
    ensures var i := ValidateRegistration(d, a.users, a.invitations, now).value;
      var (b, out) := Register(a, d, userId, orgId, slug, meta, now);
      && i.Some? && out == UserRegistered && userId in b.users
      && b.users[userId].organization == Some(a.invitations[i.value].organization)
      && b.users[userId].role == a.invitations[i.value].role
      && b.invitations[i.value].status == "accepted"
      && |b.auditLog| == |a.auditLog| + 1
  {
    RegistrationPlacesUser(d, a.users, a.invitations, orgId, slug, now);
  }

  /**
   * Wherever the written handler does not fail, the intended one does the
   * same; and the written handler registers only sign-ups that found an
   * organization.
   */
  lemma RegisterAgreesWithWritten(a: Accounts, d: Registration, userId: Id, orgId: Id, slug: string,
                                  meta: RequestMeta, now: int)
    requires RegisterAsWritten(a, d, userId, orgId, slug, meta, now).1 != RegistrationCrashed
    ensures Register(a, d, userId, orgId, slug, meta, now) == RegisterAsWritten(a, d, userId, orgId, slug, meta, now)
    ensures RegisterAsWritten(a, d, userId, orgId, slug, meta, now).1 == UserRegistered ==>
      d.invitationToken.None? && d.organizationName.Some?
  {
    if ValidateRegistration(d, a.users, a.invitations, now).Ok? {
      RegistrationPlacesUser(d, a.users, a.invitations, orgId, slug, now);
    }
  }

  /**
   * A validated sign-up that founds an organization under a slug already
   * stored fails, as written and as intended, and leaves nothing behind.
   */
  lemma TakenSlugRegistrationCrashes(a: Accounts, d: Registration, userId: Id, orgId: Id, slug: string,
                                     meta: RequestMeta, now: int)
    requires ValidateRegistration(d, a.users, a.invitations, now).Ok?
    requires d.invitationToken.None? && d.organizationName.Some?
    requires SlugTaken(a.organizations, slug)
    ensures RegisterAsWritten(a, d, userId, orgId, slug, meta, now) == (a, RegistrationCrashed)
    ensures Register(a, d, userId, orgId, slug, meta, now) == (a, RegistrationCrashed)
  {
    RegistrationPlacesUser(d, a.users, a.invitations, orgId, slug, now);
  }

  /** A registration keeps every reference to an organization resolvable, tokens unique and slugs unique. */
  lemma RegisterKeepsValid(a: Accounts, d: Registration, userId: Id, orgId: Id, slug: string,
                           meta: RequestMeta, now: int)
    requires AccountsValid(a)
    requires orgId !in a.organizations
    ensures AccountsValid(Register(a, d, userId, orgId, slug, meta, now).0)
  {
    var v := ValidateRegistration(d, a.users, a.invitations, now);
    if v.Ok? {
      var reg := CreateRegistered(d, v.value, a.invitations, orgId, slug, now);
      CreateRegisteredReferences(d, v.value, a.invitations, orgId, slug, now);
      if !FoundsTakenSlug(a, reg, slug) {
        StoreRegisteredValid(a, userId, orgId, reg);
      }
    }
  }

  /** Storing a new account adds exactly it and keeps every other account, organization and audit record. */
  lemma StoreRegisteredKeeps(a: Accounts, userId: Id, orgId: Id, r: Registered)
    requires userId !in a.users && orgId !in a.organizations
    ensures var b := StoreRegistered(a, userId, orgId, r);
      && b.users.Keys == a.users.Keys + {userId} && b.users[userId] == r.user
      && (forall id :: id in a.users ==> b.users[id] == a.users[id])
      && (forall o :: o in a.organizations ==> o in b.organizations && b.organizations[o] == a.organizations[o])
      && b.auditLog == a.auditLog
  {
  }

  /** Storing an account whose references resolve keeps the accounts consistent. */
  lemma StoreRegisteredValid(a: Accounts, userId: Id, orgId: Id, r: Registered)
    requires AccountsValid(a)
    requires |r.invitations| == |a.invitations|
    requires forall j :: 0 <= j < |a.invitations| ==>
      r.invitations[j].organization == a.invitations[j].organization && r.invitations[j].token == a.invitations[j].token
    requires r.user.organization.Some? ==>
      r.user.organization.value in a.organizations || (r.founded.Some? && r.user.organization.value == orgId)
    requires r.founded.Some? ==> orgId !in a.organizations && !SlugTaken(a.organizations, r.founded.value.slug)
    ensures AccountsValid(StoreRegistered(a, userId, orgId, r))
  {
    if r.founded.Some? {
      StoreOrganizationSlugs(a.organizations, orgId, r.founded.value);
    }
  }

  /**
   * What `create` does to organization references: the invitations keep
   * their organizations and tokens, and the new account belongs to no
   * organization, to the invited one, or to the one it founds.
   */
  lemma CreateRegisteredReferences(d: Registration, invite: Option<nat>, invs: seq<Invitation>,
                                   orgId: Id, slug: string, now: int)
    requires invite.Some? ==> invite.value < |invs|
    ensures var r := CreateRegistered(d, invite, invs, orgId, slug, now);
      && (forall j :: 0 <= j < |invs| ==>
            r.invitations[j].organization == invs[j].organization && r.invitations[j].token == invs[j].token)
      && (r.user.organization.Some? ==>
            (invite.Some? && r.user.organization.value == invs[invite.value].organization)
            || (r.founded.Some? && r.user.organization.value == orgId))
      && (r.founded.Some? ==> r.founded.value.slug == slug)
  {
  }


  /**
   * A refused registration changes nothing, and neither does one that
   * founds an organization under a slug already taken.  An accepted one
   * stores the new account (and the organization it founds), whose
   * username and email no other account has, keeps every other account,
   * and appends an audit record exactly when the account has an
   * organization.
   */
  lemma RegisterEffect(a: Accounts, d: Registration, userId: Id, orgId: Id, slug: string,
                       meta: RequestMeta, now: int)
    requires userId !in a.users && orgId !in a.organizations
    ensures var (b, out) := Register(a, d, userId, orgId, slug, meta, now);
      (out.RegistrationRejected? <==> ValidateRegistration(d, a.users, a.invitations, now).Err?)
      && (out == RegistrationCrashed <==>
            ValidateRegistration(d, a.users, a.invitations, now).Ok?
            && d.invitationToken.None? && d.organizationName.Some? && SlugTaken(a.organizations, slug))
      && (out != UserRegistered ==> b == a)
      && (out == UserRegistered ==>
            b.users.Keys == a.users.Keys + {userId}
            && (forall id :: id in a.users ==> b.users[id] == a.users[id])
            && b.users[userId].email == d.email && CheckPassword(b.users[userId], d.password)
            && (forall id :: id in a.users ==>
                  a.users[id].email != d.email && a.users[id].username != d.username)
            && (forall o :: o in a.organizations ==> o in b.organizations && b.organizations[o] == a.organizations[o])
            && (b.users[userId].organization.Some? <==> |b.auditLog| == |a.auditLog| + 1)
            && b.auditLog[..|a.auditLog|] == a.auditLog)
  {
    var v := ValidateRegistration(d, a.users, a.invitations, now);
    if v.Ok? {
      var reg := CreateRegistered(d, v.value, a.invitations, orgId, slug, now);
      RegistrationPlacesUser(d, a.users, a.invitations, orgId, slug, now);
      StoreRegisteredKeeps(a, userId, orgId, reg);
      if FoundsTakenSlug(a, reg, slug) {
      } else if reg.user.organization.Some? {
        assert (a.auditLog + [RegisteredAudit(userId, reg.user.organization.value, reg.user.email, meta)])[..|a.auditLog|] == a.auditLog;
      } else {
        assert a.auditLog[..|a.auditLog|] == a.auditLog;
      }
    }
  }

  // ---------------------------------------------------------------------
  // Login and password change
  // ---------------------------------------------------------------------

  datatype LoginOutcome = LoginRefused(error: LoginError) | LoggedIn(user: Id)

  /**
   * `login_view`; `authenticated` is the account the credential backend
   * matched, if any.  A successful login stamps the time and client
   * address and, for a member of an organization, writes an audit record.
   */
  function LoginEffect(a: Accounts, email: string, password: string, authenticated: Option<Id>,
                       meta: RequestMeta, now: int): (r: (Accounts, LoginOutcome))
    requires authenticated.Some? ==> authenticated.value in a.users
  {
    var found := if authenticated.Some? then Some(a.users[authenticated.value]) else None;
    match ValidateLogin(email, password, found, a.organizations)
    case Err(e) => (a, LoginRefused(e))
    case Ok(u) =>
      var id := authenticated.value;
      var v := u.(lastLogin := Some(now), lastLoginIp := ClientIp(meta.forwardedFor, meta.remoteAddr));
      var log := if u.organization.Some? then
        a.auditLog + [AuditBy(id, u.organization.value, "login", "user", id, "User " + u.email + " logged in", meta)]
      else a.auditLog;
      (a.(users := a.users[id := v], auditLog := log), LoggedIn(id))
  }

  /**
   * A refused login changes nothing; a successful one changes only the
   * last-login stamps of the matched account, and logs it only for a
   * member of an organization.
   */
  lemma LoginEffectStamps(a: Accounts, email: string, password: string, authenticated: Option<Id>,
                          meta: RequestMeta, now: int)
    requires AccountsValid(a)
    requires authenticated.Some? ==> authenticated.value in a.users
    ensures var (b, out) := LoginEffect(a, email, password, authenticated, meta, now);
      (out.LoginRefused? ==> b == a)
      && (out.LoggedIn? ==>
            authenticated == Some(out.user) && b.organizations == a.organizations
            && b.invitations == a.invitations && b.users.Keys == a.users.Keys
            && (forall id :: id in a.users && id != out.user ==> b.users[id] == a.users[id])
            && b.users[out.user] == a.users[out.user].(lastLogin := Some(now),
                                                      lastLoginIp := ClientIp(meta.forwardedFor, meta.remoteAddr))
            && (|b.auditLog| == |a.auditLog| + 1 <==> a.users[out.user].organization.Some?)
            && (a.users[out.user].organization.None? ==> b.auditLog == a.auditLog))
      && AccountsValid(b)
  {
  }

  datatype PasswordOutcome = PasswordRefused(error: PasswordError) | PasswordChanged

  /** `PasswordChangeView.post` for the signed-in `requester`, with the three texts as sent. */
  function ChangePasswordEffect(a: Accounts, requester: Id, current: string, newPassword: string,
                                confirm: string, meta: RequestMeta): (r: (Accounts, PasswordOutcome))
    requires requester in a.users
  {
    var u := a.users[requester];
    match ValidatePasswordChange(u, current, newPassword, confirm)
    case Err(e) => (a, PasswordRefused(e))
    case Ok(p) =>
      var log := if u.organization.Some? then
        a.auditLog + [AuditBy(requester, u.organization.value, "update", "user", requester,
                              "User " + u.email + " changed password", meta)]
      else a.auditLog;
      (a.(users := a.users[requester := SetPassword(u, p)], auditLog := log), PasswordChanged)
  }

  /** A password change keeps the accounts consistent. */
  lemma ChangePasswordKeepsValid(a: Accounts, requester: Id, current: string, newPassword: string,
                                 confirm: string, meta: RequestMeta)
    requires AccountsValid(a) && requester in a.users
    ensures AccountsValid(ChangePasswordEffect(a, requester, current, newPassword, confirm, meta).0)
  {
    var b := ChangePasswordEffect(a, requester, current, newPassword, confirm, meta).0;
    assert forall id :: id in b.users ==> id in a.users && b.users[id].organization == a.users[id].organization;
  }

  /**
   * A password change either changes nothing, or changes only the
   * requester's credential, which then accepts the new password as
   * trimmed.
   */
  lemma ChangePasswordOutcome(a: Accounts, requester: Id, current: string, newPassword: string,
                              confirm: string, meta: RequestMeta)
    requires AccountsValid(a) && requester in a.users
    ensures var (b, out) := ChangePasswordEffect(a, requester, current, newPassword, confirm, meta);
      (out == PasswordChanged <==>
         Strip(current) != "" && CheckPassword(a.users[requester], Strip(current))
         && Strip(newPassword) != "" && Strip(newPassword) == Strip(confirm))
      && (out.PasswordRefused? ==> b == a)
      && (out == PasswordChanged ==>
            b.users == a.users[requester := a.users[requester].(password := Strip(newPassword))]
            && CheckPassword(b.users[requester], Strip(newPassword))
            && b.organizations == a.organizations && b.invitations == a.invitations)
      && AccountsValid(b)
  {
    PasswordChangeEffect(a.users[requester], current, newPassword, confirm);
    ChangePasswordKeepsValid(a, requester, current, newPassword, confirm, meta);
  }

  // ---------------------------------------------------------------------
  // The account store
  // ---------------------------------------------------------------------

  /** The stored users, organizations, invitations and audit records. */
  class AccountStore {
    var users: map<Id, User>
    var organizations: map<Id, Organization>
    var invitations: seq<Invitation>
    var auditLog: seq<AuditEntry>

    function State(): Accounts
      reads this
    {
      Accounts(users, organizations, invitations, auditLog)
    }

    ghost predicate Valid()
      reads this
    {
      AccountsValid(State())
    }

    constructor ()
      ensures Valid()
      ensures users == map[] && organizations == map[] && invitations == [] && auditLog == []
    {
      users := map[];
      organizations := map[];
      invitations := [];
      auditLog := [];
    }

    method UpdateOrganization(requester: Id, sent: Organization, meta: RequestMeta) returns (out: UpdateOutcome)
      requires Valid() && requester in users && users[requester].organization.Some?
      modifies this
      ensures Valid()
      ensures (State(), out) == UpdateOrganizationEffect(old(State()), requester, sent, meta)
    {
      UpdateOrganizationKeepsValid(State(), requester, sent, meta);
      var u := users[requester];
      if !HasOrganizationPermission(u, "manage_settings") {
        return UpdateForbidden;
      }
      var org := u.organization.value;
      var v := ValidateOrganization(sent, organizations, org);
      if v.Err? {
        return UpdateRejected(v.error);
      }
      var updated := v.value;
      organizations := organizations[org := updated];
      auditLog := auditLog + [AuditBy(requester, org, "update", "organization", org,
                                      "Organization " + updated.name + " updated", meta)];
      out := OrganizationUpdated;
    }

    method CreateInvitation(requester: Id, invitationId: Id, sent: InvitationRequest, token: string,
                            meta: RequestMeta, now: int) returns (out: InviteOutcome)
      requires Valid() && requester in users
      modifies this
      ensures Valid()
      ensures (State(), out) == CreateInvitationEffect(old(State()), requester, invitationId, sent, token, meta, now)
    {
      CreateInvitationGuard(State(), requester, invitationId, sent, token, meta, now);
      var v := ValidateInvitation(sent);
      if v.Err? {
        return InvitationInvalid(v.error);
      }
      var (email, role) := v.value;
      var u := users[requester];
      if !HasOrganizationPermission(u, "manage_users") {
        return InviteForbidden;
      }
      if u.organization.None? {
        return InviterWithoutOrganization;
      }
      var org := u.organization.value;
      if MemberCount(State(), org) >= organizations[org].maxUsers {
        return UserLimitReached;
      }
      if Conflicts(invitations, org, email, token) {
        return InvitationConflict;
      }
      invitations := invitations + [NewInvitation(requester, org, email, role, token, now)];
      auditLog := auditLog + [AuditBy(requester, org, "create", "invitation", invitationId,
                                      "Invitation sent to " + email, meta)];
      out := Invited;
    }

    method RegisterUser(d: Registration, userId: Id, orgId: Id, slug: string, meta: RequestMeta, now: int)
      returns (out: RegisterOutcome)
      requires Valid() && userId !in users && orgId !in organizations
      modifies this
      ensures Valid()
      ensures (State(), out) == Register(old(State()), d, userId, orgId, slug, meta, now)
    {
      ghost var s0 := State();
      RegisterKeepsValid(s0, d, userId, orgId, slug, meta, now);
      var v := ValidateRegistration(d, users, invitations, now);
      if v.Err? {
        return RegistrationRejected(v.error);
      }
      var reg := CreateRegistered(d, v.value, invitations, orgId, slug, now);
      if FoundsTakenSlug(State(), reg, slug) {
        return RegistrationCrashed;
      }
      users := users[userId := reg.user];
      if reg.founded.Some? {
        organizations := organizations[orgId := reg.founded.value];
      }
      invitations := reg.invitations;
      assert State() == StoreRegistered(s0, userId, orgId, reg);
      if reg.user.organization.Some? {
        auditLog := auditLog + [RegisteredAudit(userId, reg.user.organization.value, reg.user.email, meta)];
      }
      out := UserRegistered;
    }

    method Login(email: string, password: string, authenticated: Option<Id>, meta: RequestMeta, now: int)
      returns (out: LoginOutcome)
      requires Valid() && (authenticated.Some? ==> authenticated.value in users)
      modifies this
      ensures Valid()
      ensures (State(), out) == LoginEffect(old(State()), email, password, authenticated, meta, now)
    {
      LoginEffectStamps(State(), email, password, authenticated, meta, now);
      var found := if authenticated.Some? then Some(users[authenticated.value]) else None;
      var v := ValidateLogin(email, password, found, organizations);
      if v.Err? {
        return LoginRefused(v.error);
      }
      var id := authenticated.value;
      var u := v.value;
      users := users[id := u.(lastLogin := Some(now), lastLoginIp := ClientIp(meta.forwardedFor, meta.remoteAddr))];
      if u.organization.Some? {
        auditLog := auditLog + [AuditBy(id, u.organization.value, "login", "user", id,
                                        "User " + u.email + " logged in", meta)];
      }
      out := LoggedIn(id);
    }

    method ChangePassword(requester: Id, current: string, newPassword: string, confirm: string, meta: RequestMeta)
      returns (out: PasswordOutcome)
      requires Valid() && requester in users
      modifies this
      ensures Valid()
      ensures (State(), out) == ChangePasswordEffect(old(State()), requester, current, newPassword, confirm, meta)
    {
      ChangePasswordKeepsValid(State(), requester, current, newPassword, confirm, meta);
      var u := users[requester];
      var v := ValidatePasswordChange(u, current, newPassword, confirm);
      if v.Err? {
        return PasswordRefused(v.error);
      }
      users := users[requester := SetPassword(u, v.value)];
      if u.organization.Some? {
        auditLog := auditLog + [AuditBy(requester, u.organization.value, "update", "user", requester,
                                        "User " + u.email + " changed password", meta)];
      }
      out := PasswordChanged;
    }

    /** `ProfileView` update of the signed-in `requester`. */
    method UpdateRequesterProfile(requester: Id, data: seq<(ProfileField, string)>)
      requires Valid() && requester in users
      modifies this
      ensures Valid()
      ensures users == old(users)[requester := ApplyProfile(old(users)[requester], data)]
      ensures organizations == old(organizations) && invitations == old(invitations) && auditLog == old(auditLog)
    {
      var u := users[requester];
      var v := UpdateProfile(u, data);
      ApplyProfileReads(u, data, FirstName);
      users := users[requester := v];
    }
  }
}
