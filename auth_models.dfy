/**
 * Tenancy and account records: organizations with their subscription
 * window, users holding a role inside one organization, the role to
 * permission table, and invitations that move a user into an
 * organization.  Timestamps are integer seconds.
 */
module AuthModels {
  import opened Wrappers
  import opened Text

  type Id = string

  // ---------------------------------------------------------------------
  // Organizations
  // ---------------------------------------------------------------------

  datatype Organization = Organization(
    name: string,
    slug: string,
    plan: string,
    status: string,
    subscriptionStart: int,
    subscriptionEnd: Option<int>,
    maxUsers: int)

  /** `Organization.is_active`. */
  predicate IsActive(o: Organization)
  {
    o.status == "active"
  }

  /** `Organization.is_subscription_valid`: no end date, or the clock has not passed it. */
  predicate SubscriptionValid(o: Organization, now: int)
  {
    o.subscriptionEnd.None? || now <= o.subscriptionEnd.value
  }

  /** A subscription valid now was valid at every earlier instant ... */
  lemma SubscriptionValidEarlier(o: Organization, now: int, earlier: int)
    requires SubscriptionValid(o, now) && earlier <= now
    ensures SubscriptionValid(o, earlier)
  {
  }

  /** ... and one without an end date is valid at every instant. */
  lemma OpenSubscriptionAlwaysValid(o: Organization, now: int)
    requires o.subscriptionEnd.None?
    ensures SubscriptionValid(o, now)
  {
  }

  /** An organization as created with only a name and slug: the model defaults. */
  function NewOrganization(name: string, slug: string, now: int): (o: Organization)
    ensures IsActive(o) && o.subscriptionEnd.None? && o.maxUsers == 5
    ensures o.name == name && o.slug == slug && o.plan == "free"
  {
    Organization(name, slug, "free", "active", now, None, 5)
  }

  /** The unique `slug` column: no two stored organizations share a slug. */
  predicate SlugsUnique(orgs: map<Id, Organization>)
  {
    forall o1, o2 :: o1 in orgs && o2 in orgs && orgs[o1].slug == orgs[o2].slug ==> o1 == o2
  }

  /** Some stored organization has this slug. */
  predicate SlugTaken(orgs: map<Id, Organization>, slug: string)
  {
    exists o :: o in orgs && orgs[o].slug == slug
  }

  /** Some stored organization other than `self` has this slug; `self` may be absent. */
  predicate SlugHeldByOther(orgs: map<Id, Organization>, self: Id, slug: string)
  {
    exists o :: o in orgs && o != self && orgs[o].slug == slug
  }

  /** Whether another organization holds a slug does not depend on what is stored under `self`. */
  lemma HeldByOtherIgnoresSelf(orgs: map<Id, Organization>, self: Id, o: Organization, slug: string)
    ensures SlugHeldByOther(orgs[self := o], self, slug) <==> SlugHeldByOther(orgs, self, slug)
  {
    if SlugHeldByOther(orgs, self, slug) {
      var other :| other in orgs && other != self && orgs[other].slug == slug;
      assert orgs[self := o][other].slug == slug;
    }
  }

  /**
   * Storing an organization under `self` keeps the slugs unique exactly
   * when no other organization has its slug.
   */
  lemma StoreOrganizationSlugs(orgs: map<Id, Organization>, self: Id, o: Organization)
    requires SlugsUnique(orgs)
    ensures SlugsUnique(orgs[self := o]) <==> !SlugHeldByOther(orgs, self, o.slug)
  {
    if SlugHeldByOther(orgs, self, o.slug) {
      var other :| other in orgs && other != self && orgs[other].slug == o.slug;
      assert orgs[self := o][other].slug == orgs[self := o][self].slug;
    }
  }

  // ---------------------------------------------------------------------
  // Users and roles
  // ---------------------------------------------------------------------

  /**
   * A user account.  `password` is the credential `check_password`
   * compares against; hashing is not part of the model.  `avatar` is the
   * stored file name, empty when there is none.
   */
  datatype User = User(
    username: string,
    email: string,
    firstName: string,
    lastName: string,
    phone: string,
    avatar: string,
    jobTitle: string,
    department: string,
    bio: string,
    timezone: string,
    language: string,
    organization: Option<Id>,
    role: string,
    isActive: bool,
    password: string,
    lastLogin: Option<int>,
    lastLoginIp: Option<string>)

  const Roles: seq<string> := ["owner", "admin", "manager", "employee", "viewer"]

  /** `User.full_name`. */
  function FullName(u: User): (r: string)
    ensures r == [] || (!IsSpace(r[0]) && !IsSpace(r[|r| - 1]))
  {
    SpacedName(u.firstName, u.lastName)
  }

  /** `check_password`, with the credential compared as stored. */
  predicate CheckPassword(u: User, candidate: string)
  {
    u.password == candidate
  }

  /** The `role_permissions` table of `has_organization_permission`. */
  function RolePermissions(role: string): (ps: seq<string>)
  {
    if role == "owner" then ["all"]
    else if role == "admin" then ["manage_users", "manage_settings", "view_reports", "manage_data"]
    else if role == "manager" then ["view_reports", "manage_data", "view_users"]
    else if role == "employee" then ["manage_data"]
    else if role == "viewer" then ["view_data"]
    else []
  }

  /** `User.has_organization_permission`. */
  predicate HasOrganizationPermission(u: User, permission: string)
  {
    "all" in RolePermissions(u.role) || permission in RolePermissions(u.role)
  }

  /** The owner holds every permission, through the "all" entry. */
  lemma OwnerHasEveryPermission(u: User, permission: string)
    requires u.role == "owner"
    ensures HasOrganizationPermission(u, permission)
  {
  }

  /** Any other role holds exactly the permissions listed for it. */
  lemma PermissionIffListed(u: User, permission: string)
    requires u.role != "owner"
    ensures HasOrganizationPermission(u, permission) <==> permission in RolePermissions(u.role)
  {
  }

  /** A role outside the five known ones holds no permission at all. */
  lemma UnknownRoleHasNone(u: User, permission: string)
    requires u.role !in Roles
    ensures !HasOrganizationPermission(u, permission)
  {
  }

  /** Administrators may not list users: `view_users` is only a manager's. */
  lemma ViewUsersHolders(u: User)
    ensures HasOrganizationPermission(u, "view_users") <==> u.role == "owner" || u.role == "manager"
  {
  }

  /** Organization settings are managed by owners and administrators alone. */
  lemma ManageSettingsHolders(u: User)
    ensures HasOrganizationPermission(u, "manage_settings") <==> u.role == "owner" || u.role == "admin"
  {
  }

  /** `view_data` is granted to the viewer role alone (and to the owner through "all"). */
  lemma ViewDataHolders(u: User)
    ensures HasOrganizationPermission(u, "view_data") <==> u.role == "owner" || u.role == "viewer"
  {
  }

  /**
   * A permission that no role lists, such as the `view_all_*` and
   * `manage_all_*` names the activity, note and dashboard views ask for,
   * is held by the owner alone.
   */
  lemma UnlistedPermissionOwnerOnly(u: User, permission: string)
    requires forall r :: r in Roles && r != "owner" ==> permission !in RolePermissions(r)
    ensures HasOrganizationPermission(u, permission) <==> u.role == "owner"
  {
    if u.role != "owner" && u.role in Roles {
      assert permission !in RolePermissions(u.role);
    }
  }

  // ---------------------------------------------------------------------
  // Invitations
  // ---------------------------------------------------------------------

  datatype Invitation = Invitation(
    organization: Id,
    email: string,
    role: string,
    invitedBy: Id,
    status: string,
    token: string,
    createdAt: int,
    expiresAt: int,
    acceptedAt: Option<int>)

  /** `Invitation.is_expired`. */
  predicate IsExpired(inv: Invitation, now: int)
  {
    now > inv.expiresAt
  }

  /** Once expired, an invitation stays expired. */
  lemma ExpiredStaysExpired(inv: Invitation, now: int, later: int)
    requires IsExpired(inv, now) && now <= later
    ensures IsExpired(inv, later)
  {
  }

  /** What `Invitation.accept(user)` returns, and the invitation and user it leaves. */
  datatype AcceptResult = AcceptResult(accepted: bool, invitation: Invitation, user: User)

  function Accept(inv: Invitation, user: User, now: int): (r: AcceptResult)
  {
    if IsExpired(inv, now) || inv.status != "pending" then AcceptResult(false, inv, user)
    else
      AcceptResult(
        true,
        inv.(status := "accepted", acceptedAt := Some(now)),
        user.(organization := Some(inv.organization), role := inv.role))
  }

  /** Accepting is refused, and changes neither record, exactly when expired or not pending. */
  lemma AcceptRefused(inv: Invitation, user: User, now: int)
    ensures !Accept(inv, user, now).accepted <==> IsExpired(inv, now) || inv.status != "pending"
    ensures !Accept(inv, user, now).accepted ==>
      Accept(inv, user, now).invitation == inv && Accept(inv, user, now).user == user
  {
  }

  /**
   * A successful accept moves the user into the invitation's organization
   * with its role, leaves the rest of the account alone, and stamps the
   * invitation accepted at `now`; the user then holds the permissions of
   * the invited role.
   */
  lemma AcceptJoins(inv: Invitation, user: User, now: int, permission: string)
    requires Accept(inv, user, now).accepted
    ensures var r := Accept(inv, user, now);
      r.user.organization == Some(inv.organization) && r.user.role == inv.role
      && r.user.(organization := user.organization, role := user.role) == user
      && r.invitation.status == "accepted" && r.invitation.acceptedAt == Some(now)
      && r.invitation.(status := inv.status, acceptedAt := inv.acceptedAt) == inv
      && (HasOrganizationPermission(r.user, permission) <==> "all" in RolePermissions(inv.role) || permission in RolePermissions(inv.role))
  {
  }

  /** An accepted invitation cannot be accepted again, by anyone, at any time. */
  lemma AcceptOnce(inv: Invitation, user: User, now: int, other: User, later: int)
    requires Accept(inv, user, now).accepted
    ensures !Accept(Accept(inv, user, now).invitation, other, later).accepted
  {
  }
}
