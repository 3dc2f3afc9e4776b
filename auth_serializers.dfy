/**
 * The validation and creation rules of the account serializers:
 * registration (field checks, password confirmation, invitation token,
 * organization assignment), login (the four refusals in their order), password change,
 * invitation creation with its seven-day window, and the profile update
 * that copies only the supplied fields.
 */
module AuthSerializers {
  import opened Wrappers
  import opened Text
  import opened AuthModels
  import opened Uuids

  // ---------------------------------------------------------------------
  // Registration
  // ---------------------------------------------------------------------

  /**
   * The registration payload as the fields hand it on: every text trimmed
   * by its `CharField` (`Trimmed` makes it from the text sent), the
   * invitation token as sent; the two optional fields may be absent.
   */
  datatype Registration = Registration(
    username: string,
    email: string,
    password: string,
    passwordConfirm: string,
    firstName: string,
    lastName: string,
    phone: string,
    organizationName: Option<string>,
    invitationToken: Option<string>)

  /** What the `CharField`s make of the texts sent: each one trimmed. */
  function Trimmed(sent: Registration): (d: Registration)
    ensures d.invitationToken == sent.invitationToken
    ensures d.organizationName.Some? <==> sent.organizationName.Some?
  {
    Registration(Strip(sent.username), Strip(sent.email), Strip(sent.password), Strip(sent.passwordConfirm),
                 Strip(sent.firstName), Strip(sent.lastName), Strip(sent.phone),
                 if sent.organizationName.Some? then Some(Strip(sent.organizationName.value)) else None,
                 sent.invitationToken)
  }

  /** A trimmed payload is handed on unchanged. */
  lemma TrimmedIdempotent(sent: Registration)
    ensures Trimmed(Trimmed(sent)) == Trimmed(sent)
  {
    StripIdempotent(sent.username);
    StripIdempotent(sent.email);
    StripIdempotent(sent.password);
    StripIdempotent(sent.passwordConfirm);
    StripIdempotent(sent.firstName);
    StripIdempotent(sent.lastName);
    StripIdempotent(sent.phone);
    if sent.organizationName.Some? {
      StripIdempotent(sent.organizationName.value);
    }
  }

  datatype RegistrationError =
    | BlankField(field: string)        // a required text field is empty once trimmed
    | FieldTooLong(field: string)      // the field's `max_length` is exceeded
    | UsernameTaken                    // the unique `username` column
    | EmailTaken                       // the unique `email` column
    | MalformedInvitationToken         // `invitation_token` is not a UUID
    | PasswordsDontMatch
    | InvitationExpired
    | InvalidInvitationToken

  /**
   * The validated data of a trimmed payload: the `UUIDField` holds the
   * canonical spelling of the token (None when it is absent or does not
   * parse).
   */
  function Clean(d: Registration): (c: Registration)
    ensures c.(invitationToken := d.invitationToken) == d
    ensures d.invitationToken.Some? ==> c.invitationToken == ParseUuid(d.invitationToken.value)
    ensures d.invitationToken.None? ==> c.invitationToken.None?
  {
    d.(invitationToken := if d.invitationToken.Some? then ParseUuid(d.invitationToken.value) else None)
  }

  predicate UsernameInUse(users: map<Id, User>, name: string)
  {
    exists id :: id in users && users[id].username == name
  }

  predicate EmailInUse(users: map<Id, User>, email: string)
  {
    exists id :: id in users && users[id].email == email
  }

  /**
   * Every field of the validated data `c` passes its own checks;
   * `tokenGiven` says whether an invitation token was sent.
   */
  predicate FieldsAcceptable(c: Registration, tokenGiven: bool, users: map<Id, User>)
  {
    && c.username != "" && |c.username| <= 150 && !UsernameInUse(users, c.username)
    && c.email != "" && |c.email| <= 254 && !EmailInUse(users, c.email)
    && c.password != "" && c.passwordConfirm != ""
    && |c.firstName| <= 150 && |c.lastName| <= 150 && |c.phone| <= 20
    && (c.organizationName.Some? ==> c.organizationName.value != "")
    && (tokenGiven ==> c.invitationToken.Some?)
  }

  /** A refusal of one field (as opposed to one of `validate`'s checks). */
  predicate IsFieldError(e: RegistrationError)
  {
    e.BlankField? || e.FieldTooLong? || e.UsernameTaken? || e.EmailTaken? || e.MalformedInvitationToken?
  }

  /** The checks of one trimmed text field: not blank unless allowed, and within its maximum length. */
  function TextRefusal(field: string, t: string, allowBlank: bool, maxLength: Option<nat>): (r: Option<RegistrationError>)
    ensures r.None? <==> (allowBlank || t != "") && (maxLength.Some? ==> |t| <= maxLength.value)
    ensures r.Some? ==> r.value == BlankField(field) || r.value == FieldTooLong(field)
  {
    if !allowBlank && t == "" then Some(BlankField(field))
    else if maxLength.Some? && |t| > maxLength.value then Some(FieldTooLong(field))
    else None
  }

  /**
   * The field-level checks on the validated data, in the order of the
   * serializer's fields: username, email, password, password
   * confirmation, first and last name, phone, organization name and
   * invitation token; the first refusal is reported.  The lengths are the
   * model's `max_length`s.
   */
  function FieldRefusal(c: Registration, tokenGiven: bool, users: map<Id, User>): (r: Option<RegistrationError>)
    ensures r.None? <==> FieldsAcceptable(c, tokenGiven, users)
    ensures r.Some? ==> IsFieldError(r.value)
  {
    var username := TextRefusal("username", c.username, false, Some(150));
    var email := TextRefusal("email", c.email, false, Some(254));
    var password := TextRefusal("password", c.password, false, None);
    var confirm := TextRefusal("password_confirm", c.passwordConfirm, false, None);
    var first := TextRefusal("first_name", c.firstName, true, Some(150));
    var last := TextRefusal("last_name", c.lastName, true, Some(150));
    var phone := TextRefusal("phone", c.phone, true, Some(20));
    if username.Some? then username
    else if UsernameInUse(users, c.username) then Some(UsernameTaken)
    else if email.Some? then email
    else if EmailInUse(users, c.email) then Some(EmailTaken)
    else if password.Some? then password
    else if confirm.Some? then confirm
    else if first.Some? then first
    else if last.Some? then last
    else if phone.Some? then phone
    else if c.organizationName.Some? && c.organizationName.value == "" then Some(BlankField("organization_name"))
    else if tokenGiven && c.invitationToken.None? then Some(MalformedInvitationToken)
    else None
  }

  /** The filter `token=…, status='pending', email=…` of the invitation lookup. */
  predicate PendingFor(inv: Invitation, token: string, email: string)
  {
    inv.token == token && inv.status == "pending" && inv.email == email
  }

  /** Invitation tokens are unique (the column is declared unique). */
  predicate TokensUnique(invs: seq<Invitation>)
  {
    forall i, j :: 0 <= i < |invs| && 0 <= j < |invs| && invs[i].token == invs[j].token ==> i == j
  }

  /** The position of the pending invitation with this token for this email, if any. */
  function FindPending(invs: seq<Invitation>, token: string, email: string): (r: Option<nat>)
    ensures r.Some? ==> r.value < |invs| && PendingFor(invs[r.value], token, email)
    ensures r.None? <==> forall i :: 0 <= i < |invs| ==> !PendingFor(invs[i], token, email)
  {
    if invs == [] then None
    else if PendingFor(invs[0], token, email) then Some(0)
    else
      match FindPending(invs[1..], token, email)
      case None => None
      case Some(j) => Some(j + 1)
  }

  /** With unique tokens the lookup finds the one matching invitation. */
  lemma FindPendingUnique(invs: seq<Invitation>, token: string, email: string, i: nat)
    requires TokensUnique(invs)
    requires i < |invs| && PendingFor(invs[i], token, email)
    ensures FindPending(invs, token, email) == Some(i)
  {
  }

  /**
   * `UserRegistrationSerializer.validate` on the validated data `c`: the
   * passwords must agree, and an invitation token, when given, must name a
   * pending invitation for the same email that has not expired.  The
   * result is the position of that invitation.
   */
  function ValidateAttrs(c: Registration, invs: seq<Invitation>, now: int): (r: Result<Option<nat>, RegistrationError>)
    ensures r.Err? ==> !IsFieldError(r.error)
    ensures r.Ok? ==> (r.value.Some? <==> c.invitationToken.Some?)
    ensures r.Ok? && r.value.Some? ==> r.value.value < |invs|
  {
    if c.password != c.passwordConfirm then Err(PasswordsDontMatch)
    else if c.invitationToken.None? then Ok(None)
    else
      match FindPending(invs, c.invitationToken.value, c.email)
      case None => Err(InvalidInvitationToken)
      case Some(i) => if IsExpired(invs[i], now) then Err(InvitationExpired) else Ok(Some(i))
  }

  /**
   * Each refusal of `validate`, in the order it checks them: the password
   * mismatch, then a token without a pending invitation for that email,
   * then an expired one; everything else is accepted.
   */
  lemma AttrsRefusals(c: Registration, invs: seq<Invitation>, now: int)
    requires TokensUnique(invs)
    ensures var r := ValidateAttrs(c, invs, now);
      && (r == Err(PasswordsDontMatch) <==> c.password != c.passwordConfirm)
      && (r == Err(InvalidInvitationToken) <==>
            c.password == c.passwordConfirm && c.invitationToken.Some?
            && forall i :: 0 <= i < |invs| ==> !PendingFor(invs[i], c.invitationToken.value, c.email))
      && (r == Err(InvitationExpired) <==>
            c.password == c.passwordConfirm && c.invitationToken.Some?
            && exists i :: 0 <= i < |invs| && PendingFor(invs[i], c.invitationToken.value, c.email) && IsExpired(invs[i], now))
      && (r.Ok? <==>
            c.password == c.passwordConfirm
            && (c.invitationToken.Some? ==>
                  exists i :: 0 <= i < |invs| && PendingFor(invs[i], c.invitationToken.value, c.email) && !IsExpired(invs[i], now)))
  {
    if c.password == c.passwordConfirm && c.invitationToken.Some? {
      var t := c.invitationToken.value;
      if i :| 0 <= i < |invs| && PendingFor(invs[i], t, c.email) {
        FindPendingUnique(invs, t, c.email, i);
      }
    }
  }

  /**
   * `UserRegistrationSerializer.is_valid`: the field-level checks come
   * first (the first failing one is reported), then `validate`.
   */
  function ValidateRegistration(d: Registration, users: map<Id, User>, invs: seq<Invitation>, now: int)
    : (r: Result<Option<nat>, RegistrationError>)
    ensures r.Ok? && r.value.Some? ==> r.value.value < |invs|
  {
    var c := Clean(d);
    match FieldRefusal(c, d.invitationToken.Some?, users)
    case Some(e) => Err(e)
    case None => ValidateAttrs(c, invs, now)
  }

  /**
   * Each refusal, in the order the rules are checked: a field-level
   * refusal exactly when some field is unacceptable, then the password
   * mismatch, then a token without a pending invitation for that email,
   * then an expired one; every other registration is accepted.
   */
  lemma RegistrationRefusals(d: Registration, users: map<Id, User>, invs: seq<Invitation>, now: int)
    requires TokensUnique(invs)
    ensures var r := ValidateRegistration(d, users, invs, now);
      var c := Clean(d);
      var ok := FieldsAcceptable(c, d.invitationToken.Some?, users);
      (r.Err? && IsFieldError(r.error) <==> !ok)
      && (r == Err(PasswordsDontMatch) <==> ok && c.password != c.passwordConfirm)
      && (r == Err(InvalidInvitationToken) <==>
            ok && c.password == c.passwordConfirm && d.invitationToken.Some?
            && forall i :: 0 <= i < |invs| ==> !PendingFor(invs[i], c.invitationToken.value, c.email))
      && (r == Err(InvitationExpired) <==>
            ok && c.password == c.passwordConfirm && d.invitationToken.Some?
            && exists i :: 0 <= i < |invs| && PendingFor(invs[i], c.invitationToken.value, c.email) && IsExpired(invs[i], now))
      && (r.Ok? <==>
            ok && c.password == c.passwordConfirm
            && (d.invitationToken.Some? ==>
                  exists i :: 0 <= i < |invs| && PendingFor(invs[i], c.invitationToken.value, c.email) && !IsExpired(invs[i], now)))
  {
    var c := Clean(d);
    var f := FieldRefusal(c, d.invitationToken.Some?, users);
    if f.None? {
      AttrsRefusals(c, invs, now);
      assert ValidateRegistration(d, users, invs, now) == ValidateAttrs(c, invs, now);
      assert d.invitationToken.Some? <==> c.invitationToken.Some?;
    } else {
      assert ValidateRegistration(d, users, invs, now) == Err(f.value);
    }
  }

  /** On the trimmed payload: an empty organization name is refused once every earlier field passes. */
  lemma EmptyOrganizationNameRefused(d: Registration, users: map<Id, User>, invs: seq<Invitation>, now: int)
    requires d.organizationName == Some("")
    requires FieldsAcceptable(Clean(d).(organizationName := None), d.invitationToken.Some?, users)
    ensures ValidateRegistration(d, users, invs, now) == Err(BlankField("organization_name"))
  {
    assert FieldRefusal(Clean(d), d.invitationToken.Some?, users) == Some(BlankField("organization_name"));
  }

  /**
   * An organization name that is empty once trimmed is refused even with
   * every earlier field acceptable, as the `CharField` does not allow
   * blank text.
   */
  lemma BlankOrganizationNameRefused(sent: Registration, users: map<Id, User>, invs: seq<Invitation>, now: int)
    requires sent.organizationName.Some? && Strip(sent.organizationName.value) == ""
    requires FieldsAcceptable(Clean(Trimmed(sent)).(organizationName := None), sent.invitationToken.Some?, users)
    ensures ValidateRegistration(Trimmed(sent), users, invs, now) == Err(BlankField("organization_name"))
  {
    EmptyOrganizationNameRefused(Trimmed(sent), users, invs, now);
  }

  /** `create_user(**validated_data)`: a fresh account outside any organization. */
  function NewUser(c: Registration): (u: User)
    ensures u.organization.None? && u.role == "employee" && u.isActive
    ensures u.username == c.username && u.email == c.email && CheckPassword(u, c.password)
  {
    User(c.username, c.email, c.firstName, c.lastName, c.phone, "", "", "", "", "UTC", "en",
         None, "employee", true, c.password, None, None)
  }

  /** The account `create` saves, the invitations after it, and the organization it founds, if any. */
  datatype Registered = Registered(user: User, invitations: seq<Invitation>, founded: Option<Organization>)

  /**
   * `UserRegistrationSerializer.create` as evidently intended, on the
   * validated data `Clean(d)`: with an invitation the new account accepts
   * it; otherwise a non-empty organization name founds an organization
   * (identified by `orgId`, with the slug made of its name) that the
   * account owns; otherwise the account stays outside any organization.
   */
  function CreateRegistered(d: Registration, invite: Option<nat>, invs: seq<Invitation>,
                            orgId: Id, slug: string, now: int): (r: Registered)
    requires invite.Some? ==> invite.value < |invs|
    ensures |r.invitations| == |invs|
  {
    var c := Clean(d);
    var u := NewUser(c);
    if invite.Some? then
      var a := Accept(invs[invite.value], u, now);
      Registered(a.user, invs[invite.value := a.invitation], None)
    else if c.organizationName.Some? && c.organizationName.value != "" then
      Registered(u.(organization := Some(orgId), role := "owner"), invs,
                 Some(NewOrganization(c.organizationName.value, slug, now)))
    else Registered(u, invs, None)
  }

  /**
   * `create` as written: it removes `password_confirm`, `organization_name`
   * and `invitation` from the validated data but leaves `invitation_token`,
   * which `create_user` passes on to the `User` constructor, a keyword it
   * refuses with `TypeError`.  None stands for that error.
   */
  function CreateRegisteredAsWritten(d: Registration, invite: Option<nat>, invs: seq<Invitation>,
                                     orgId: Id, slug: string, now: int): (r: Option<Registered>)
    requires invite.Some? ==> invite.value < |invs|
    ensures r.None? <==> Clean(d).invitationToken.Some?
    ensures r.Some? ==> r.value == CreateRegistered(d, invite, invs, orgId, slug, now)
  {
    if Clean(d).invitationToken.Some? then None
    else Some(CreateRegistered(d, invite, invs, orgId, slug, now))
  }

  /** The three ways a validated registration places the new account. */
  lemma RegistrationPlacesUser(d: Registration, users: map<Id, User>, invs: seq<Invitation>,
                               orgId: Id, slug: string, now: int)
    requires ValidateRegistration(d, users, invs, now).Ok?
    ensures var invite := ValidateRegistration(d, users, invs, now).value;
      var r := CreateRegistered(d, invite, invs, orgId, slug, now);
      var name := d.organizationName;
      (invite.Some? <==> d.invitationToken.Some?)
      && r.user.email == d.email && r.user.username == d.username
      && (invite.Some? ==>
         r.user.organization == Some(invs[invite.value].organization)
         && r.user.role == invs[invite.value].role
         && r.invitations[invite.value].status == "accepted"
         && r.invitations[invite.value].acceptedAt == Some(now)
         && r.invitations == invs[invite.value := r.invitations[invite.value]]
         && r.founded.None?)
      && (invite.None? && name.Some? ==>
            r.user.organization == Some(orgId) && r.user.role == "owner"
            && r.founded == Some(NewOrganization(name.value, slug, now))
            && r.invitations == invs)
      && (invite.None? && name.None? ==>
            r.user.organization.None? && r.user.role == "employee" && r.founded.None?
            && r.invitations == invs)
  {
  }

  // ---------------------------------------------------------------------
  // Organization update
  // ---------------------------------------------------------------------

  datatype OrganizationError =
    | OrganizationBlank(field: string)     // `name` or `slug` is empty once trimmed
    | OrganizationTooLong(field: string)   // over 255 (`name`) or 50 (`slug`) characters
    | NotASlug                             // `slug` holds a character other than a letter, digit, `-` or `_`
    | SlugInUse                            // another organization has the slug
    | InvalidChoice(field: string)         // `plan` or `status` is not one of its choices

  const PlanChoices: seq<string> := ["free", "basic", "premium", "enterprise"]
  const StatusChoices: seq<string> := ["active", "suspended", "cancelled"]

  /** The characters `validate_slug` allows: ASCII letters and digits, `-` and `_`. */
  predicate IsSlugChar(c: char)
  {
    'a' <= c <= 'z' || 'A' <= c <= 'Z' || '0' <= c <= '9' || c == '-' || c == '_'
  }

  predicate IsSlug(t: string)
  {
    forall i :: 0 <= i < |t| ==> IsSlugChar(t[i])
  }

  /** What the fields of `OrganizationSerializer` make of the organization sent: name and slug trimmed. */
  function TrimmedOrganization(sent: Organization): (o: Organization)
    ensures o.(name := sent.name, slug := sent.slug) == sent
  {
    sent.(name := Strip(sent.name), slug := Strip(sent.slug))
  }

  /** A trimmed organization is handed on unchanged. */
  lemma TrimmedOrganizationIdempotent(sent: Organization)
    ensures TrimmedOrganization(TrimmedOrganization(sent)) == TrimmedOrganization(sent)
  {
    StripIdempotent(sent.name);
    StripIdempotent(sent.slug);
  }

  /**
   * Every modelled field of the trimmed organization `o` passes its own
   * checks when it is saved over organization `self`.
   */
  predicate OrganizationAcceptable(o: Organization, orgs: map<Id, Organization>, self: Id)
  {
    && o.name != "" && |o.name| <= 255
    && o.slug != "" && |o.slug| <= 50 && IsSlug(o.slug) && !SlugHeldByOther(orgs, self, o.slug)
    && o.plan in PlanChoices && o.status in StatusChoices
  }

  /**
   * `OrganizationSerializer(self, data=sent).is_valid()`: the field checks
   * in the order of the serializer's fields (name, slug, plan, status);
   * the slug's `UniqueValidator` leaves out the organization being
   * updated.  On success, the organization `save` stores.
   */
  function ValidateOrganization(sent: Organization, orgs: map<Id, Organization>, self: Id): (r: Result<Organization, OrganizationError>)
    ensures r.Ok? <==> OrganizationAcceptable(TrimmedOrganization(sent), orgs, self)
    ensures r.Ok? ==> r.value == TrimmedOrganization(sent)
  {
    var o := TrimmedOrganization(sent);
    if o.name == "" then Err(OrganizationBlank("name"))
    else if |o.name| > 255 then Err(OrganizationTooLong("name"))
    else if o.slug == "" then Err(OrganizationBlank("slug"))
    else if |o.slug| > 50 then Err(OrganizationTooLong("slug"))
    else if !IsSlug(o.slug) then Err(NotASlug)
    else if SlugHeldByOther(orgs, self, o.slug) then Err(SlugInUse)
    else if o.plan !in PlanChoices then Err(InvalidChoice("plan"))
    else if o.status !in StatusChoices then Err(InvalidChoice("status"))
    else Ok(o)
  }

  /**
   * Saving a validated organization keeps the slugs unique, and sending
   * back what was saved validates to the same organization.
   */
  lemma ValidatedOrganizationSaves(sent: Organization, orgs: map<Id, Organization>, self: Id)
    requires SlugsUnique(orgs)
    requires ValidateOrganization(sent, orgs, self).Ok?
    ensures var o := ValidateOrganization(sent, orgs, self).value;
      SlugsUnique(orgs[self := o]) && ValidateOrganization(o, orgs[self := o], self) == Ok(o)
  {
    var o := ValidateOrganization(sent, orgs, self).value;
    StoreOrganizationSlugs(orgs, self, o);
    TrimmedOrganizationIdempotent(sent);
    HeldByOtherIgnoresSelf(orgs, self, o, o.slug);
    assert OrganizationAcceptable(TrimmedOrganization(o), orgs[self := o], self);
  }

  /** The slug of another organization, in any surrounding whitespace, is refused. */
  lemma TakenSlugRefused(sent: Organization, orgs: map<Id, Organization>, self: Id, other: Id)
    requires other in orgs && other != self && orgs[other].slug == Strip(sent.slug)
    ensures ValidateOrganization(sent, orgs, self).Err?
  {
  }

  // ---------------------------------------------------------------------
  // Login
  // ---------------------------------------------------------------------

  datatype LoginError = MissingCredentials | InvalidCredentials | AccountDisabled | OrganizationSuspended

  /** The account belongs to an organization that is not active. */
  predicate Suspended(u: User, orgs: map<Id, Organization>)
  {
    u.organization.Some? && u.organization.value in orgs && !IsActive(orgs[u.organization.value])
  }

  /**
   * `LoginSerializer.validate` on the trimmed email and password;
   * `authenticated` is what the credential backend returned for them.
   * `MissingCredentials` stands for the field-level refusal of a blank
   * email or password, which comes before `validate`, so that its own
   * "Must include email and password." branch is not reached.
   */
  function ValidateLogin(email: string, password: string, authenticated: Option<User>,
                         orgs: map<Id, Organization>): (r: Result<User, LoginError>)
    ensures r.Ok? ==> authenticated == Some(r.value)
  {
    if email == "" || password == "" then Err(MissingCredentials)
    else if authenticated.None? then Err(InvalidCredentials)
    else if !authenticated.value.isActive then Err(AccountDisabled)
    else if Suspended(authenticated.value, orgs) then Err(OrganizationSuspended)
    else Ok(authenticated.value)
  }

  /**
   * The four refusals in their order, and the account attached only when
   * all four checks pass.
   */
  lemma LoginOrder(email: string, password: string, authenticated: Option<User>, orgs: map<Id, Organization>)
    ensures var r := ValidateLogin(email, password, authenticated, orgs);
      (r == Err(MissingCredentials) <==> email == "" || password == "")
      && (r == Err(InvalidCredentials) <==> email != "" && password != "" && authenticated.None?)
      && (r == Err(AccountDisabled) <==>
            email != "" && password != "" && authenticated.Some? && !authenticated.value.isActive)
      && (r == Err(OrganizationSuspended) <==>
            email != "" && password != "" && authenticated.Some? && authenticated.value.isActive
            && Suspended(authenticated.value, orgs))
      && (r.Ok? <==>
            email != "" && password != "" && authenticated.Some? && authenticated.value.isActive
            && !Suspended(authenticated.value, orgs))
      && (r.Ok? ==> r.value == authenticated.value)
  {
  }

  // ---------------------------------------------------------------------
  // Password change
  // ---------------------------------------------------------------------

  datatype PasswordError =
    | BlankPasswordField(field: string)   // a field is empty once trimmed
    | OldPasswordIncorrect
    | NewPasswordsDontMatch

  /**
   * `PasswordChangeSerializer` on the three texts as sent: each
   * `CharField` trims its text and refuses it blank, and the old password
   * is then checked, all in the order of the fields; only when every
   * field passes does the cross-field check on the confirmation run.  On
   * success, the trimmed new password.
   */
  function ValidatePasswordChange(u: User, current: string, newPassword: string, confirm: string): (r: Result<string, PasswordError>)
  {
    var given, chosen, again := Strip(current), Strip(newPassword), Strip(confirm);
    if given == "" then Err(BlankPasswordField("old_password"))
    else if !CheckPassword(u, given) then Err(OldPasswordIncorrect)
    else if chosen == "" then Err(BlankPasswordField("new_password"))
    else if again == "" then Err(BlankPasswordField("new_password_confirm"))
    else if chosen != again then Err(NewPasswordsDontMatch)
    else Ok(chosen)
  }

  /** The serializer's `save`: only the credential changes. */
  function SetPassword(u: User, newPassword: string): (r: User)
  {
    u.(password := newPassword)
  }

  /**
   * A change succeeds iff the old password, trimmed, is given and right
   * and the new one, trimmed, is given and confirmed; a blank field is a
   * field error, reported before the confirmation is compared.
   * Afterwards the trimmed new password is accepted, a different old one
   * no longer is, and nothing else about the account differs.
   */
  lemma PasswordChangeEffect(u: User, current: string, newPassword: string, confirm: string)
    ensures var r := ValidatePasswordChange(u, current, newPassword, confirm);
      (r.Ok? <==> Strip(current) != "" && CheckPassword(u, Strip(current))
                  && Strip(newPassword) != "" && Strip(newPassword) == Strip(confirm))
      && (r == Err(BlankPasswordField("old_password")) <==> Strip(current) == "")
      && (r == Err(OldPasswordIncorrect) <==> Strip(current) != "" && !CheckPassword(u, Strip(current)))
      && (r == Err(NewPasswordsDontMatch) <==>
            Strip(current) != "" && CheckPassword(u, Strip(current))
            && Strip(newPassword) != "" && Strip(confirm) != "" && Strip(newPassword) != Strip(confirm))
      && (r.Ok? ==>
            var v := SetPassword(u, r.value);
            r.value == Strip(newPassword)
            && CheckPassword(v, Strip(newPassword))
            && (Strip(current) != Strip(newPassword) ==> !CheckPassword(v, Strip(current)))
            && v.(password := u.password) == u)
  {
  }

  /**
   * The stored password is the trimmed one, so the new password sent with
   * surrounding whitespace does not match it as typed.
   */
  lemma PaddedPasswordStoredTrimmed(u: User, current: string, p: string)
    requires ValidatePasswordChange(u, current, " " + p, " " + p).Ok?
    ensures !CheckPassword(SetPassword(u, ValidatePasswordChange(u, current, " " + p, " " + p).value), " " + p)
  {
    var typed := " " + p;
    PasswordChangeEffect(u, current, typed, typed);
    PaddedNotStripped(typed);
  }

  lemma PaddedNotStripped(t: string)
    requires t != [] && t[0] == ' '
    ensures Strip(t) != t
  {
    StripEnds(t);
  }

  // ---------------------------------------------------------------------
  // Invitation creation
  // ---------------------------------------------------------------------

  /** Seven days, in seconds. */
  const InvitationLifetime: int := 7 * 24 * 60 * 60

  /** The body of an invitation request: `email` and `role` as sent; `role` may be left out. */
  datatype InvitationRequest = InvitationRequest(email: Option<string>, role: Option<string>)

  datatype InvitationError =
    | InvitationEmailMissing   // no `email` was sent
    | InvitationEmailBlank     // `email` is empty once trimmed
    | InvitationEmailTooLong   // over the 254 characters of `EmailField`
    | NotAnEmail               // no `@` with text on both sides of the last one
    | NotARole                 // `role` is not one of `User.ROLE_CHOICES`

  /**
   * The first test of `EmailValidator`: the text splits at its last `@`
   * into a non-empty user part and a non-empty domain part.
   */
  predicate EmailShaped(t: string)
  {
    |t| > 1 && '@' in t[1..] && t[|t| - 1] != '@'
  }

  predicate InvitationEmailAcceptable(t: string)
  {
    t != "" && |t| <= 254 && EmailShaped(t)
  }

  /**
   * `InvitationSerializer(data=sent).is_valid()`: the trimmed `email` is
   * required, non-blank, at most 254 characters and shaped like an
   * address; `role`, a choice field that does not trim, must be one of the
   * roles when sent and is "employee", the model's default, when not.  The
   * fields are checked in that order; on success, the email and role
   * `create` is given.
   */
  function ValidateInvitation(sent: InvitationRequest): (r: Result<(string, string), InvitationError>)
    ensures r.Ok? <==> sent.email.Some? && InvitationEmailAcceptable(Strip(sent.email.value))
                       && (sent.role.Some? ==> sent.role.value in Roles)
    ensures r.Ok? ==> r.value.0 == Strip(sent.email.value) && r.value.1 in Roles
    ensures r.Ok? ==> r.value.1 == if sent.role.Some? then sent.role.value else "employee"
    ensures r == Err(NotARole) <==>
              (sent.email.Some? && InvitationEmailAcceptable(Strip(sent.email.value))
               && sent.role.Some? && sent.role.value !in Roles)
  {
    if sent.email.None? then Err(InvitationEmailMissing)
    else
      var email := Strip(sent.email.value);
      if email == "" then Err(InvitationEmailBlank)
      else if |email| > 254 then Err(InvitationEmailTooLong)
      else if !EmailShaped(email) then Err(NotAnEmail)
      else if sent.role.Some? && sent.role.value !in Roles then Err(NotARole)
      else Ok((email, if sent.role.Some? then sent.role.value else "employee"))
  }

  /** A role outside the choices, such as "superuser", is refused whatever the email. */
  lemma UnknownRoleRefused(email: string, role: string)
    requires role !in Roles
    ensures ValidateInvitation(InvitationRequest(Some(email), Some(role))).Err?
  {
  }

  /** Text without an `@`, such as "x", is refused as an email. */
  lemma AddressWithoutAtRefused(email: string, role: Option<string>)
    requires '@' !in email
    ensures ValidateInvitation(InvitationRequest(Some(email), role)).Err?
  {
    StripKeepsOut(email, '@');
    var t := Strip(email);
    assert forall m :: 0 <= m < |t| - 1 ==> t[1..][m] == t[m + 1];
  }

  /** Stripping adds no character. */
  lemma StripKeepsOut(s: string, c: char)
    requires c !in s
    ensures c !in Strip(s)
  {
    StripShape(s);
    var i, j :| 0 <= i <= j <= |s| && Strip(s) == s[i..j] && AllSpace(s[..i]) && AllSpace(s[j..]);
    assert forall m :: 0 <= m < |Strip(s)| ==> Strip(s)[m] == s[i + m];
  }

  /**
   * `InvitationSerializer.create`: the requester invites into their own
   * organization, and the invitation expires seven days after `now`.
   */
  function NewInvitation(inviter: Id, org: Id, email: string, role: string, token: string, now: int): (inv: Invitation)
    ensures inv.status == "pending" && inv.invitedBy == inviter && inv.organization == org
    ensures inv.email == email && inv.role == role && inv.token == token && inv.acceptedAt.None?
  {
    Invitation(org, email, role, inviter, "pending", token, now, now + InvitationLifetime, None)
  }

  /** A new invitation is live up to exactly seven days after creation and expired after that. */
  lemma NewInvitationWindow(inviter: Id, org: Id, email: string, role: string, token: string, now: int, t: int)
    ensures IsExpired(NewInvitation(inviter, org, email, role, token, now), t) <==> t > now + 604800
  {
  }

  // ---------------------------------------------------------------------
  // Profile update
  // ---------------------------------------------------------------------

  /** The fields the profile serializer exposes. */
  datatype ProfileField = FirstName | LastName | Phone | Avatar | JobTitle | Department | Bio | Timezone | Language

  function ProfileValue(u: User, f: ProfileField): string
  {
    match f
    case FirstName => u.firstName
    case LastName => u.lastName
    case Phone => u.phone
    case Avatar => u.avatar
    case JobTitle => u.jobTitle
    case Department => u.department
    case Bio => u.bio
    case Timezone => u.timezone
    case Language => u.language
  }

  /** `setattr(instance, attr, value)` for one profile field. */
  function SetProfileValue(u: User, f: ProfileField, v: string): (r: User)
  {
    match f
    case FirstName => u.(firstName := v)
    case LastName => u.(lastName := v)
    case Phone => u.(phone := v)
    case Avatar => u.(avatar := v)
    case JobTitle => u.(jobTitle := v)
    case Department => u.(department := v)
    case Bio => u.(bio := v)
    case Timezone => u.(timezone := v)
    case Language => u.(language := v)
  }

  /** The two accounts agree on everything outside the profile. */
  predicate SameAccount(a: User, b: User)
  {
    a.username == b.username && a.email == b.email && a.organization == b.organization
    && a.role == b.role && a.isActive == b.isActive && a.password == b.password
    && a.lastLogin == b.lastLogin && a.lastLoginIp == b.lastLoginIp
  }

  lemma SetProfileValueReads(u: User, f: ProfileField, v: string, g: ProfileField)
    ensures ProfileValue(SetProfileValue(u, f, v), g) == if g == f then v else ProfileValue(u, g)
    ensures SameAccount(SetProfileValue(u, f, v), u)
  {
  }

  /** The supplied fields assigned one after another. */
  function ApplyProfile(u: User, data: seq<(ProfileField, string)>): User
  {
    if data == [] then u
    else
      var last := data[|data| - 1];
      SetProfileValue(ApplyProfile(u, data[..|data| - 1]), last.0, last.1)
  }

  /** The value supplied for `f`, the last one if it were given twice. */
  function Supplied(data: seq<(ProfileField, string)>, f: ProfileField): (r: Option<string>)
    ensures r.Some? <==> exists i :: 0 <= i < |data| && data[i].0 == f
  {
    if data == [] then None
    else if data[|data| - 1].0 == f then Some(data[|data| - 1].1)
    else
      var r := Supplied(data[..|data| - 1], f);
      assert forall i :: 0 <= i < |data| - 1 ==> data[..|data| - 1][i] == data[i];
      r
  }

  /**
   * A profile update sets every supplied field to its supplied value,
   * keeps every other profile field, and never touches the account.
   */
  lemma {:induction false} ApplyProfileReads(u: User, data: seq<(ProfileField, string)>, f: ProfileField)
    ensures ProfileValue(ApplyProfile(u, data), f) == Supplied(data, f).GetOr(ProfileValue(u, f))
    ensures SameAccount(ApplyProfile(u, data), u)
  {
    if data != [] {
      var init := data[..|data| - 1];
      var last := data[|data| - 1];
      ApplyProfileReads(u, init, f);
      SetProfileValueReads(ApplyProfile(u, init), last.0, last.1, f);
    }
  }

  /**
   * `ProfileSerializer.update`: the `setattr` loop over the supplied
   * fields; `data` is the serializer's validated data, already trimmed and
   * within the fields' lengths.
   */
  method UpdateProfile(u: User, data: seq<(ProfileField, string)>) returns (r: User)
    ensures r == ApplyProfile(u, data)
  {
    r := u;
    var i := 0;
    while i < |data|
      invariant 0 <= i <= |data|
      invariant r == ApplyProfile(u, data[..i])
    {
      assert data[..i + 1][..i] == data[..i];
      r := SetProfileValue(r, data[i].0, data[i].1);
      i := i + 1;
    }
    assert data[..i] == data;
  }
}
