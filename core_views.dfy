/**
 * The shared-record endpoints: which notes, attachments, activities,
 * dashboards and notifications a requester sees (each list is the
 * organization's records narrowed by conditional filters), completing an
 * activity, the read markers, the activity summary and the guard of the
 * related-objects lookup.
 */
module CoreViews {
  import opened Wrappers
  import opened Seqs
  import opened AuthModels
  import opened CoreModels
  import opened Ratios
  import Text
  import Uuids

  /** The signed-in user making the request. */
  datatype Requester = Requester(id: Id, user: User)

  /** `filter(organization=request.user.organization)` on one record. */
  predicate InOrganization(org: Id, req: Requester)
  {
    req.user.organization == Some(org)
  }

  /** A query parameter that is present and non-empty (truthy). */
  predicate Given(p: Option<string>)
  {
    p.Some? && p.value != ""
  }

  /** The content-type and object-id filter is applied only when both parameters are given. */
  predicate ContentFilter(ct: Option<string>, oid: Option<string>)
  {
    Given(ct) && Given(oid)
  }

  /**
   * None of the `view_all_*` and `manage_all_*` permissions these views
   * ask for is listed for any role, so only the owner holds them.
   */
  lemma WidePermissionOwnerOnly(u: User, permission: string)
    requires permission in ["view_all_notes", "view_all_activities", "manage_all_activities",
                            "view_all_dashboards", "manage_all_dashboards"]
    ensures HasOrganizationPermission(u, permission) <==> u.role == "owner"
  {
    UnlistedPermissionOwnerOnly(u, permission);
  }

  // ---------------------------------------------------------------------
  // Query values as the database layer converts them
  // ---------------------------------------------------------------------

  /**
   * The content-type table: the integer key of each model's content type,
   * by model label.  Records name their content type by label.
   */
  type ContentTypes = map<string, int>

  /** The record's content type is the one whose key is `k`. */
  predicate HasContentType(kind: string, types: ContentTypes, k: int)
  {
    kind in types && types[kind] == k
  }

  /**
   * `content_type_id=…` converts the parameter with `int()`; where that
   * raises `ValueError` the request ends in a server error.
   */
  predicate ContentKeyMalformed(ct: Option<string>, oid: Option<string>)
  {
    ContentFilter(ct, oid) && Text.ParseInt(ct.value).None?
  }

  /**
   * `assigned_to_id=…` converts the parameter to a UUID; where that raises
   * `ValidationError` the request ends in a server error.
   */
  predicate AssigneeMalformed(assignedTo: Option<string>)
  {
    Given(assignedTo) && Uuids.ParseUuid(assignedTo.value).None?
  }

  /** The content condition of one record: when both parameters are given, the converted key and the object id match. */
  predicate ContentMatches(kind: string, objectId: string, types: ContentTypes, ct: Option<string>, oid: Option<string>)
  {
    ContentFilter(ct, oid) ==>
      Text.ParseInt(ct.value).Some? && HasContentType(kind, types, Text.ParseInt(ct.value).value)
      && objectId == oid.value
  }

  /** An empty parameter converts to nothing, so a parameter that converts is given. */
  lemma ParsedIsGiven(t: string)
    ensures Text.ParseInt(t).Some? ==> t != ""
    ensures Uuids.ParseUuid(t).Some? ==> t != ""
  {
    if t == "" {
      assert Text.Strip(t) == "";
      assert Uuids.RemoveAll(t, "urn:") == "";
      assert Uuids.RemoveAll(t, "uuid:") == "";
    }
  }

  // ---------------------------------------------------------------------
  // Notes and attachments
  // ---------------------------------------------------------------------

  /** The composed condition of the note list. */
  predicate NoteListed(n: Note, req: Requester, types: ContentTypes, ct: Option<string>, oid: Option<string>)
  {
    InOrganization(n.organization, req)
    && ContentMatches(n.contentType, n.objectId, types, ct, oid)
    && (!HasOrganizationPermission(req.user, "view_all_notes") ==> !n.isPrivate || n.createdBy == Some(req.id))
  }

  /** `NoteListCreateView.get_queryset`, filter by filter; None is the server error of a malformed content type. */
  function NoteList(notes: seq<Note>, req: Requester, types: ContentTypes, ct: Option<string>, oid: Option<string>): Option<seq<Note>>
  {
    var q0 := Filter(notes, (n: Note) => InOrganization(n.organization, req));
    if ContentKeyMalformed(ct, oid) then None
    else
      var q1 := if ContentFilter(ct, oid) then
        var k, o := Text.ParseInt(ct.value).value, oid.value;
        Filter(q0, (n: Note) => HasContentType(n.contentType, types, k) && n.objectId == o)
      else q0;
      if !HasOrganizationPermission(req.user, "view_all_notes") then
        Some(Filter(q1, (n: Note) => !n.isPrivate || n.createdBy == Some(req.id)))
      else Some(q1)
  }

  /**
   * The note list fails exactly when both content parameters are given
   * and the content type is not an integer.  Otherwise it is the
   * organization's notes, in order, whose content type has the key the
   * parameter converts to and whose object id is the one given (when both
   * parameters are given) and, for anyone but the owner, that are public
   * or the requester's own.
   */
  lemma NoteListIsFilter(notes: seq<Note>, req: Requester, types: ContentTypes, ct: Option<string>, oid: Option<string>)
    ensures NoteList(notes, req, types, ct, oid).None? <==> ContentKeyMalformed(ct, oid)
    ensures NoteList(notes, req, types, ct, oid).Some? ==>
      NoteList(notes, req, types, ct, oid).value == Filter(notes, (n: Note) => NoteListed(n, req, types, ct, oid))
    ensures NoteList(notes, req, types, ct, oid).Some? ==> forall n :: n in NoteList(notes, req, types, ct, oid).value <==>
      n in notes && InOrganization(n.organization, req)
      && (ContentFilter(ct, oid) ==>
            HasContentType(n.contentType, types, Text.ParseInt(ct.value).value) && n.objectId == oid.value)
      && (req.user.role != "owner" ==> !n.isPrivate || n.createdBy == Some(req.id))
  {
    WidePermissionOwnerOnly(req.user, "view_all_notes");
    if !ContentKeyMalformed(ct, oid) {
      var org := (n: Note) => InOrganization(n.organization, req);
      var content := (n: Note) => org(n) && ContentMatches(n.contentType, n.objectId, types, ct, oid);
      if ContentFilter(ct, oid) {
        var k, o := Text.ParseInt(ct.value).value, oid.value;
        FilterThen(notes, org, (n: Note) => HasContentType(n.contentType, types, k) && n.objectId == o, content);
      } else {
        FilterAgree(notes, org, content);
      }
      if !HasOrganizationPermission(req.user, "view_all_notes") {
        FilterThen(notes, content, (n: Note) => !n.isPrivate || n.createdBy == Some(req.id),
                   (n: Note) => NoteListed(n, req, types, ct, oid));
      } else {
        FilterAgree(notes, content, (n: Note) => NoteListed(n, req, types, ct, oid));
      }
    }
  }

  /** `NoteDetailView.get_queryset`: the same privacy rule without the content filter. */
  predicate NoteDetailVisible(n: Note, req: Requester)
  {
    InOrganization(n.organization, req)
    && (!HasOrganizationPermission(req.user, "view_all_notes") ==> !n.isPrivate || n.createdBy == Some(req.id))
  }

  /** Every note the list shows can be opened through the detail view. */
  lemma ListedNoteOpens(n: Note, req: Requester, types: ContentTypes, ct: Option<string>, oid: Option<string>)
    requires NoteListed(n, req, types, ct, oid)
    ensures NoteDetailVisible(n, req)
  {
  }

  /** `AttachmentListCreateView.get_queryset`; None is the server error of a malformed content type. */
  function AttachmentList(atts: seq<Attachment>, req: Requester, types: ContentTypes, ct: Option<string>, oid: Option<string>): (r: Option<seq<Attachment>>)
    ensures r.None? <==> ContentKeyMalformed(ct, oid)
    ensures r.Some? ==> forall x :: x in r.value <==>
      x in atts && InOrganization(x.organization, req) && ContentMatches(x.contentType, x.objectId, types, ct, oid)
  {
    var q0 := Filter(atts, (x: Attachment) => InOrganization(x.organization, req));
    if ContentKeyMalformed(ct, oid) then None
    else if ContentFilter(ct, oid) then
      var k, o := Text.ParseInt(ct.value).value, oid.value;
      Some(Filter(q0, (x: Attachment) => HasContentType(x.contentType, types, k) && x.objectId == o))
    else Some(q0)
  }

  /**
   * Two spellings of the same content-type key (`7`, `07`, ` +7 `) list
   * the same notes and attachments.
   */
  lemma ContentKeySpelling(notes: seq<Note>, atts: seq<Attachment>, req: Requester, types: ContentTypes,
                           c1: string, c2: string, oid: Option<string>)
    requires Text.ParseInt(c1).Some? && Text.ParseInt(c1) == Text.ParseInt(c2)
    ensures NoteList(notes, req, types, Some(c1), oid) == NoteList(notes, req, types, Some(c2), oid)
    ensures AttachmentList(atts, req, types, Some(c1), oid) == AttachmentList(atts, req, types, Some(c2), oid)
  {
    ParsedIsGiven(c1);
    ParsedIsGiven(c2);
  }

  // ---------------------------------------------------------------------
  // Activities
  // ---------------------------------------------------------------------

  /**
   * The assignee rule: an explicit `assigned_to` wins, naming the assignee
   * by any spelling of its UUID; otherwise only one's own without
   * `view_all_activities`.
   */
  predicate AssigneeListed(a: Activity, req: Requester, assignedTo: Option<string>)
  {
    if Given(assignedTo) then Uuids.ParseUuid(assignedTo.value) == Some(a.assignedTo)
    else HasOrganizationPermission(req.user, "view_all_activities") || a.assignedTo == req.id
  }

  predicate StatusListed(a: Activity, status: Option<string>)
  {
    Given(status) ==> a.status == status.value
  }

  /** The composed condition of the activity list. */
  predicate ActivityListed(a: Activity, req: Requester, assignedTo: Option<string>, status: Option<string>,
                           types: ContentTypes, ct: Option<string>, oid: Option<string>)
  {
    InOrganization(a.organization, req) && AssigneeListed(a, req, assignedTo)
    && StatusListed(a, status) && ContentMatches(a.contentType, a.objectId, types, ct, oid)
  }

  /** The organization and assignee filters of the activity list; None is the server error of a malformed UUID. */
  function ActivitiesByAssignee(acts: seq<Activity>, req: Requester, assignedTo: Option<string>): Option<seq<Activity>>
  {
    var q0 := Filter(acts, (a: Activity) => InOrganization(a.organization, req));
    if AssigneeMalformed(assignedTo) then None
    else if Given(assignedTo) then
      var who := Uuids.ParseUuid(assignedTo.value).value;
      Some(Filter(q0, (a: Activity) => a.assignedTo == who))
    else if !HasOrganizationPermission(req.user, "view_all_activities") then
      Some(Filter(q0, (a: Activity) => a.assignedTo == req.id))
    else Some(q0)
  }

  /** The status filter, applied only when a status is given. */
  function ActivitiesByStatus(q: seq<Activity>, status: Option<string>): seq<Activity>
  {
    if Given(status) then
      var st := status.value;
      Filter(q, (a: Activity) => a.status == st)
    else q
  }

  /** The content filter, applied only when both parameters are given; None is the server error of a malformed content type. */
  function ActivitiesByContent(q: seq<Activity>, types: ContentTypes, ct: Option<string>, oid: Option<string>): Option<seq<Activity>>
  {
    if ContentKeyMalformed(ct, oid) then None
    else if ContentFilter(ct, oid) then
      var k, o := Text.ParseInt(ct.value).value, oid.value;
      Some(Filter(q, (a: Activity) => HasContentType(a.contentType, types, k) && a.objectId == o))
    else Some(q)
  }

  /** `ActivityListCreateView.get_queryset`, filter by filter. */
  function ActivityList(acts: seq<Activity>, req: Requester, assignedTo: Option<string>, status: Option<string>,
                        types: ContentTypes, ct: Option<string>, oid: Option<string>): Option<seq<Activity>>
  {
    match ActivitiesByAssignee(acts, req, assignedTo)
    case None => None
    case Some(q) => ActivitiesByContent(ActivitiesByStatus(q, status), types, ct, oid)
  }

  /**
   * The assignee step fails exactly on a malformed UUID, and otherwise is
   * one filter by the organization and assignee conditions.
   */
  lemma ActivitiesByAssigneeIsFilter(acts: seq<Activity>, req: Requester, assignedTo: Option<string>,
                                     who: Activity -> bool)
    requires forall a :: who(a) == (InOrganization(a.organization, req) && AssigneeListed(a, req, assignedTo))
    ensures ActivitiesByAssignee(acts, req, assignedTo).None? <==> AssigneeMalformed(assignedTo)
    ensures ActivitiesByAssignee(acts, req, assignedTo).Some? ==>
      ActivitiesByAssignee(acts, req, assignedTo).value == Filter(acts, who)
  {
    var org := (a: Activity) => InOrganization(a.organization, req);
    if AssigneeMalformed(assignedTo) {
    } else if Given(assignedTo) {
      var w := Uuids.ParseUuid(assignedTo.value).value;
      FilterThen(acts, org, (a: Activity) => a.assignedTo == w, who);
    } else if !HasOrganizationPermission(req.user, "view_all_activities") {
      FilterThen(acts, org, (a: Activity) => a.assignedTo == req.id, who);
    } else {
      FilterAgree(acts, org, who);
    }
  }

  lemma ActivitiesByStatusIsFilter(acts: seq<Activity>, p: Activity -> bool, status: Option<string>,
                                   pq: Activity -> bool)
    requires forall a :: pq(a) == (p(a) && StatusListed(a, status))
    ensures ActivitiesByStatus(Filter(acts, p), status) == Filter(acts, pq)
  {
    if Given(status) {
      var st := status.value;
      FilterThen(acts, p, (a: Activity) => a.status == st, pq);
    } else {
      FilterAgree(acts, p, pq);
    }
  }

  /**
   * The content step fails exactly on a malformed content type, and
   * otherwise is one filter by the conjunction.
   */
  lemma ActivitiesByContentIsFilter(acts: seq<Activity>, p: Activity -> bool, types: ContentTypes,
                                    ct: Option<string>, oid: Option<string>, pq: Activity -> bool)
    requires forall a :: pq(a) == (p(a) && ContentMatches(a.contentType, a.objectId, types, ct, oid))
    ensures ActivitiesByContent(Filter(acts, p), types, ct, oid).None? <==> ContentKeyMalformed(ct, oid)
    ensures ActivitiesByContent(Filter(acts, p), types, ct, oid).Some? ==>
      ActivitiesByContent(Filter(acts, p), types, ct, oid).value == Filter(acts, pq)
  {
    if ContentKeyMalformed(ct, oid) {
    } else if ContentFilter(ct, oid) {
      var k, o := Text.ParseInt(ct.value).value, oid.value;
      FilterThen(acts, p, (a: Activity) => HasContentType(a.contentType, types, k) && a.objectId == o, pq);
    } else {
      FilterAgree(acts, p, pq);
    }
  }

  /**
   * The activity list fails exactly when the assignee is not a UUID or the
   * content type is not an integer; otherwise it is one filter by the
   * composed condition, in order.
   */
  lemma ActivityListIsFilter(acts: seq<Activity>, req: Requester, assignedTo: Option<string>, status: Option<string>,
                             types: ContentTypes, ct: Option<string>, oid: Option<string>)
    ensures ActivityList(acts, req, assignedTo, status, types, ct, oid).None? <==>
      AssigneeMalformed(assignedTo) || ContentKeyMalformed(ct, oid)
    ensures ActivityList(acts, req, assignedTo, status, types, ct, oid).Some? ==>
      ActivityList(acts, req, assignedTo, status, types, ct, oid).value
        == Filter(acts, (a: Activity) => ActivityListed(a, req, assignedTo, status, types, ct, oid))
  {
    var who := (a: Activity) => InOrganization(a.organization, req) && AssigneeListed(a, req, assignedTo);
    var st := (a: Activity) => who(a) && StatusListed(a, status);
    ActivitiesByAssigneeIsFilter(acts, req, assignedTo, who);
    if !AssigneeMalformed(assignedTo) {
      ActivitiesByStatusIsFilter(acts, who, status, st);
      ActivitiesByContentIsFilter(acts, st, types, ct, oid,
                                  (a: Activity) => ActivityListed(a, req, assignedTo, status, types, ct, oid));
    }
  }

  /**
   * Without an `assigned_to` parameter anyone but the owner sees only
   * their own activities; with one, the UUID it spells decides whose
   * activities are listed, whatever the requester's permissions.
   */
  lemma ActivityListScope(a: Activity, req: Requester, assignedTo: Option<string>, status: Option<string>,
                          types: ContentTypes, ct: Option<string>, oid: Option<string>)
    requires ActivityListed(a, req, assignedTo, status, types, ct, oid)
    ensures InOrganization(a.organization, req)
    ensures Given(assignedTo) ==> Uuids.ParseUuid(assignedTo.value) == Some(a.assignedTo)
    ensures !Given(assignedTo) && req.user.role != "owner" ==> a.assignedTo == req.id
    ensures Given(status) ==> a.status == status.value
    ensures ContentFilter(ct, oid) ==>
      HasContentType(a.contentType, types, Text.ParseInt(ct.value).value) && a.objectId == oid.value
  {
    WidePermissionOwnerOnly(req.user, "view_all_activities");
  }

  /**
   * Two spellings of the same assignee UUID list the same activities; in
   * particular the upper-case spelling of a stored id lists that
   * assignee's activities, as the canonical one does.
   */
  lemma AssigneeSpelling(acts: seq<Activity>, req: Requester, w1: string, w2: string, status: Option<string>,
                         types: ContentTypes, ct: Option<string>, oid: Option<string>)
    requires Uuids.ParseUuid(w1).Some? && Uuids.ParseUuid(w1) == Uuids.ParseUuid(w2)
    ensures ActivityList(acts, req, Some(w1), status, types, ct, oid)
         == ActivityList(acts, req, Some(w2), status, types, ct, oid)
  {
    ParsedIsGiven(w1);
    ParsedIsGiven(w2);
  }

  /** The upper-case spelling of a canonical id lists the same activities as the id itself. */
  lemma UpperCaseAssignee(acts: seq<Activity>, req: Requester, id: Id, status: Option<string>,
                          types: ContentTypes, ct: Option<string>, oid: Option<string>)
    requires Uuids.IsCanonical(id)
    ensures ActivityList(acts, req, Some(Text.Upper(id)), status, types, ct, oid)
         == ActivityList(acts, req, Some(id), status, types, ct, oid)
  {
    Uuids.UpperCaseNamesSame(id);
    Uuids.CanonicalRoundTrip(id);
    AssigneeSpelling(acts, req, Text.Upper(id), id, status, types, ct, oid);
  }

  /** `ActivityDetailView.get_queryset`: the activities the requester may modify. */
  predicate ActivityModifiable(a: Activity, req: Requester)
  {
    InOrganization(a.organization, req)
    && (HasOrganizationPermission(req.user, "manage_all_activities") || a.assignedTo == req.id)
  }

  datatype CompleteOutcome = ActivityCompleted | CompleteForbidden | ActivityNotFound

  /** `complete_activity_view` on the stored activities. */
  function CompleteActivityEffect(acts: map<Id, Activity>, req: Requester, pk: Id, now: int): (r: (map<Id, Activity>, CompleteOutcome))
  {
    if pk !in acts || !InOrganization(acts[pk].organization, req) then (acts, ActivityNotFound)
    else if acts[pk].assignedTo != req.id && !HasOrganizationPermission(req.user, "manage_all_activities") then
      (acts, CompleteForbidden)
    else (acts[pk := MarkCompleted(acts[pk], now)], ActivityCompleted)
  }

  /**
   * Completing answers not-found for a missing or foreign activity, is
   * forbidden to anyone but the assignee and the owner, and otherwise
   * completes that one activity, which is then no longer overdue.
   */
  lemma CompleteActivityGuard(acts: map<Id, Activity>, req: Requester, pk: Id, now: int)
    ensures var (after, out) := CompleteActivityEffect(acts, req, pk, now);
      (out == ActivityNotFound <==> pk !in acts || !InOrganization(acts[pk].organization, req))
      && (out == CompleteForbidden <==>
            pk in acts && InOrganization(acts[pk].organization, req)
            && acts[pk].assignedTo != req.id && req.user.role != "owner")
      && (out != ActivityCompleted ==> after == acts)
      && (out == ActivityCompleted ==>
            after == acts[pk := MarkCompleted(acts[pk], now)]
            && ActivityModifiable(acts[pk], req)
            && forall t :: !IsOverdue(after[pk], t))
  {
    WidePermissionOwnerOnly(req.user, "manage_all_activities");
    var (after, out) := CompleteActivityEffect(acts, req, pk, now);
    if out == ActivityCompleted {
      forall t ensures !IsOverdue(after[pk], t) {
        CompletedNeverOverdue(acts[pk], now, t);
      }
    }
  }

  // ---------------------------------------------------------------------
  // Dashboards
  // ---------------------------------------------------------------------

  /** `DashboardListCreateView.get_queryset`. */
  predicate DashboardListed(d: Dashboard, req: Requester)
  {
    InOrganization(d.organization, req)
    && (!HasOrganizationPermission(req.user, "view_all_dashboards") ==> d.isShared || d.createdBy == Some(req.id))
  }

  /** `DashboardDetailView.get_queryset`. */
  predicate DashboardModifiable(d: Dashboard, req: Requester)
  {
    InOrganization(d.organization, req)
    && (!HasOrganizationPermission(req.user, "manage_all_dashboards") ==> d.createdBy == Some(req.id))
  }

  /**
   * Anyone but the owner sees the shared dashboards and their own, and
   * may modify only their own; every modifiable dashboard is listed.
   */
  lemma DashboardAccess(d: Dashboard, req: Requester)
    ensures req.user.role != "owner" ==>
      (DashboardListed(d, req) <==> InOrganization(d.organization, req) && (d.isShared || d.createdBy == Some(req.id)))
      && (DashboardModifiable(d, req) <==> InOrganization(d.organization, req) && d.createdBy == Some(req.id))
    ensures DashboardModifiable(d, req) ==> DashboardListed(d, req)
  {
    WidePermissionOwnerOnly(req.user, "view_all_dashboards");
    WidePermissionOwnerOnly(req.user, "manage_all_dashboards");
  }

  // ---------------------------------------------------------------------
  // Notifications
  // ---------------------------------------------------------------------

  /** `NotificationListView.get_queryset` on one notification. */
  predicate OwnNotification(n: Notification, req: Requester)
  {
    n.recipient == req.id && InOrganization(n.organization, req)
  }

  datatype ReadOutcome = NotificationRead | NotificationNotFound

  /** `mark_notification_read_view`. */
  function MarkReadEffect(ns: map<Id, Notification>, req: Requester, pk: Id, now: int): (r: (map<Id, Notification>, ReadOutcome))
  {
    if pk in ns && OwnNotification(ns[pk], req) then (ns[pk := MarkAsRead(ns[pk], now)], NotificationRead)
    else (ns, NotificationNotFound)
  }

  /**
   * A single read succeeds exactly on the requester's own notification in
   * their organization; it then marks only that one as read, and a second
   * read changes nothing more.
   */
  lemma MarkReadEffectSpec(ns: map<Id, Notification>, req: Requester, pk: Id, now: int, later: int)
    ensures var (after, out) := MarkReadEffect(ns, req, pk, now);
      (out == NotificationRead <==> pk in ns && OwnNotification(ns[pk], req))
      && after.Keys == ns.Keys
      && (forall id :: id in ns && id != pk ==> after[id] == ns[id])
      && (out == NotificationRead ==> after[pk].isRead && pk !in Unread(after, req))
      && (out == NotificationNotFound ==> after == ns)
      && MarkReadEffect(after, req, pk, later) == (after, out)
  {
    var (after, out) := MarkReadEffect(ns, req, pk, now);
    if out == NotificationRead {
      MarkAsReadIdempotent(ns[pk], now, later);
      assert MarkAsRead(after[pk], later) == after[pk];
      assert after[pk := after[pk]] == after;
    }
  }

  /** The requester's unread notifications in their organization. */
  function Unread(ns: map<Id, Notification>, req: Requester): set<Id>
  {
    set id | id in ns && OwnNotification(ns[id], req) && !ns[id].isRead
  }

  /** `mark_all_notifications_read_view`: one bulk update of the unread ones. */
  function MarkAllReadEffect(ns: map<Id, Notification>, req: Requester, now: int): (r: (map<Id, Notification>, nat))
  {
    (map id | id in ns :: if id in Unread(ns, req) then ns[id].(isRead := true, readAt := Some(now)) else ns[id],
     |Unread(ns, req)|)
  }

  /**
   * The bulk update marks exactly the requester's unread notifications as
   * `mark_as_read` would, reports how many, and leaves every other
   * notification alone; nothing is left unread, so doing it again
   * reports zero.
   */
  lemma MarkAllReadEffectSpec(ns: map<Id, Notification>, req: Requester, now: int)
    ensures var (after, count) := MarkAllReadEffect(ns, req, now);
      after.Keys == ns.Keys
      && count == |Unread(ns, req)|
      && (forall id :: id in Unread(ns, req) ==> after[id] == MarkAsRead(ns[id], now))
      && (forall id :: id in ns && id !in Unread(ns, req) ==> after[id] == ns[id])
      && Unread(after, req) == {}
  {
    var (after, count) := MarkAllReadEffect(ns, req, now);
    assert forall id :: id in after ==> id !in Unread(after, req);
  }

  /** A second bulk update in a row finds nothing to mark. */
  lemma MarkAllReadTwice(ns: map<Id, Notification>, req: Requester, first: int, second: int)
    ensures var after := MarkAllReadEffect(ns, req, first).0;
      MarkAllReadEffect(after, req, second) == (after, 0)
  {
    MarkAllReadEffectSpec(ns, req, first);
    var after := MarkAllReadEffect(ns, req, first).0;
    assert Unread(after, req) == {};
    var again := MarkAllReadEffect(after, req, second).0;
    assert again == after;
  }

  // ---------------------------------------------------------------------
  // Activity summary
  // ---------------------------------------------------------------------

  /** Seven days, in seconds. */
  const Week: int := 7 * 24 * 60 * 60

  /** Open and scheduled between now and a week from now, both ends included. */
  predicate Upcoming(a: Activity, now: int)
  {
    IsOpen(a.status) && now <= a.scheduledDate <= now + Week
  }

  datatype ActivitySummary = ActivitySummary(total: nat, completed: nat, overdue: nat, upcoming: nat, completionRate: real)

  /** The activities the summary counts: the organization's, or only the requester's. */
  function SummaryScope(acts: seq<Activity>, req: Requester): seq<Activity>
  {
    if HasOrganizationPermission(req.user, "view_all_activities") then
      Filter(acts, (a: Activity) => InOrganization(a.organization, req))
    else Filter(acts, (a: Activity) => InOrganization(a.organization, req) && a.assignedTo == req.id)
  }

  /** `activities.filter(status='completed').count()`. */
  function CompletedCount(s: seq<Activity>): nat
  {
    Count(s, (a: Activity) => a.status == "completed")
  }

  /** The overdue count: open and scheduled before now. */
  function OverdueCount(s: seq<Activity>, now: int): nat
  {
    Count(s, (a: Activity) => IsOpen(a.status) && a.scheduledDate < now)
  }

  /** The upcoming count: open and scheduled within the coming week. */
  function UpcomingCount(s: seq<Activity>, now: int): nat
  {
    Count(s, (a: Activity) => IsOpen(a.status) && a.scheduledDate >= now && a.scheduledDate <= now + Week)
  }

  /** `completed / total * 100`, or 0 when there is nothing to count. */
  function CompletionRate(completed: nat, total: nat): real
  {
    if total > 0 then completed as real / total as real * 100.0 else 0.0
  }

  /** `activity_summary_view` (the rate before rounding). */
  function Summary(acts: seq<Activity>, req: Requester, now: int): ActivitySummary
  {
    var s := SummaryScope(acts, req);
    ActivitySummary(|s|, CompletedCount(s), OverdueCount(s, now), UpcomingCount(s, now),
                    CompletionRate(CompletedCount(s), |s|))
  }

  /** The overdue count is the number of activities whose `is_overdue` holds. */
  lemma OverdueCountIsOverdue(s: seq<Activity>, now: int, late: Activity -> bool)
    requires forall a :: late(a) == IsOverdue(a, now)
    ensures OverdueCount(s, now) == Count(s, late)
  {
    FilterAgree(s, (a: Activity) => IsOpen(a.status) && a.scheduledDate < now, late);
  }

  lemma UpcomingCountIsUpcoming(s: seq<Activity>, now: int, soon: Activity -> bool)
    requires forall a :: soon(a) == Upcoming(a, now)
    ensures UpcomingCount(s, now) == Count(s, soon)
  {
    FilterAgree(s, (a: Activity) => IsOpen(a.status) && a.scheduledDate >= now && a.scheduledDate <= now + Week, soon);
  }

  /** Completed, overdue and upcoming activities are disjoint, so together they never exceed the total. */
  lemma SummaryBuckets(s: seq<Activity>, now: int)
    ensures CompletedCount(s) + OverdueCount(s, now) + UpcomingCount(s, now) <= |s|
  {
    var late := (a: Activity) => IsOverdue(a, now);
    var soon := (a: Activity) => Upcoming(a, now);
    OverdueCountIsOverdue(s, now, late);
    UpcomingCountIsUpcoming(s, now, soon);
    var lateOrSoon := (a: Activity) => late(a) || soon(a);
    CountDisjoint(s, late, soon, lateOrSoon);
    CountDisjoint(s, (a: Activity) => a.status == "completed", lateOrSoon,
                  (a: Activity) => a.status == "completed" || lateOrSoon(a));
  }

  /** The rate lies between 0 and 100 and is 0 when there is nothing to count. */
  lemma CompletionRateBounds(completed: nat, total: nat)
    requires completed <= total
    ensures 0.0 <= CompletionRate(completed, total) <= 100.0
    ensures total == 0 ==> CompletionRate(completed, total) == 0.0
    ensures completed == total && total > 0 ==> CompletionRate(completed, total) == 100.0
  {
    if total > 0 {
      ShareBounds(completed, total);
    }
  }

  /**
   * The summary's counts agree with `is_overdue` and the upcoming window,
   * the three buckets fit in the total, and the rate is a percentage.
   */
  lemma SummaryConsistent(acts: seq<Activity>, req: Requester, now: int)
    ensures var r := Summary(acts, req, now);
      r.completed + r.overdue + r.upcoming <= r.total
      && 0.0 <= r.completionRate <= 100.0
      && (r.total == 0 ==> r.completionRate == 0.0)
  {
    var s := SummaryScope(acts, req);
    SummaryBuckets(s, now);
    CompletionRateBounds(CompletedCount(s), |s|);
  }

  // ---------------------------------------------------------------------
  // Related objects
  // ---------------------------------------------------------------------

  datatype RelatedRequest = MissingParameters | LookUp(contentType: string, objectId: string)

  /** The guard of `related_objects_view`; the content-type lookup after it is not modelled. */
  function RelatedObjectsRequest(ct: Option<string>, oid: Option<string>): (r: RelatedRequest)
    ensures r == MissingParameters <==> !Given(ct) || !Given(oid)
    ensures r.LookUp? ==> r.contentType == ct.value && r.objectId == oid.value
  {
    if !Given(ct) || !Given(oid) then MissingParameters else LookUp(ct.value, oid.value)
  }

  /** The lookup goes ahead exactly when the list views would apply their content filter. */
  lemma RelatedAgreesWithListFilter(ct: Option<string>, oid: Option<string>)
    ensures RelatedObjectsRequest(ct, oid).LookUp? <==> ContentFilter(ct, oid)
  {
  }

  // ---------------------------------------------------------------------
  // The record store
  // ---------------------------------------------------------------------

  /** The stored activities and notifications the handlers change. */
  class CoreStore {
    var activities: map<Id, Activity>
    var notifications: map<Id, Notification>

    constructor (activities: map<Id, Activity>, notifications: map<Id, Notification>)
      ensures this.activities == activities && this.notifications == notifications
    {
      this.activities := activities;
      this.notifications := notifications;
    }

    method CompleteActivity(req: Requester, pk: Id, now: int) returns (out: CompleteOutcome)
      modifies this
      ensures notifications == old(notifications)
      ensures (activities, out) == CompleteActivityEffect(old(activities), req, pk, now)
    {
      if pk !in activities || !InOrganization(activities[pk].organization, req) {
        return ActivityNotFound;
      }
      var a := activities[pk];
      if a.assignedTo != req.id && !HasOrganizationPermission(req.user, "manage_all_activities") {
        return CompleteForbidden;
      }
      activities := activities[pk := MarkCompleted(a, now)];
      out := ActivityCompleted;
    }

    method MarkNotificationRead(req: Requester, pk: Id, now: int) returns (out: ReadOutcome)
      modifies this
      ensures activities == old(activities)
      ensures (notifications, out) == MarkReadEffect(old(notifications), req, pk, now)
    {
      if pk !in notifications || !OwnNotification(notifications[pk], req) {
        return NotificationNotFound;
      }
      notifications := notifications[pk := MarkAsRead(notifications[pk], now)];
      out := NotificationRead;
    }

    method MarkAllNotificationsRead(req: Requester, now: int) returns (count: nat)
      modifies this
      ensures activities == old(activities)
      ensures (notifications, count) == MarkAllReadEffect(old(notifications), req, now)
    {
      var unread := Unread(notifications, req);
      count := |unread|;
      notifications := map id | id in notifications ::
        if id in unread then notifications[id].(isRead := true, readAt := Some(now)) else notifications[id];
    }
  }
}
