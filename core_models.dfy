/**
 * The shared records every module attaches to its own objects: notes,
 * attachments and activities linked through a content type and object
 * id, personal dashboards, notifications and system log entries, with
 * the overdue rule, activity completion and the read marker.
 * Timestamps are integer seconds.
 */
module CoreModels {
  import opened Wrappers
  import opened Text
  import opened AuthModels

  /**
   * A note on any record; `contentType` is the model label of the record's
   * content type, and `createdBy` is empty once its author is deleted.
   */
  datatype Note = Note(
    organization: Id,
    content: string,
    isPrivate: bool,
    contentType: string,
    objectId: string,
    createdBy: Option<Id>)

  datatype Attachment = Attachment(
    organization: Id,
    name: string,
    contentType: string,
    objectId: string,
    createdBy: Option<Id>)

  datatype Activity = Activity(
    organization: Id,
    title: string,
    status: string,
    scheduledDate: int,
    completedDate: Option<int>,
    assignedTo: Id,
    contentType: string,
    objectId: string)

  /** The statuses `is_overdue` and the activity summary treat as still open. */
  predicate IsOpen(status: string)
  {
    status in ["planned", "in_progress"]
  }

  /** `Activity.is_overdue`. */
  predicate IsOverdue(a: Activity, now: int)
  {
    IsOpen(a.status) && a.scheduledDate < now
  }

  /** An open activity that is overdue stays overdue as the clock advances. */
  lemma OverdueStaysOverdue(a: Activity, now: int, later: int)
    requires IsOverdue(a, now) && now <= later
    ensures IsOverdue(a, later)
  {
  }

  /** `Activity.mark_completed`: status and completion stamp, nothing else. */
  function MarkCompleted(a: Activity, now: int): (r: Activity)
    ensures r.status == "completed" && r.completedDate == Some(now)
    ensures r.(status := a.status, completedDate := a.completedDate) == a
  {
    a.(status := "completed", completedDate := Some(now))
  }

  /** A completed activity is never overdue, whatever the clock says. */
  lemma CompletedNeverOverdue(a: Activity, now: int, t: int)
    ensures !IsOverdue(MarkCompleted(a, now), t)
  {
  }

  /**
   * Unlike the read marker, completing twice is not a no-op: the second
   * call moves the completion stamp to its own time.
   */
  lemma CompletingAgainRestamps(a: Activity, first: int, second: int)
    ensures MarkCompleted(MarkCompleted(a, first), second) == MarkCompleted(a, second)
    ensures first != second ==> MarkCompleted(MarkCompleted(a, first), second) != MarkCompleted(a, first)
  {
  }

  datatype Dashboard = Dashboard(organization: Id, name: string, isShared: bool, createdBy: Option<Id>)

  datatype Notification = Notification(
    organization: Id,
    recipient: Id,
    title: string,
    message: string,
    isRead: bool,
    readAt: Option<int>)

  /** `Notification.mark_as_read`: only an unread notification is stamped. */
  function MarkAsRead(n: Notification, now: int): (r: Notification)
    ensures r.isRead
    ensures n.isRead ==> r == n
    ensures !n.isRead ==> r == n.(isRead := true, readAt := Some(now))
  {
    if !n.isRead then n.(isRead := true, readAt := Some(now)) else n
  }

  /** Marking read a second time changes nothing and keeps the first stamp. */
  lemma MarkAsReadIdempotent(n: Notification, first: int, second: int)
    ensures MarkAsRead(MarkAsRead(n, first), second) == MarkAsRead(n, first)
    ensures !n.isRead ==> MarkAsRead(MarkAsRead(n, first), second).readAt == Some(first)
  {
  }

  datatype SystemLog = SystemLog(level: string, message: string, source: string)

  /** `SystemLog.__str__`. */
  function SystemLogText(l: SystemLog): (r: string)
  {
    "[" + Upper(l.level) + "] " + Take(l.message, 50)
  }

  /**
   * The text is the bracketed upper-cased level, a space, and the first
   * fifty characters of the message (all of it when shorter).
   */
  lemma SystemLogTextShape(l: SystemLog)
    ensures var r := SystemLogText(l);
      var head := |l.level| + 3;
      |r| == head + (if |l.message| <= 50 then |l.message| else 50)
      && r[0] == '[' && r[head - 2] == ']' && r[head - 1] == ' '
      && (forall i :: 0 <= i < |l.level| ==> r[i + 1] == UpperChar(l.level[i]))
      && r[head..] <= l.message
  {
    var r := SystemLogText(l);
    var u := Upper(l.level);
    assert r == ("[" + u + "] ") + Take(l.message, 50);
    assert r[|l.level| + 3..] == Take(l.message, 50);
  }
}
