/**
 * The UI Redux slice (`frontend/src/store/slices/uiSlice.ts`): the sidebar
 * and dark-mode flags, the notification list and the per-key loading map.
 * The browser's `localStorage` entry for the dark mode is modelled as a
 * value the store reads at start-up and writes on each dark-mode change;
 * the clock reading that names a notification is part of its action.
 */
module UiSlice {
  import opened Wrappers
  import opened Seqs
  import opened Text

  datatype Severity = Success | Error | Info | Warning

  datatype Notification = Notification(id: string, message: string, severity: Severity, autoHide: Option<bool>)

  /** The payload of `addNotification`: everything but the id. */
  datatype NotificationPayload = NotificationPayload(message: string, severity: Severity, autoHide: Option<bool>)

  datatype State = State(
    sidebarOpen: bool,
    darkMode: bool,
    notifications: seq<Notification>,
    loading: map<string, bool>)

  datatype Action =
    | ToggleSidebar
    | SetSidebarOpen(open: bool)
    | ToggleDarkMode
    | SetDarkMode(on: bool)
      /** `now` is the millisecond clock reading when the reducer runs. */
    | AddNotification(payload: NotificationPayload, now: nat)
    | RemoveNotification(id: string)
    | ClearNotifications
    | SetLoading(key: string, isLoading: bool)

  /** `b.toString()`. */
  function BoolText(b: bool): (r: string)
    ensures r == "true" <==> b
  {
    if b then "true" else "false"
  }

  /** The initial state, given the stored `darkMode` entry (`None` when there is none). */
  function InitialState(stored: Option<string>): (r: State)
    ensures r.sidebarOpen && r.notifications == [] && r.loading == map[]
    ensures r.darkMode <==> stored == Some("true")
  {
    State(true, stored == Some("true"), [], map[])
  }

  /** The entry the payload becomes, named by the clock reading in decimal. */
  function NewNotification(p: NotificationPayload, now: nat): (n: Notification)
    ensures n.id == NatToString(now)
    ensures n.message == p.message && n.severity == p.severity && n.autoHide == p.autoHide
  {
    Notification(NatToString(now), p.message, p.severity, p.autoHide)
  }

  /** The condition `notification.id !== id`. */
  function OtherNotification(id: string): Notification -> bool
  {
    (n: Notification) => n.id != id
  }

  /** The slice's reducer. */
  function Reduce(s: State, a: Action): State
  {
    match a
    case ToggleSidebar => s.(sidebarOpen := !s.sidebarOpen)
    case SetSidebarOpen(open) => s.(sidebarOpen := open)
    case ToggleDarkMode => s.(darkMode := !s.darkMode)
    case SetDarkMode(on) => s.(darkMode := on)
    case AddNotification(p, now) => s.(notifications := s.notifications + [NewNotification(p, now)])
    case RemoveNotification(id) => s.(notifications := Filter(s.notifications, OtherNotification(id)))
    case ClearNotifications => s.(notifications := [])
    case SetLoading(key, isLoading) => s.(loading := s.loading[key := isLoading])
  }

  /** The stored `darkMode` entry after the action: only the two dark-mode reducers write it. */
  function StoredAfter(s: State, stored: Option<string>, a: Action): (r: Option<string>)
    ensures !(a.ToggleDarkMode? || a.SetDarkMode?) ==> r == stored
  {
    match a
    case ToggleDarkMode => Some(BoolText(!s.darkMode))
    case SetDarkMode(on) => Some(BoolText(on))
    case _ => stored
  }

  /** The sidebar toggle flips only `sidebarOpen`, and toggling twice changes nothing. */
  lemma ToggleSidebarSpec(s: State)
    ensures Reduce(s, ToggleSidebar).sidebarOpen == !s.sidebarOpen
    ensures Reduce(s, ToggleSidebar) == s.(sidebarOpen := !s.sidebarOpen)
    ensures Reduce(Reduce(s, ToggleSidebar), ToggleSidebar) == s
  {
  }

  /** Setting the sidebar flag sets it to the payload and changes nothing else; setting it twice is setting it once. */
  lemma SetSidebarOpenSpec(s: State, open: bool)
    ensures Reduce(s, SetSidebarOpen(open)) == s.(sidebarOpen := open)
    ensures Reduce(Reduce(s, SetSidebarOpen(open)), SetSidebarOpen(open)) == Reduce(s, SetSidebarOpen(open))
  {
  }

  /** The dark-mode toggle flips only `darkMode`, and toggling twice changes nothing. */
  lemma ToggleDarkModeSpec(s: State)
    ensures Reduce(s, ToggleDarkMode) == s.(darkMode := !s.darkMode)
    ensures Reduce(Reduce(s, ToggleDarkMode), ToggleDarkMode) == s
  {
  }

  /**
   * After either dark-mode reducer the stored entry reloads to the flag
   * just set: a fresh start from it has the same dark mode.
   */
  lemma DarkModePersists(s: State, stored: Option<string>, a: Action)
    requires a.ToggleDarkMode? || a.SetDarkMode?
    ensures InitialState(StoredAfter(s, stored, a)).darkMode == Reduce(s, a).darkMode
    ensures a.SetDarkMode? ==> Reduce(s, a) == s.(darkMode := a.on)
  {
  }

  /**
   * Adding appends exactly one entry carrying the payload and the clock's
   * id; the earlier entries and the rest of the state are unchanged.
   */
  lemma AddNotificationSpec(s: State, p: NotificationPayload, now: nat)
    ensures var after := Reduce(s, AddNotification(p, now));
      |after.notifications| == |s.notifications| + 1
      && after.notifications[..|s.notifications|] == s.notifications
      && after.notifications[|s.notifications|] == Notification(NatToString(now), p.message, p.severity, p.autoHide)
      && after.sidebarOpen == s.sidebarOpen && after.darkMode == s.darkMode && after.loading == s.loading
  {
    var n := NewNotification(p, now);
    assert (s.notifications + [n])[..|s.notifications|] == s.notifications;
  }

  /**
   * Removing drops every entry with the id and keeps the others in their
   * order; when no entry has the id the state is unchanged.
   */
  lemma RemoveNotificationSpec(s: State, id: string)
    ensures var after := Reduce(s, RemoveNotification(id));
      (forall n :: n in after.notifications <==> n in s.notifications && n.id != id)
      && Subsequence(after.notifications, s.notifications)
      && after == s.(notifications := after.notifications)
    ensures (forall i :: 0 <= i < |s.notifications| ==> s.notifications[i].id != id) ==>
      Reduce(s, RemoveNotification(id)) == s
  {
    FilterIsSubsequence(s.notifications, OtherNotification(id));
    if forall i :: 0 <= i < |s.notifications| ==> s.notifications[i].id != id {
      FilterAll(s.notifications, OtherNotification(id));
    }
  }

  /**
   * Removing by the id of an entry just added undoes the addition, and
   * removes every earlier entry added at the same clock reading.
   */
  lemma RemoveUndoesAdd(s: State, p: NotificationPayload, now: nat)
    ensures Reduce(Reduce(s, AddNotification(p, now)), RemoveNotification(NatToString(now)))
         == Reduce(s, RemoveNotification(NatToString(now)))
  {
    var n := NewNotification(p, now);
    var l := s.notifications + [n];
    assert l[..|l| - 1] == s.notifications;
  }

  /** Clearing empties the list and keeps everything else. */
  lemma ClearNotificationsSpec(s: State)
    ensures Reduce(s, ClearNotifications).notifications == []
    ensures Reduce(s, ClearNotifications) == s.(notifications := [])
  {
  }

  /** Setting a loading key writes that key only. */
  lemma SetLoadingSpec(s: State, key: string, isLoading: bool)
    ensures var after := Reduce(s, SetLoading(key, isLoading));
      key in after.loading && after.loading[key] == isLoading
      && after.loading.Keys == s.loading.Keys + {key}
      && (forall k :: k in s.loading && k != key ==> after.loading[k] == s.loading[k])
      && after == s.(loading := after.loading)
  {
  }

  /** The store: the slice state and the stored dark-mode entry, changed in place by each dispatched action. */
  class Store {
    var sidebarOpen: bool
    var darkMode: bool
    var notifications: seq<Notification>
    var loading: map<string, bool>
    /** The browser's `localStorage.getItem('darkMode')`. */
    var storedDarkMode: Option<string>

    function Snapshot(): State
      reads this
    {
      State(sidebarOpen, darkMode, notifications, loading)
    }

    constructor (stored: Option<string>)
      ensures Snapshot() == InitialState(stored)
      ensures storedDarkMode == stored
    {
      sidebarOpen := true;
      darkMode := stored == Some("true");
      notifications := [];
      loading := map[];
      storedDarkMode := stored;
    }

    /** `dispatch(action)`. */
    method Dispatch(a: Action)
      modifies this
      ensures Snapshot() == Reduce(old(Snapshot()), a)
      ensures storedDarkMode == StoredAfter(old(Snapshot()), old(storedDarkMode), a)
    {
      match a {
        case ToggleSidebar => sidebarOpen := !sidebarOpen;
        case SetSidebarOpen(open) => sidebarOpen := open;
        case ToggleDarkMode =>
          darkMode := !darkMode;
          storedDarkMode := Some(BoolText(darkMode));
        case SetDarkMode(on) =>
          darkMode := on;
          storedDarkMode := Some(BoolText(on));
        case AddNotification(p, now) =>
          var id := NatToString(now);
          notifications := notifications + [Notification(id, p.message, p.severity, p.autoHide)];
        case RemoveNotification(id) => notifications := Filter(notifications, OtherNotification(id));
        case ClearNotifications => notifications := [];
        case SetLoading(key, isLoading) => loading := loading[key := isLoading];
      }
    }
  }
}
