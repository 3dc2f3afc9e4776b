/**
 * The CRM Redux slice (`frontend/src/store/slices/crmSlice.ts`): contacts,
 * leads and opportunities share one set of reducer cases, parameterised
 * here by the kind of record.  Campaigns and sales stages have no thunk,
 * and the conversion and stage-update thunks have no case.
 */
module CrmSlice {
  import opened Wrappers
  import opened Seqs
  import opened SliceLists

  datatype Kind = Contacts | Leads | Opportunities

  /** The thunks whose actions no reducer case mentions. */
  datatype Unhandled = ConvertLead | UpdateOpportunityStage

  datatype Thunk =
    | FetchList(kind: Kind)
    | FetchItem(kind: Kind)
    | FetchStats
    | Create(kind: Kind)
    | Update(kind: Kind)
    | Delete(kind: Kind)
    | Other(unhandled: Unhandled)

  /** The fetches, whose pending and rejected cases track loading and the error. */
  predicate IsFetch(t: Thunk)
  {
    t.FetchList? || t.FetchItem? || t.FetchStats?
  }

  datatype Action =
    | ClearError
    | ClearCurrent(kind: Kind)
    | Pending(thunk: Thunk)
    | Rejected(thunk: Thunk, message: string)
    | ListFetched(kind: Kind, payload: ListPayload)
    | ItemFetched(kind: Kind, record: Record)
    | StatsFetched(stats: Record)
    | Created(kind: Kind, record: Record)
    | Updated(kind: Kind, record: Record)
    | Deleted(kind: Kind, id: string)
    | OtherFulfilled(unhandled: Unhandled)

  datatype State = State(
    contacts: seq<Record>,
    leads: seq<Record>,
    opportunities: seq<Record>,
    campaigns: seq<Record>,
    salesStages: seq<Record>,
    stats: Option<Record>,
    currentContact: Option<Record>,
    currentLead: Option<Record>,
    currentOpportunity: Option<Record>,
    isLoading: bool,
    error: Option<string>)

  function InitialState(): State
  {
    State([], [], [], [], [], None, None, None, None, false, None)
  }

  function ListIn(s: State, k: Kind): seq<Record>
  {
    match k
    case Contacts => s.contacts
    case Leads => s.leads
    case Opportunities => s.opportunities
  }

  function CurrentIn(s: State, k: Kind): Option<Record>
  {
    match k
    case Contacts => s.currentContact
    case Leads => s.currentLead
    case Opportunities => s.currentOpportunity
  }

  function WithList(s: State, k: Kind, items: seq<Record>): (r: State)
    ensures ListIn(r, k) == items
    ensures forall other :: other != k ==> ListIn(r, other) == ListIn(s, other)
    ensures forall other :: CurrentIn(r, other) == CurrentIn(s, other)
    ensures r.isLoading == s.isLoading && r.error == s.error
  {
    match k
    case Contacts => s.(contacts := items)
    case Leads => s.(leads := items)
    case Opportunities => s.(opportunities := items)
  }

  function WithCurrent(s: State, k: Kind, c: Option<Record>): (r: State)
    ensures CurrentIn(r, k) == c
    ensures forall other :: other != k ==> CurrentIn(r, other) == CurrentIn(s, other)
    ensures forall other :: ListIn(r, other) == ListIn(s, other)
    ensures r.isLoading == s.isLoading && r.error == s.error
  {
    match k
    case Contacts => s.(currentContact := c)
    case Leads => s.(currentLead := c)
    case Opportunities => s.(currentOpportunity := c)
  }

  /** The slice's reducer. */
  function Reduce(s: State, a: Action): State
  {
    match a
    case ClearError => s.(error := None)
    case ClearCurrent(k) => WithCurrent(s, k, None)
    case Pending(t) => if IsFetch(t) then s.(isLoading := true, error := None) else s
    case Rejected(t, message) => if IsFetch(t) then s.(isLoading := false, error := Some(message)) else s
    case ListFetched(k, payload) => WithList(s.(isLoading := false), k, ListOf(payload))
    case ItemFetched(k, r) => WithCurrent(s.(isLoading := false), k, Some(r))
    case StatsFetched(stats) => s.(isLoading := false, stats := Some(stats))
    case Created(k, r) => WithList(s, k, ListIn(s, k) + [r])
    case Updated(k, r) => WithCurrent(WithList(s, k, ReplaceById(ListIn(s, k), r)), k, Some(r))
    case Deleted(k, id) => WithCurrent(WithList(s, k, RemoveById(ListIn(s, k), id)), k, ClearIfCurrent(CurrentIn(s, k), id))
    case OtherFulfilled(_) => s
  }

  /**
   * Pending and rejected fetches set and clear the loading flag and the
   * error and nothing else; those of the create, update, delete,
   * conversion and stage-update thunks change nothing.
   */
  lemma LoadingFlags(s: State, t: Thunk, message: string)
    ensures IsFetch(t) ==> Reduce(s, Pending(t)) == s.(isLoading := true, error := None)
    ensures IsFetch(t) ==> Reduce(s, Rejected(t, message)) == s.(isLoading := false, error := Some(message))
    ensures !IsFetch(t) ==> Reduce(s, Pending(t)) == s && Reduce(s, Rejected(t, message)) == s
  {
  }

  /** A created record is appended to its own list; no other list or shown record changes, nor the flags. */
  lemma CreatedSpec(s: State, k: Kind, r: Record)
    ensures var after := Reduce(s, Created(k, r));
      ListIn(after, k) == ListIn(s, k) + [r]
      && (forall other :: other != k ==> ListIn(after, other) == ListIn(s, other))
      && (forall other :: CurrentIn(after, other) == CurrentIn(s, other))
      && after.isLoading == s.isLoading && after.error == s.error
  {
  }

  /**
   * An update keeps the list's length, replaces the first record with the
   * payload's id, or nothing when there is none, and shows the payload;
   * the other kinds are untouched.
   */
  lemma UpdatedSpec(s: State, k: Kind, r: Record)
    ensures var after := Reduce(s, Updated(k, r));
      |ListIn(after, k)| == |ListIn(s, k)| && CurrentIn(after, k) == Some(r)
      && ((forall i :: 0 <= i < |ListIn(s, k)| ==> ListIn(s, k)[i].id != r.id) ==> ListIn(after, k) == ListIn(s, k))
      && (forall i :: 0 <= i < |ListIn(s, k)| && i != FindIndex(ListIn(s, k), r.id) ==>
            ListIn(after, k)[i] == ListIn(s, k)[i])
      && (forall other :: other != k ==> ListIn(after, other) == ListIn(s, other)
                                         && CurrentIn(after, other) == CurrentIn(s, other))
  {
    ReplaceByIdSpec(ListIn(s, k), r);
  }

  /**
   * A delete removes every record of that kind with the id, keeps the rest
   * in order, and clears the shown record exactly when it has the id; the
   * other kinds are untouched.
   */
  lemma DeletedSpec(s: State, k: Kind, id: string)
    ensures var after := Reduce(s, Deleted(k, id));
      ListIn(after, k) == RemoveById(ListIn(s, k), id)
      && (forall x :: x in ListIn(after, k) <==> x in ListIn(s, k) && x.id != id)
      && Subsequence(ListIn(after, k), ListIn(s, k))
    ensures var after := Reduce(s, Deleted(k, id));
      (CurrentIn(after, k).None? <==> CurrentIn(s, k).None? || CurrentIn(s, k).value.id == id)
      && (forall other :: other != k ==> ListIn(after, other) == ListIn(s, other)
                                         && CurrentIn(after, other) == CurrentIn(s, other))
  {
    RemoveByIdSpec(ListIn(s, k), id);
  }

  /** Each `clear*` reducer resets one field; a conversion or stage update leaves the state alone. */
  lemma ClearAndIgnored(s: State, k: Kind, u: Unhandled)
    ensures Reduce(s, ClearError) == s.(error := None)
    ensures CurrentIn(Reduce(s, ClearCurrent(k)), k).None?
    ensures forall other :: other != k ==> CurrentIn(Reduce(s, ClearCurrent(k)), other) == CurrentIn(s, other)
    ensures Reduce(s, OtherFulfilled(u)) == s
  {
  }

  /** The store: the slice state, changed in place by each dispatched action. */
  class Store {
    var contacts: seq<Record>
    var leads: seq<Record>
    var opportunities: seq<Record>
    var campaigns: seq<Record>
    var salesStages: seq<Record>
    var stats: Option<Record>
    var currentContact: Option<Record>
    var currentLead: Option<Record>
    var currentOpportunity: Option<Record>
    var isLoading: bool
    var error: Option<string>

    function Snapshot(): State
      reads this
    {
      State(contacts, leads, opportunities, campaigns, salesStages, stats,
            currentContact, currentLead, currentOpportunity, isLoading, error)
    }

    constructor ()
      ensures Snapshot() == InitialState()
    {
      contacts, leads, opportunities, campaigns, salesStages := [], [], [], [], [];
      stats, currentContact, currentLead, currentOpportunity := None, None, None, None;
      isLoading, error := false, None;
    }

    method SetList(k: Kind, items: seq<Record>)
      modifies this
      ensures Snapshot() == WithList(old(Snapshot()), k, items)
    {
      match k {
        case Contacts => contacts := items;
        case Leads => leads := items;
        case Opportunities => opportunities := items;
      }
    }

    method SetCurrent(k: Kind, c: Option<Record>)
      modifies this
      ensures Snapshot() == WithCurrent(old(Snapshot()), k, c)
    {
      match k {
        case Contacts => currentContact := c;
        case Leads => currentLead := c;
        case Opportunities => currentOpportunity := c;
      }
    }

    /** `dispatch(action)`. */
    method Dispatch(a: Action)
      modifies this
      ensures Snapshot() == Reduce(old(Snapshot()), a)
    {
      match a {
        case ClearError => error := None;
        case ClearCurrent(k) => SetCurrent(k, None);
        case Pending(t) =>
          if IsFetch(t) {
            isLoading := true;
            error := None;
          }
        case Rejected(t, message) =>
          if IsFetch(t) {
            isLoading := false;
            error := Some(message);
          }
        case ListFetched(k, payload) =>
          isLoading := false;
          SetList(k, ListOf(payload));
        case ItemFetched(k, r) =>
          isLoading := false;
          SetCurrent(k, Some(r));
        case StatsFetched(st) =>
          isLoading := false;
          stats := Some(st);
        case Created(_, _) => RecordAction(a);
        case Updated(_, _) => RecordAction(a);
        case Deleted(_, _) => RecordAction(a);
        case OtherFulfilled(_) =>
      }
    }

    /** The create, update and delete cases, on the list of the record's kind. */
    method RecordAction(a: Action)
      requires a.Created? || a.Updated? || a.Deleted?
      modifies this
      ensures Snapshot() == Reduce(old(Snapshot()), a)
    {
      var list := ListIn(Snapshot(), a.kind);
      match a {
        case Created(k, r) => SetList(k, list + [r]);
        case Updated(k, r) =>
          var index := FindIndex(list, r.id);
          if index != -1 {
            SetList(k, list[index := r]);
          }
          SetCurrent(k, Some(r));
        case Deleted(k, id) =>
          SetList(k, RemoveById(list, id));
          var current := CurrentIn(Snapshot(), k);
          if current.Some? && current.value.id == id {
            SetCurrent(k, None);
          }
      }
    }
  }
}
