/** The leads list: every client inquiry newest first, shown as an accordion
    in which tapping a card expands it and tapping it again collapses it,
    with a row of filter chips above the list. */
module Leads {
  import opened JsValues
  import opened Supabase

  /** The four filter chips, in the order they are shown. */
  datatype Filter = All | New | Contacted | Booked

  function FilterLabel(f: Filter): (text: string)
    ensures text in ["All", "New", "Contacted", "Booked"]
    ensures f == All <==> text == "All"
    ensures f == New <==> text == "New"
    ensures f == Contacted <==> text == "Contacted"
    ensures f == Booked <==> text == "Booked"
  {
    match f
    case All => "All"
    case New => "New"
    case Contacted => "Contacted"
    case Booked => "Booked"
  }

  /** A chip is drawn active when its label is the active filter's. Exactly one
      chip is active, whichever filter is selected. */
  lemma ExactlyOneChipActive(active: Filter, f: Filter)
    ensures FilterLabel(f) == FilterLabel(active) <==> f == active
  {
  }

  /** The query `fetchLeads` issues. */
  const LeadsQuery: Call :=
    Call("client_inquiries", [Select("*", Undefined), Order("createdAt", false)])

  /** `toggleExpand(id)`: the expanded id after tapping the card whose id is
      `id` (`expandedId === id ? null : id`). */
  function Toggled(expanded: Value, id: Value): (r: Value)
    ensures r == Null <==> expanded == id || id == Null
    ensures r != Null ==> r == id
  {
    if expanded == id then Null else id
  }

  /** A card is drawn expanded when its id equals the expanded id. */
  predicate IsExpanded(expanded: Value, item: Value) {
    Member(item, "id") == Some(expanded)
  }

  /** A list whose cards all have a defined, distinct id, as the list's key
      extractor (`item.id.toString()`) requires. */
  predicate WellKeyed(items: seq<Value>) {
    (forall k :: 0 <= k < |items| ==>
       Member(items[k], "id").Some? && Member(items[k], "id").value != Undefined && Member(items[k], "id").value != Null)
    && (forall j, k :: 0 <= j < k < |items| ==> Member(items[j], "id") != Member(items[k], "id"))
  }

  /** At most one card of a well-keyed list is expanded at any time. */
  lemma AtMostOneExpanded(items: seq<Value>, expanded: Value, j: nat, k: nat)
    requires WellKeyed(items)
    requires j < |items| && k < |items|
    requires IsExpanded(expanded, items[j]) && IsExpanded(expanded, items[k])
    ensures j == k
  {
  }

  /** Tapping a card flips that card, and afterwards no other card of a
      well-keyed list is expanded. */
  lemma ToggleFlips(expanded: Value, item: Value, other: Value)
    requires Member(item, "id").Some? && Member(other, "id").Some?
    requires Member(item, "id").value != Null && Member(other, "id").value != Null
    requires Member(other, "id") != Member(item, "id")
    ensures IsExpanded(Toggled(expanded, Member(item, "id").value), item) <==> !IsExpanded(expanded, item)
    ensures !IsExpanded(Toggled(expanded, Member(item, "id").value), other)
  {
  }

  /** Tapping the same card twice from the collapsed state collapses it again. */
  lemma ToggleTwice(id: Value)
    ensures Toggled(Toggled(Null, id), id) == Null
  {
  }

  /** With nothing expanded, no card of a well-keyed list is drawn expanded. */
  lemma CollapsedShowsNone(items: seq<Value>, k: nat)
    requires WellKeyed(items) && k < |items|
    ensures !IsExpanded(Null, items[k])
  {
  }

  /** On the mock the inquiries table is unknown (its canned rows are filed
      under 'leads'), so the list comes back empty. */
  lemma MockLeadsEmpty(loadedAt: int, prev: Value)
    ensures ListAfter(prev, MockAwait(loadedAt, LeadsQuery)) == Arr([])
  {
    assert LeadsQuery.ops == [Select("*", Undefined)] + [Order("createdAt", false)];
    MockOrder(loadedAt, "client_inquiries", [Select("*", Undefined)], "createdAt", false);
  }

  class LeadsScreen {
    var leads: Value
    var loading: bool
    var refreshing: bool
    var expandedId: Value
    var activeFilter: Filter

    constructor ()
      ensures leads == Arr([]) && loading && !refreshing && expandedId == Null && activeFilter == All
    {
      leads, loading, refreshing, expandedId, activeFilter := Arr([]), true, false, Null, All;
    }

    /** The part of `fetchLeads` after its query settles: only the list and
        the two indicators change, and both indicators end off. */
    method ReceiveLeads(answer: Settled)
      modifies this`leads, this`loading, this`refreshing
      ensures leads == ListAfter(old(leads), answer)
      ensures !loading && !refreshing
    {
      if !Fails(answer) {
        leads := Or(answer.reply.data, Arr([]));
      }
      loading := false;
      refreshing := false;
    }

    /** `fetchLeads` run to completion against `backend`. */
    method FetchLeads(backend: Backend) returns (query: Call)
      modifies this`leads, this`loading, this`refreshing
      ensures query == LeadsQuery
      ensures leads == ListAfter(old(leads), backend(query))
      ensures !loading && !refreshing
    {
      query := LeadsQuery;
      ReceiveLeads(backend(query));
    }

    /** `onRefresh` up to the point where the fetch it starts is waiting on
        the backend: the indicator is on, any expanded card is collapsed, and
        the query is out; `ReceiveLeads` completes it. */
    method OnRefresh() returns (query: Call)
      modifies this`refreshing, this`expandedId
      ensures refreshing && expandedId == Null && query == LeadsQuery
    {
      refreshing := true;
      query := LeadsQuery;
      expandedId := Null;
    }

    /** `toggleExpand(id)`. */
    method ToggleExpand(id: Value)
      modifies this`expandedId
      ensures expandedId == Toggled(old(expandedId), id)
      ensures expandedId == Null || expandedId == id
    {
      if expandedId == id {
        expandedId := Null;
      } else {
        expandedId := id;
      }
    }

    /** Tapping a filter chip: the chip becomes active; the list shown is
        `leads` whatever the filter, and it does not change. */
    method SetFilter(f: Filter)
      modifies this`activeFilter
      ensures activeFilter == f && leads == old(leads) && expandedId == old(expandedId)
    {
      activeFilter := f;
    }
  }
}
