/** The Events page: the event list, newest first, with a text search and status facets, and
    the handlers that change an event's status or delete it through the event service. */
module Events {
  import opened Wrappers
  import opened Text
  import opened Lists
  import opened Records
  import opened Entities
  import Store
  import EventService

  /** `result.sort((a, b) => new Date(b.date) - new Date(a.date))`: a permutation of the store's
      list, newest first, and events on the same date keep the store's order. */
  function SortEvents(events: seq<Event>): (r: seq<Event>)
    ensures multiset(r) == multiset(events)
    ensures forall i, j :: 0 <= i < j < |r| ==> r[i].date >= r[j].date
    ensures forall d :: WithKey(r, EventDate, d) == WithKey(events, EventDate, d)
  {
    AtLeastTotalPreorder();
    SortBySorted(events, EventDate, AtLeast);
    TotalPreorderReflexive(AtLeast);
    forall d ensures WithKey(SortBy(events, EventDate, AtLeast), EventDate, d) == WithKey(events, EventDate, d) {
      SortByStable(events, EventDate, AtLeast, d);
    }
    SortBy(events, EventDate, AtLeast)
  }

  /** The search test for an already lower-cased `term`: title, location or notes; an event
      without notes is matched on its title and location alone. */
  predicate MatchesSearch(e: Event, term: string) {
    Includes(Lower(e.title), term) || Includes(Lower(e.location), term) ||
    (e.notes.Some? && Includes(Lower(e.notes.value), term))
  }

  function SearchTest(term: string): Event -> bool {
    (e: Event) => MatchesSearch(e, term)
  }

  function FacetTest(activeFilters: seq<string>): Event -> bool {
    (e: Event) => e.status in activeFilters
  }

  predicate Shows(e: Event, searchTerm: string, activeFilters: seq<string>) {
    (searchTerm != "" ==> MatchesSearch(e, Lower(searchTerm))) &&
    (activeFilters != [] ==> e.status in activeFilters)
  }

  /** What `filterEvents` shows: the events that pass the search and the status facets, in the
      list's order. */
  function EventView(events: seq<Event>, searchTerm: string, activeFilters: seq<string>): (r: seq<Event>)
    ensures IsSubsequence(r, events)
    ensures forall i :: 0 <= i < |r| ==>
      r[i] in events && Shows(r[i], searchTerm, activeFilters)
    ensures forall i :: 0 <= i < |events| && Shows(events[i], searchTerm, activeFilters) ==>
      events[i] in r
    ensures searchTerm == "" && activeFilters == [] ==> r == events
  {
    var searched := FilterWhen(searchTerm != "", events, SearchTest(Lower(searchTerm)));
    var r := FilterWhen(activeFilters != [], searched, FacetTest(activeFilters));
    SubsequenceTransitive(r, searched, events);
    r
  }

  /** The filter keeps every copy of an event that passes it and no copy of one that does not: it neither drops a match nor introduces a duplicate. */
  lemma EventViewCounts(events: seq<Event>, searchTerm: string, activeFilters: seq<string>, x: Event)
    ensures multiset(EventView(events, searchTerm, activeFilters))[x] ==
      if Shows(x, searchTerm, activeFilters) then multiset(events)[x] else 0
  {
    var searched := FilterWhen(searchTerm != "", events, SearchTest(Lower(searchTerm)));
    FilterWhenMultiplicity(searchTerm != "", events, SearchTest(Lower(searchTerm)), x);
    FilterWhenMultiplicity(activeFilters != [], searched, FacetTest(activeFilters), x);
  }

  /** Filtering keeps the list newest first. */
  lemma EventViewSorted(events: seq<Event>, searchTerm: string, activeFilters: seq<string>)
    requires SortedBy(events, EventDate, AtLeast)
    ensures SortedBy(EventView(events, searchTerm, activeFilters), EventDate, AtLeast)
  {
    var searched := FilterWhen(searchTerm != "", events, SearchTest(Lower(searchTerm)));
    if searchTerm != "" {
      FilterSorted(events, SearchTest(Lower(searchTerm)), EventDate, AtLeast);
    }
    if activeFilters != [] {
      FilterSorted(searched, FacetTest(activeFilters), EventDate, AtLeast);
    }
  }

  /** `events.map(event => event.Id === eventId ? { ...event, status: newStatus } : event)`. */
  function WithStatus(events: seq<Event>, id: int, status: string): (r: seq<Event>)
    ensures |r| == |events|
    ensures forall i :: 0 <= i < |events| ==> r[i].Id == events[i].Id
    ensures forall i :: 0 <= i < |events| ==>
      r[i].status == (if events[i].Id == id then status else events[i].status)
    ensures forall i :: 0 <= i < |events| ==> r[i].(status := events[i].status) == events[i]
  {
    if events == [] then []
    else
      var head := if events[0].Id == id then events[0].(status := status) else events[0];
      [head] + WithStatus(events[1..], id, status)
  }

  /** Only the last of two status changes to the same event is visible. */
  lemma WithStatusLastWins(events: seq<Event>, id: int, first: string, second: string)
    ensures WithStatus(WithStatus(events, id, first), id, second) == WithStatus(events, id, second)
  {
    var a := WithStatus(WithStatus(events, id, first), id, second);
    var b := WithStatus(events, id, second);
    forall i | 0 <= i < |events| ensures a[i] == b[i] {
      assert a[i].(status := events[i].status) == events[i];
    }
  }

  /** A status change keeps the list's order by date. */
  lemma WithStatusSorted(events: seq<Event>, id: int, status: string)
    requires SortedBy(events, EventDate, AtLeast)
    ensures SortedBy(WithStatus(events, id, status), EventDate, AtLeast)
  {
    var r := WithStatus(events, id, status);
    forall i | 0 <= i < |r| ensures r[i].date == events[i].date {
      assert r[i].(status := events[i].status) == events[i];
    }
  }

  function OtherId(id: int): Event -> bool {
    (e: Event) => e.Id != id
  }

  /** `events.filter(event => event.Id !== eventId)`: every occurrence of every other event
      stays, in order, and no event with that identifier does. */
  function RemoveId(events: seq<Event>, id: int): (r: seq<Event>)
    ensures IsSubsequence(r, events)
    ensures forall e :: multiset(r)[e] == if e.Id == id then 0 else multiset(events)[e]
  {
    FilterIsSubsequence(events, OtherId(id));
    forall e ensures multiset(Filter(events, OtherId(id)))[e] == if e.Id == id then 0 else multiset(events)[e] {
      FilterMultiplicity(events, OtherId(id), e);
    }
    Filter(events, OtherId(id))
  }

  /** The payload a status change sends: the identifier and the new status, nothing else. */
  lemma StatusPayload(id: int, status: string)
    ensures EventService.UpdatePayload(id, map["status" := Str(status)]) ==
      map["Id" := Num(id), "status" := Str(status)]
  {
    assert "status" in EventService.Updateable;
    assert Pick(map["status" := Str(status)], EventService.Updateable) == map["status" := Str(status)];
  }

  /** The page's state; `filteredEvents` is derived by an effect that re-runs whenever the list,
      the search term or the facets change. */
  class EventsPage {
    var events: seq<Event>
    var filteredEvents: seq<Event>
    var error: Option<string>
    var searchTerm: string
    var activeFilters: seq<string>

    ghost predicate Valid()
      reads this
    {
      filteredEvents == EventView(events, searchTerm, activeFilters)
    }

    constructor ()
      ensures Valid()
      ensures events == [] && filteredEvents == [] && error == None
      ensures searchTerm == "" && activeFilters == []
    {
      events, filteredEvents, error := [], [], None;
      searchTerm, activeFilters := "", [];
    }

    /** The `filterEvents` effect. */
    method FilterEvents()
      modifies this`filteredEvents
      ensures filteredEvents == EventView(events, searchTerm, activeFilters)
    {
      var filtered := events;
      if searchTerm != "" {
        var term := Lower(searchTerm);
        filtered := Filter(filtered, SearchTest(term));
      }
      if |activeFilters| > 0 {
        filtered := Filter(filtered, FacetTest(activeFilters));
      }
      filteredEvents := filtered;
    }

    /** `loadEvents`, given what `eventService.getAll` returned or threw. */
    method LoadEvents(fetched: Result<seq<Event>>)
      requires Valid()
      modifies this`events, this`error, this`filteredEvents
      ensures Valid()
      ensures fetched.Ok? ==> events == SortEvents(fetched.value) && error == None
      ensures fetched.Err? ==> events == old(events)
      ensures fetched.Err? ==> error == Some(if fetched.message == "" then "Failed to load events" else fetched.message)
      ensures searchTerm == old(searchTerm) && activeFilters == old(activeFilters)
    {
      if fetched.Ok? {
        events, error := SortEvents(fetched.value), None;
      } else {
        error := Some(if fetched.message == "" then "Failed to load events" else fetched.message);
      }
      FilterEvents();
    }

    method SetSearchTerm(term: string)
      requires Valid()
      modifies this`searchTerm, this`filteredEvents
      ensures Valid()
      ensures searchTerm == term
      ensures events == old(events) && activeFilters == old(activeFilters) && error == old(error)
    {
      searchTerm := term;
      FilterEvents();
    }

    /** `handleFilterChange`. */
    method HandleFilterChange(filterValue: string)
      requires Valid()
      modifies this`activeFilters, this`filteredEvents
      ensures Valid()
      ensures activeFilters == Toggle(old(activeFilters), filterValue)
      ensures events == old(events) && searchTerm == old(searchTerm) && error == old(error)
    {
      activeFilters := Toggle(activeFilters, filterValue);
      FilterEvents();
    }

    /** `handleStatusChange`: sends `{ status: newStatus }` for the event and, only when the
        service does not throw, changes that event's status in the list. */
    method HandleStatusChange(eventId: int, newStatus: string, resp: Store.WriteResponse) returns (sent: Store.Request)
      requires Valid()
      modifies this`events, this`filteredEvents
      ensures Valid()
      ensures sent == Store.UpdateRecord("event", [map["Id" := Num(eventId), "status" := Str(newStatus)]])
      ensures Store.WriteSucceeded(resp) ==> events == WithStatus(old(events), eventId, newStatus)
      ensures !Store.WriteSucceeded(resp) ==> events == old(events)
      ensures searchTerm == old(searchTerm) && activeFilters == old(activeFilters) && error == old(error)
    {
      var exchange := EventService.Update(eventId, map["status" := Str(newStatus)], resp);
      sent := exchange.request;
      assert sent == Store.UpdateRecord("event", [map["Id" := Num(eventId), "status" := Str(newStatus)]]) by {
        StatusPayload(eventId, newStatus);
      }
      if exchange.outcome.Ok? {
        events := WithStatus(events, eventId, newStatus);
      }
      FilterEvents();
    }

    /** `handleDeleteEvent`: nothing happens unless the user confirms; then the event leaves the
        list only when the service does not throw. */
    method HandleDeleteEvent(eventId: int, confirmed: bool, resp: Store.WriteResponse) returns (sent: Option<Store.Request>)
      requires Valid()
      modifies this`events, this`filteredEvents
      ensures Valid()
      ensures !confirmed ==> sent == None && events == old(events)
      ensures confirmed ==> sent == Some(Store.DeleteRecord("event", [eventId]))
      ensures confirmed && Store.WriteSucceeded(resp) ==> events == RemoveId(old(events), eventId)
      ensures confirmed && !Store.WriteSucceeded(resp) ==> events == old(events)
      ensures searchTerm == old(searchTerm) && activeFilters == old(activeFilters) && error == old(error)
    {
      sent := None;
      if confirmed {
        var exchange := EventService.Delete(eventId, resp);
        sent := Some(exchange.request);
        if exchange.outcome.Ok? {
          events := RemoveId(events, eventId);
        }
        FilterEvents();
      }
    }
  }
}
