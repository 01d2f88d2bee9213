/** The dashboard's recent-events list: the events newest first, cut to the `limit` prop when
    one is given, with the same status-change handler as the Events page. */
module EventList {
  import opened Wrappers
  import opened Lists
  import opened Records
  import opened Entities
  import Store
  import EventService
  import Events

  /** `limit || result.length`: a missing limit or a limit of 0 shows everything. */
  function SliceLimit(limit: Option<int>, n: nat): int {
    if limit.None? || limit.value == 0 then n else limit.value
  }

  /** `result.sort(newest first).slice(0, limit || result.length)`. A negative limit counts
      from the end, as `slice` does. */
  function Shown(events: seq<Event>, limit: Option<int>): (r: seq<Event>)
    ensures r <= Events.SortEvents(events)
    ensures limit.None? || limit == Some(0) ==> r == Events.SortEvents(events)
    ensures limit.Some? && limit.value > 0 ==>
      |r| == if limit.value < |events| then limit.value else |events|
    ensures limit.Some? && limit.value < 0 ==>
      |r| == if |events| + limit.value > 0 then |events| + limit.value else 0
  {
    var sorted := Events.SortEvents(events);
    SlicePrefix(sorted, SliceLimit(limit, |sorted|))
  }

  /** The list is newest first, and every event cut off is no newer than any event shown. */
  lemma ShownAreNewest(events: seq<Event>, limit: Option<int>)
    ensures var r := Shown(events, limit);
      (forall i, j :: 0 <= i < j < |r| ==> r[i].date >= r[j].date) &&
      forall e :: e in events && e !in r ==> forall i :: 0 <= i < |r| ==> r[i].date >= e.date
  {
    var sorted := Events.SortEvents(events);
    var r := Shown(events, limit);
    assert forall k :: 0 <= k < |r| ==> r[k] == sorted[k];
    forall e | e in events && e !in r
      ensures forall i :: 0 <= i < |r| ==> r[i].date >= e.date
    {
      assert e in multiset(sorted);
      var j :| 0 <= j < |sorted| && sorted[j] == e;
      assert j >= |r|;
    }
  }

  class EventListPanel {
    const limit: Option<int>
    var events: seq<Event>
    var error: Option<string>

    constructor (limit: Option<int>)
      ensures this.limit == limit && events == [] && error == None
    {
      this.limit := limit;
      events, error := [], None;
    }

    /** `loadEvents`, given what `eventService.getAll` returned or threw. */
    method LoadEvents(fetched: Result<seq<Event>>)
      modifies this
      ensures fetched.Ok? ==> events == Shown(fetched.value, limit) && error == None
      ensures fetched.Err? ==> events == old(events)
      ensures fetched.Err? ==> error == Some(if fetched.message == "" then "Failed to load events" else fetched.message)
    {
      if fetched.Ok? {
        events, error := Shown(fetched.value, limit), None;
      } else {
        error := Some(if fetched.message == "" then "Failed to load events" else fetched.message);
      }
    }

    /** `handleStatusChange`, as on the Events page. */
    method HandleStatusChange(eventId: int, newStatus: string, resp: Store.WriteResponse) returns (sent: Store.Request)
      modifies this
      ensures sent == Store.UpdateRecord("event", [map["Id" := Num(eventId), "status" := Str(newStatus)]])
      ensures Store.WriteSucceeded(resp) ==> events == Events.WithStatus(old(events), eventId, newStatus)
      ensures !Store.WriteSucceeded(resp) ==> events == old(events)
      ensures error == old(error)
    {
      var exchange := EventService.Update(eventId, map["status" := Str(newStatus)], resp);
      sent := exchange.request;
      assert sent == Store.UpdateRecord("event", [map["Id" := Num(eventId), "status" := Str(newStatus)]]) by {
        Events.StatusPayload(eventId, newStatus);
      }
      if exchange.outcome.Ok? {
        events := Events.WithStatus(events, eventId, newStatus);
      }
    }
  }
}
