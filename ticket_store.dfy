/**
 * The signed-in user's tickets (src/stores/ticketStore.ts). A successful
 * load stores the tickets and then hydrates the event cache with the
 * distinct event ids they refer to, so the event store is a second object
 * the load changes.
 */
module TicketStore {
  import opened Wrappers
  import opened Types
  import EventStore

  predicate NoDuplicates(ids: seq<string>) {
    forall i, j :: 0 <= i < j < |ids| ==> ids[i] != ids[j]
  }

  /** The position of the first occurrence of `x` in `ids`, `|ids|` when there is none. */
  function FirstIndex(ids: seq<string>, x: string): (k: nat)
    ensures k <= |ids|
    ensures k < |ids| <==> x in ids
    ensures k < |ids| ==> ids[k] == x
    ensures forall p :: 0 <= p < k ==> ids[p] != x
  {
    if ids == [] then 0
    else if ids[0] == x then 0
    else 1 + FirstIndex(ids[1..], x)
  }

  /** What follows a list does not move the first occurrence of an id the list holds. */
  lemma FirstIndexOfPrefix(s: seq<string>, t: seq<string>, x: string)
    requires x in s
    ensures FirstIndex(s + t, x) == FirstIndex(s, x)
  {
    var k, k' := FirstIndex(s, x), FirstIndex(s + t, x);
    assert (s + t)[k] == x;
    assert k' < |s| ==> s[k'] == (s + t)[k'];
  }

  /** `[...new Set(ids)]`: the ids in order of first occurrence, each once (see `DistinctOrder`). */
  function Distinct(ids: seq<string>): (r: seq<string>)
    ensures NoDuplicates(r)
    ensures forall x :: x in r <==> x in ids
    ensures |r| <= |ids|
  {
    if ids == [] then []
    else
      var d := Distinct(ids[..|ids| - 1]);
      var last := ids[|ids| - 1];
      assert ids == ids[..|ids| - 1] + [last];
      if last in d then d else d + [last]
  }

  /** The distinct ids keep the order in which they first occur. */
  lemma {:induction false} DistinctOrder(ids: seq<string>)
    ensures forall i, j :: 0 <= i < j < |Distinct(ids)| ==> FirstIndex(ids, Distinct(ids)[i]) < FirstIndex(ids, Distinct(ids)[j])
  {
    if ids != [] {
      var front, last := ids[..|ids| - 1], ids[|ids| - 1];
      var d := Distinct(front);
      DistinctOrder(front);
      assert ids == front + [last];
      forall x | x in d
        ensures FirstIndex(ids, x) == FirstIndex(front, x)
      {
        FirstIndexOfPrefix(front, [last], x);
      }
      if last !in d {
        assert FirstIndex(ids, last) == |front|;
        assert Distinct(ids) == d + [last];
      }
    }
  }

  /** A list without repeats is its own set. */
  lemma {:induction false} DistinctOfDistinct(ids: seq<string>)
    requires NoDuplicates(ids)
    ensures Distinct(ids) == ids
  {
    if ids != [] {
      var front := ids[..|ids| - 1];
      assert NoDuplicates(front);
      DistinctOfDistinct(front);
      assert ids[|ids| - 1] !in front;
      assert ids == front + [ids[|ids| - 1]];
    }
  }

  function EventIds(tickets: seq<Ticket>): (r: seq<string>)
    ensures |r| == |tickets|
    ensures forall i :: 0 <= i < |tickets| ==> r[i] == tickets[i].eventId
  {
    seq(|tickets|, i requires 0 <= i < |tickets| => tickets[i].eventId)
  }

  /** The event ids a ticket load hands to the event cache: the tickets' events, each once. */
  function DistinctEventIds(tickets: seq<Ticket>): (r: seq<string>)
    ensures NoDuplicates(r)
    ensures forall x :: x in r <==> exists t :: t in tickets && t.eventId == x
    ensures r == [] <==> tickets == []
  {
    var ids := EventIds(tickets);
    assert forall t :: t in tickets ==> t.eventId in ids;
    Distinct(ids)
  }

  /** Filtering a list without repeats keeps it without repeats, so no event is requested twice. */
  lemma {:induction false} MissingIdsNoDuplicates(ids: seq<string>, cached: set<string>)
    requires NoDuplicates(ids)
    ensures NoDuplicates(EventStore.MissingIds(ids, cached))
  {
    if ids != [] {
      assert NoDuplicates(ids[1..]);
      MissingIdsNoDuplicates(ids[1..], cached);
      assert ids[0] !in ids[1..];
    }
  }

  /** `updateTicketStatus` on a list: the tickets with that id get the new status, nothing else changes. */
  function WithStatus(tickets: seq<Ticket>, ticketId: string, status: TicketStatus): (r: seq<Ticket>)
    ensures |r| == |tickets|
    ensures forall i :: 0 <= i < |r| && tickets[i].ticketId == ticketId ==> r[i] == tickets[i].(ticketStatus := status)
    ensures forall i :: 0 <= i < |r| && tickets[i].ticketId != ticketId ==> r[i] == tickets[i]
  {
    if tickets == [] then []
    else
      var t := tickets[0];
      [if t.ticketId == ticketId then t.(ticketStatus := status) else t] + WithStatus(tickets[1..], ticketId, status)
  }

  /** Setting a status twice is setting it once, and the later of two settings wins. */
  lemma {:induction false} WithStatusTwice(tickets: seq<Ticket>, ticketId: string, first: TicketStatus, second: TicketStatus)
    ensures WithStatus(WithStatus(tickets, ticketId, first), ticketId, second) == WithStatus(tickets, ticketId, second)
  {
    if tickets != [] {
      WithStatusTwice(tickets[1..], ticketId, first, second);
    }
  }

  class Store {
    var tickets: seq<Ticket>
    var isLoading: bool
    var error: Option<string>

    constructor ()
      ensures tickets == [] && !isLoading && error == None
    {
      tickets, isLoading, error := [], false, None;
    }

    /**
     * `fetchUserTickets`: on a 2xx answer whose `ticketDetails` is an array,
     * stores those tickets, clears the error and asks the event cache for the
     * distinct event ids not already cached (the cache is left alone when
     * there are no tickets). A non-2xx answer, a body that is not an array
     * and a rejected request each record their own error text and keep the
     * tickets and the cache. Loading always ends off.
     */
    method FetchUserTickets(response: Response<Option<seq<Ticket>>>, events: EventStore.Store,
                            backend: string -> Response<Option<Event>>)
      returns (requested: seq<string>)
      modifies this, events
      ensures !isLoading
      ensures response.Ok? && response.body.Some? ==>
        var ts := response.body.value;
        tickets == ts && error == None &&
        requested == EventStore.MissingIds(DistinctEventIds(ts), old(events.events).Keys) &&
        (ts == [] ==> events.events == old(events.events) && events.error == old(events.error) &&
                      events.isLoading == old(events.isLoading)) &&
        (ts != [] ==> events.events == EventStore.Hydrate(old(events.events), requested, backend) &&
                      events.error == EventStore.LastError(requested, backend) && !events.isLoading)
      ensures !(response.Ok? && response.body.Some?) ==>
        tickets == old(tickets) && requested == [] &&
        events.events == old(events.events) && events.error == old(events.error) && events.isLoading == old(events.isLoading)
      ensures response == Ok(None) ==> error == Some("Invalid tickets data format")
      ensures response.HttpErr? ==> error == Some(HttpErrorText("fetch tickets", response.status, response.statusText))
      ensures response.NetErr? ==> error == Some(NetworkErrorText(response.thrown))
    {
      isLoading, error := true, None;
      requested := [];
      match response
      case HttpErr(status, statusText, _) =>
        error, isLoading := Some(HttpErrorText("fetch tickets", status, statusText)), false;
      case NetErr(thrown) =>
        error, isLoading := Some(NetworkErrorText(thrown)), false;
      case Ok(body) =>
        if body.None? {
          error, isLoading := Some("Invalid tickets data format"), false;
        } else {
          tickets, isLoading := body.value, false;
          var eventIds := DistinctEventIds(body.value);
          if |eventIds| > 0 {
            var cache;
            requested, cache := events.FetchMultipleEvents(eventIds, backend);
          }
        }
    }

    /** `updateTicketStatus`: only the tickets list changes, as `WithStatus` says. */
    method UpdateTicketStatus(ticketId: string, status: TicketStatus)
      modifies this
      ensures tickets == WithStatus(old(tickets), ticketId, status)
      ensures isLoading == old(isLoading) && error == old(error)
    {
      tickets := WithStatus(tickets, ticketId, status);
    }

    /** `clearTickets`: no tickets, not loading, no error. */
    method ClearTickets()
      modifies this
      ensures tickets == [] && !isLoading && error == None
    {
      tickets, isLoading, error := [], false, None;
    }
  }

  /**
   * Loading tickets whose events are partly cached requests each uncached
   * event exactly once, however many tickets share it, and never a cached one.
   */
  method LoadTicketsOnce(ts: seq<Ticket>, cached: map<string, Event>, backend: string -> Response<Option<Event>>)
    returns (requested: seq<string>)
    ensures NoDuplicates(requested)
    ensures forall x :: x in requested <==> x !in cached && exists t :: t in ts && t.eventId == x
  {
    var store := new Store();
    var events := new EventStore.Store();
    events.SetEvents(cached);
    requested := store.FetchUserTickets(Ok(Some(ts)), events, backend);
    MissingIdsNoDuplicates(DistinctEventIds(ts), cached.Keys);
  }
}
