/**
 * The event cache (src/stores/eventStore.ts): events keyed by the id they
 * were requested under, a loading flag and the last error text. The
 * backend's answer for each id is a parameter `backend`, so a batch fetch is
 * a sequence of single fetches over it.
 */
module EventStore {
  import opened Wrappers
  import opened Text
  import opened Types

  /** A fetch answered with a usable event: 2xx, `data.event` present and with a non-empty id. */
  predicate Usable(response: Response<Option<Event>>) {
    response.Ok? && response.body.Some? && response.body.value.eventId != ""
  }

  /** A fetch that records an error: a non-2xx answer or a rejected request (a malformed body records none). */
  predicate RecordsError(response: Response<Option<Event>>) {
    response.HttpErr? || response.NetErr?
  }

  /** The error text a failed `fetchEvent(eventId)` records. */
  function FetchErrorText(eventId: string, response: Response<Option<Event>>): string
    requires RecordsError(response)
  {
    match response
    case HttpErr(_, _, message) =>
      if message != "" then message else "Failed to fetch event " + eventId
    case NetErr(_) => "Network error while fetching event " + eventId
  }

  /**
   * `eventIds.filter(id => !currentEvents[id])`: the requested ids that are
   * not cached, in request order (repeats kept).
   */
  function MissingIds(ids: seq<string>, cached: set<string>): (r: seq<string>)
    ensures |r| <= |ids|
    ensures forall x :: x in r <==> x in ids && x !in cached
    ensures r == [] <==> forall x :: x in ids ==> x in cached
  {
    if ids == [] then []
    else if ids[0] in cached then MissingIds(ids[1..], cached)
    else [ids[0]] + MissingIds(ids[1..], cached)
  }

  /** The ids stay in request order: each part of the request is filtered on its own. */
  lemma {:induction false} MissingIdsAppend(a: seq<string>, b: seq<string>, cached: set<string>)
    ensures MissingIds(a + b, cached) == MissingIds(a, cached) + MissingIds(b, cached)
  {
    if a == [] {
      assert a + b == b;
    } else {
      assert (a + b)[0] == a[0] && (a + b)[1..] == a[1..] + b;
      MissingIdsAppend(a[1..], b, cached);
      if a[0] !in cached {
        var p, q := MissingIds(a[1..], cached), MissingIds(b, cached);
        assert [a[0]] + (p + q) == ([a[0]] + p) + q;
      }
    }
  }

  /** One id is requested exactly when it is not cached. */
  lemma MissingIdsOfOne(id: string, cached: set<string>)
    ensures MissingIds([id], cached) == if id in cached then [] else [id]
  {
    assert [id][1..] == [];
  }

  /** When more of the ids are cached, fewer of them are requested: B \ A shrinks as A grows. */
  lemma {:induction false} MissingIdsAntitone(ids: seq<string>, small: set<string>, large: set<string>)
    requires small <= large
    ensures forall x :: x in MissingIds(ids, large) ==> x in MissingIds(ids, small)
    ensures |MissingIds(ids, large)| <= |MissingIds(ids, small)|
  {
    if ids != [] {
      MissingIdsAntitone(ids[1..], small, large);
    }
  }

  /** The entry `fetchMultipleEvents` adds for one fetched id: the event when the answer was usable. */
  function AddFetched(cache: map<string, Event>, id: string, response: Response<Option<Event>>): map<string, Event> {
    if Usable(response) then cache[id := response.body.value] else cache
  }

  /** The cache after fetching `ids` one after another on top of `cache`. */
  function Hydrate(cache: map<string, Event>, ids: seq<string>, backend: string -> Response<Option<Event>>): map<string, Event> {
    if ids == [] then cache
    else AddFetched(Hydrate(cache, ids[..|ids| - 1], backend), ids[|ids| - 1], backend(ids[|ids| - 1]))
  }

  /** The error left after fetching `ids` one after another: the last one recorded, none when none was. */
  function LastError(ids: seq<string>, backend: string -> Response<Option<Event>>): Option<string> {
    if ids == [] then None
    else
      var id := ids[|ids| - 1];
      if RecordsError(backend(id)) then Some(FetchErrorText(id, backend(id)))
      else LastError(ids[..|ids| - 1], backend)
  }

  /** A hydrated cache holds the old keys and exactly the fetched ids whose answer was usable. */
  lemma {:induction false} HydrateKeys(cache: map<string, Event>, ids: seq<string>, backend: string -> Response<Option<Event>>)
    ensures forall k :: k in Hydrate(cache, ids, backend) <==> k in cache || (k in ids && Usable(backend(k)))
  {
    if ids != [] {
      var front := ids[..|ids| - 1];
      HydrateKeys(cache, front, backend);
      assert ids == front + [ids[|ids| - 1]];
    }
  }

  /**
   * When none of the fetched ids was cached, every cached entry keeps its
   * event and every new entry holds the event the backend answered.
   */
  lemma {:induction false} HydrateValues(cache: map<string, Event>, ids: seq<string>, backend: string -> Response<Option<Event>>)
    requires forall k :: k in ids ==> k !in cache
    ensures forall k :: k in cache ==> k in Hydrate(cache, ids, backend) && Hydrate(cache, ids, backend)[k] == cache[k]
    ensures forall k :: k in Hydrate(cache, ids, backend) && k !in cache ==>
      Usable(backend(k)) && Hydrate(cache, ids, backend)[k] == backend(k).body.value
  {
    if ids != [] {
      var front := ids[..|ids| - 1];
      assert ids == front + [ids[|ids| - 1]];
      HydrateValues(cache, front, backend);
    }
  }

  /** No error is left when no fetch recorded one, and a left error is one some fetch recorded. */
  lemma {:induction false} LastErrorSource(ids: seq<string>, backend: string -> Response<Option<Event>>)
    ensures (forall k :: k in ids ==> !RecordsError(backend(k))) ==> LastError(ids, backend) == None
    ensures LastError(ids, backend).Some? ==>
      exists k :: k in ids && RecordsError(backend(k)) && LastError(ids, backend) == Some(FetchErrorText(k, backend(k)))
  {
    if ids != [] {
      var front := ids[..|ids| - 1];
      assert ids == front + [ids[|ids| - 1]];
      LastErrorSource(front, backend);
    }
  }

  class Store {
    var events: map<string, Event>
    var isLoading: bool
    var error: Option<string>

    constructor ()
      ensures events == map[] && !isLoading && error == None
    {
      events, isLoading, error := map[], false, None;
    }

    /**
     * `fetchEvent`: a usable answer is stored under `eventId` (every other key
     * is kept) and returned; a malformed body returns nothing and changes
     * nothing; a non-2xx answer or rejected request records the error text,
     * returns nothing and keeps the events.
     */
    method FetchEvent(eventId: string, response: Response<Option<Event>>) returns (r: Option<Event>)
      modifies this
      ensures Usable(response) ==> r == response.body && events == old(events)[eventId := response.body.value]
      ensures !Usable(response) ==> r == None && events == old(events)
      ensures RecordsError(response) ==> error == Some(FetchErrorText(eventId, response))
      ensures !RecordsError(response) ==> error == old(error)
      ensures isLoading == old(isLoading)
    {
      match response
      case Ok(body) =>
        if body.Some? && body.value.eventId != "" {
          events := events[eventId := body.value];
          r := body;
        } else {
          r := None;
        }
      case HttpErr(_, _, _) =>
        error := Some(FetchErrorText(eventId, response));
        r := None;
      case NetErr(_) =>
        error := Some(FetchErrorText(eventId, response));
        r := None;
    }

    /**
     * `fetchMultipleEvents`: requests exactly the ids not cached on entry,
     * one `fetchEvent` each, and ends with the cache and error those fetches
     * leave and loading off (see `HydrateKeys`, `HydrateValues`,
     * `LastErrorSource`).
     */
    method FetchMultipleEvents(eventIds: seq<string>, backend: string -> Response<Option<Event>>)
      returns (requested: seq<string>, result: map<string, Event>)
      modifies this
      ensures requested == MissingIds(eventIds, old(events).Keys)
      ensures events == Hydrate(old(events), requested, backend) && result == events
      ensures error == LastError(requested, backend) && !isLoading
    {
      isLoading, error := true, None;
      var currentEvents := events;
      requested := MissingIds(eventIds, currentEvents.Keys);
      if requested == [] {
        isLoading := false;
        result := currentEvents;
        return;
      }
      var newEvents := currentEvents;
      var i := 0;
      while i < |requested|
        invariant 0 <= i <= |requested|
        invariant events == newEvents && isLoading
        invariant newEvents == Hydrate(currentEvents, requested[..i], backend)
        invariant error == LastError(requested[..i], backend)
      {
        var id := requested[i];
        assert requested[..i + 1][..i] == requested[..i];
        var r := FetchEvent(id, backend(id));
        if r.Some? {
          newEvents := newEvents[id := r.value];
        }
        i := i + 1;
      }
      assert requested[..i] == requested;
      events, isLoading := newEvents, false;
      result := newEvents;
    }

    /** `setEvents`: replaces the whole cache. */
    method SetEvents(newEvents: map<string, Event>)
      modifies this
      ensures events == newEvents && isLoading == old(isLoading) && error == old(error)
    {
      events := newEvents;
    }

    /** `clearEvents`: an empty cache, not loading, no error. */
    method ClearEvents()
      modifies this
      ensures events == map[] && !isLoading && error == None
    {
      events, isLoading, error := map[], false, None;
    }
  }

  /**
   * Hydrating the same ids twice: the second call requests only the ids whose
   * first answer was unusable, so an id is never fetched again once cached.
   */
  method HydrateTwice(eventIds: seq<string>, backend: string -> Response<Option<Event>>)
    returns (first: seq<string>, second: seq<string>)
    ensures forall k :: k in first <==> k in eventIds
    ensures forall k :: k in second <==> k in eventIds && !Usable(backend(k))
  {
    var store := new Store();
    var cache;
    first, cache := store.FetchMultipleEvents(eventIds, backend);
    HydrateKeys(map[], first, backend);
    second, cache := store.FetchMultipleEvents(eventIds, backend);
  }
}
