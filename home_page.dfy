/**
 * The home page (src/pages/HomePage.tsx): the event list with its search,
 * location and future-date filters, the tickets of the signed-in user, and
 * the payment flow. Booking stores two per-event markers in local storage
 * (the checkout URL and the payment session id) after the payment service
 * has answered; the return from the checkout polls for the ticket at most
 * thirty times and every way out of it removes both markers.
 *
 * Local storage and the URL's query parameters are string maps; answers of
 * the backend are parameters; navigation, alerts and requests are appended
 * to `log` in the order the page performs them.
 */
module HomePage {
  import opened Wrappers
  import opened Text
  import opened Types
  import Pagination

  /** What the page does to the outside world. */
  datatype Effect =
    | Navigate(url: string)
    | Alert(message: string)
    | InitiatePayment(eventId: string, amount: int)
    | PollTicket(sessionId: string)
    | ReportFailure(eventId: string, sessionId: string)
    | FetchTickets

  /** What the payment service answers to an initiate request: `checkOutUrl` ("" when absent) and `session_id`. */
  datatype Checkout = Checkout(url: string, sessionId: string)

  const MaxAttempts: nat := 30

  const AlreadyActive := "You already have an active payment session for this event."
  const Redirecting := "Redirecting to payment gateway..."
  const InitiateFailed := "Error initiating payment. Please try again."
  const Booked := "Ticket booked successfully!"
  const TakingLonger := "Payment successful but processing is taking longer than expected. Please check your tickets page."
  const CancelledOrFailed := "Payment was cancelled or failed. Please try again."

  function ActiveSessionKey(eventId: string): string { "activeStripeSession_" + eventId }
  function PaymentSessionKey(eventId: string): string { "paymentSessionId_" + eventId }

  /** The two markers of an event are different keys, and different events never share a key. */
  lemma MarkerKeysDistinct(a: string, b: string)
    ensures ActiveSessionKey(a) != PaymentSessionKey(b)
    ensures ActiveSessionKey(a) == ActiveSessionKey(b) ==> a == b
    ensures PaymentSessionKey(a) == PaymentSessionKey(b) ==> a == b
  {
    assert ActiveSessionKey(a)[0] != PaymentSessionKey(b)[0];
    if ActiveSessionKey(a) == ActiveSessionKey(b) {
      assert a == ActiveSessionKey(a)[20..];
      assert b == ActiveSessionKey(b)[20..];
    }
    if PaymentSessionKey(a) == PaymentSessionKey(b) {
      assert a == PaymentSessionKey(a)[17..];
      assert b == PaymentSessionKey(b)[17..];
    }
  }

  /** `localStorage.getItem(activeStripeSession_id)` is truthy: a non-empty checkout URL is stored. */
  predicate HasActiveSession(storage: map<string, string>, eventId: string) {
    ActiveSessionKey(eventId) in storage && storage[ActiveSessionKey(eventId)] != ""
  }

  /** Local storage with both markers of the event removed. */
  function WithoutMarkers(storage: map<string, string>, eventId: string): (r: map<string, string>)
    ensures ActiveSessionKey(eventId) !in r && PaymentSessionKey(eventId) !in r
    ensures !HasActiveSession(r, eventId)
    ensures forall k :: k in r <==> k in storage && k != ActiveSessionKey(eventId) && k != PaymentSessionKey(eventId)
    ensures forall k :: k in r ==> r[k] == storage[k]
  {
    storage - {ActiveSessionKey(eventId), PaymentSessionKey(eventId)}
  }

  /** Removing the markers a second time changes nothing. */
  lemma WithoutMarkersTwice(storage: map<string, string>, eventId: string)
    ensures WithoutMarkers(WithoutMarkers(storage, eventId), eventId) == WithoutMarkers(storage, eventId)
  {
  }

  /** `n` poll requests for one session. */
  function Polls(sessionId: string, n: nat): (r: seq<Effect>)
    ensures |r| == n && forall k :: 0 <= k < n ==> r[k] == PollTicket(sessionId)
  {
    seq(n, k => PollTicket(sessionId))
  }

  /** Whether the answer to attempt `k` reports the ticket; there are no answers past the last one. */
  predicate Reported(answers: seq<bool>, k: nat) {
    k < |answers| && answers[k]
  }

  /** The first attempt from `from` on whose answer reports the ticket, `MaxAttempts` when none does. */
  function FirstReport(answers: seq<bool>, from: nat): (k: nat)
    requires from <= MaxAttempts
    ensures from <= k <= MaxAttempts
    ensures k < MaxAttempts ==> Reported(answers, k)
    ensures forall j :: from <= j < k ==> !Reported(answers, j)
    decreases MaxAttempts - from
  {
    if from == MaxAttempts then MaxAttempts
    else if Reported(answers, from) then from
    else FirstReport(answers, from + 1)
  }

  /** The first report is the attempt that reports the ticket with none before it. */
  lemma FirstReportAt(answers: seq<bool>, n: nat)
    requires n < MaxAttempts && Reported(answers, n) && forall j :: 0 <= j < n ==> !Reported(answers, j)
    ensures FirstReport(answers, 0) == n
  {
  }

  /**
   * The polling loop of `handlePaymentSuccess`: one request per attempt,
   * stopping at the first answer that reports the ticket, at most thirty
   * attempts. `answers[k]` says whether attempt `k` did; an attempt past the
   * end of `answers` did not.
   */
  method PollForTicket(sessionId: string, answers: seq<bool>) returns (polls: nat, found: bool, requests: seq<Effect>)
    ensures 1 <= polls <= MaxAttempts
    ensures found <==> exists k :: 0 <= k < MaxAttempts && Reported(answers, k)
    ensures found ==> Reported(answers, polls - 1) && forall k :: 0 <= k < polls - 1 ==> !Reported(answers, k)
    ensures !found ==> polls == MaxAttempts
    ensures found <==> FirstReport(answers, 0) < MaxAttempts
    ensures polls == if found then FirstReport(answers, 0) + 1 else MaxAttempts
    ensures requests == Polls(sessionId, polls)
  {
    var attempts: nat := 0;
    polls, found, requests := 0, false, [];
    // The loop stops at the first answer that reports the ticket; what the
    // source does right before returning from inside the loop follows it.
    while attempts < MaxAttempts && !found
      invariant attempts <= MaxAttempts
      invariant found ==> attempts < MaxAttempts && polls == attempts + 1 && Reported(answers, attempts)
      invariant !found ==> polls == attempts
      invariant forall k :: 0 <= k < attempts ==> !Reported(answers, k)
      invariant requests == Polls(sessionId, polls)
      decreases MaxAttempts - attempts, if found then 0 else 1
    {
      requests := requests + [PollTicket(sessionId)];
      polls := polls + 1;
      if Reported(answers, attempts) {
        found := true;
      } else {
        attempts := attempts + 1;
      }
    }
    if found {
      FirstReportAt(answers, polls - 1);
    } else {
      assert FirstReport(answers, 0) == MaxAttempts;
    }
  }

  /** The effects of a successful return, told apart by whether an attempt reported the ticket. */
  lemma SuccessEffectsCases(sessionId: string, answers: seq<bool>, polls: nat, found: bool)
    requires found <==> FirstReport(answers, 0) < MaxAttempts
    requires polls == if found then FirstReport(answers, 0) + 1 else MaxAttempts
    ensures SuccessEffects(sessionId, answers) ==
            Polls(sessionId, polls) + (if found then [FetchTickets, Alert(Booked)] else [Alert(TakingLonger)])
  {
  }

  /**
   * What settling a successful payment adds to the log: one poll per attempt
   * up to the first that reports the ticket, then the reload and the
   * confirmation; thirty polls and the "taking longer" notice when none does.
   */
  function SuccessEffects(sessionId: string, answers: seq<bool>): (r: seq<Effect>)
    ensures 2 <= |r| <= MaxAttempts + 2 && r[0] == PollTicket(sessionId)
    ensures r[|r| - 1] == Alert(Booked) <==> exists k :: 0 <= k < MaxAttempts && Reported(answers, k)
  {
    var k := FirstReport(answers, 0);
    if k < MaxAttempts then Polls(sessionId, k + 1) + [FetchTickets, Alert(Booked)]
    else Polls(sessionId, MaxAttempts) + [Alert(TakingLonger)]
  }

  /** The position of the first ticket for the event, `|tickets|` when there is none. */
  function FirstTicketIndex(tickets: seq<Ticket>, eventId: string): (i: nat)
    ensures i <= |tickets|
    ensures i < |tickets| ==> tickets[i].eventId == eventId
    ensures forall j :: 0 <= j < i ==> tickets[j].eventId != eventId
  {
    if tickets == [] then 0
    else if tickets[0].eventId == eventId then 0
    else 1 + FirstTicketIndex(tickets[1..], eventId)
  }

  /** `userTickets.find(t => t.event_id === eventId)`: the first ticket for the event. */
  function FindTicketForEvent(tickets: seq<Ticket>, eventId: string): (r: Option<Ticket>)
    ensures r.None? <==> forall t :: t in tickets ==> t.eventId != eventId
    ensures r.Some? ==> r.value.eventId == eventId && r.value == tickets[FirstTicketIndex(tickets, eventId)]
  {
    var i := FirstTicketIndex(tickets, eventId);
    if i == |tickets| then None else Some(tickets[i])
  }

  /** The filter of `filteredEvents`: the search term in the title or description, the location, and not yet started. */
  predicate Matches(e: Event, searchTerm: string, filterLocation: string, now: int) {
    var term := ToLower(searchTerm);
    (Contains(ToLower(e.title), term) || Contains(ToLower(e.description), term)) &&
    (filterLocation == "" || Contains(ToLower(e.location), ToLower(filterLocation))) &&
    e.date >= now
  }

  /** `filteredEvents`: the matching events, in their order. */
  function FilterEvents(events: seq<Event>, searchTerm: string, filterLocation: string, now: int): (r: seq<Event>)
    ensures |r| <= |events|
    ensures forall e :: e in r <==> e in events && Matches(e, searchTerm, filterLocation, now)
  {
    if events == [] then []
    else
      var rest := FilterEvents(events[1..], searchTerm, filterLocation, now);
      assert forall e :: e in events <==> e == events[0] || e in events[1..];
      if Matches(events[0], searchTerm, filterLocation, now) then [events[0]] + rest else rest
  }

  /** The listed events keep their order: each part of the list is filtered on its own. */
  lemma {:induction false} FilterEventsAppend(a: seq<Event>, b: seq<Event>, searchTerm: string, filterLocation: string, now: int)
    ensures FilterEvents(a + b, searchTerm, filterLocation, now) ==
            FilterEvents(a, searchTerm, filterLocation, now) + FilterEvents(b, searchTerm, filterLocation, now)
  {
    if a == [] {
      assert a + b == b;
    } else {
      assert (a + b)[0] == a[0] && (a + b)[1..] == a[1..] + b;
      FilterEventsAppend(a[1..], b, searchTerm, filterLocation, now);
      if Matches(a[0], searchTerm, filterLocation, now) {
        var p, q := FilterEvents(a[1..], searchTerm, filterLocation, now), FilterEvents(b, searchTerm, filterLocation, now);
        assert [a[0]] + (p + q) == ([a[0]] + p) + q;
      }
    }
  }

  /** One event is listed exactly when it matches. */
  lemma FilterEventsOfOne(e: Event, searchTerm: string, filterLocation: string, now: int)
    ensures FilterEvents([e], searchTerm, filterLocation, now) == if Matches(e, searchTerm, filterLocation, now) then [e] else []
  {
    assert [e][1..] == [];
  }

  /** With no search term and no location, exactly the events that have not started remain. */
  lemma {:induction false} FilterWithoutTerms(events: seq<Event>, now: int)
    ensures forall e :: e in FilterEvents(events, "", "", now) <==> e in events && e.date >= now
  {
    forall e: Event
      ensures Matches(e, "", "", now) <==> e.date >= now
    {
      ContainsEmpty(ToLower(e.title));
      assert ToLower("") == "";
    }
  }

  class Page {
    var storage: map<string, string>
    var query: map<string, string>
    var events: seq<Event>
    var userTickets: seq<Ticket>
    var searchTerm: string
    var filterLocation: string
    var currentPage: int
    var isProcessing: bool
    var log: seq<Effect>

    /** The page as it first renders, over the browser's storage and the URL's query. */
    constructor (storage: map<string, string>, query: map<string, string>)
      ensures this.storage == storage && this.query == query
      ensures events == [] && userTickets == [] && searchTerm == "" && filterLocation == ""
      ensures currentPage == 1 && !isProcessing && log == []
    {
      this.storage, this.query := storage, query;
      events, userTickets, searchTerm, filterLocation := [], [], "", "";
      currentPage, isProcessing, log := 1, false, [];
    }

    /** The events shown: the filtered list at the given time. */
    function Filtered(now: int): seq<Event>
      reads this
    {
      FilterEvents(events, searchTerm, filterLocation, now)
    }

    /** `fetchEvents`: a 2xx answer replaces the events, anything else keeps them. */
    method LoadEvents(response: Response<seq<Event>>)
      modifies this
      ensures response.Ok? ==> events == response.body
      ensures !response.Ok? ==> events == old(events)
      ensures storage == old(storage) && query == old(query) && userTickets == old(userTickets) && log == old(log)
      ensures searchTerm == old(searchTerm) && filterLocation == old(filterLocation)
      ensures currentPage == old(currentPage) && isProcessing == old(isProcessing)
    {
      if response.Ok? {
        events := response.body;
      }
    }

    /** The page's own `fetchUserTickets`: a 2xx answer replaces the tickets, anything else keeps them. */
    method LoadUserTickets(response: Response<seq<Ticket>>)
      modifies this
      ensures response.Ok? ==> userTickets == response.body
      ensures !response.Ok? ==> userTickets == old(userTickets)
      ensures log == old(log) + [FetchTickets]
      ensures storage == old(storage) && query == old(query) && events == old(events)
      ensures searchTerm == old(searchTerm) && filterLocation == old(filterLocation)
      ensures currentPage == old(currentPage) && isProcessing == old(isProcessing)
    {
      log := log + [FetchTickets];
      if response.Ok? {
        userTickets := response.body;
      }
    }

    /** Typing a search term or picking a location; the filter effect then returns to page 1. */
    method SetFilters(term: string, location: string)
      modifies this
      ensures searchTerm == term && filterLocation == location && currentPage == 1
      ensures storage == old(storage) && query == old(query) && events == old(events) && userTickets == old(userTickets)
      ensures isProcessing == old(isProcessing) && log == old(log)
    {
      searchTerm, filterLocation := term, location;
      currentPage := 1;
    }

    /** `goToPage` from a page button or the page selector (the scroll is left out). */
    method GoToPage(page: int)
      modifies this
      ensures currentPage == page
      ensures storage == old(storage) && query == old(query) && events == old(events) && userTickets == old(userTickets)
      ensures searchTerm == old(searchTerm) && filterLocation == old(filterLocation)
      ensures isProcessing == old(isProcessing) && log == old(log)
    {
      currentPage := page;
    }

    /** `goToPreviousPage`. */
    method GoToPreviousPage()
      modifies this
      ensures currentPage == Pagination.PreviousPage(old(currentPage))
      ensures storage == old(storage) && query == old(query) && events == old(events) && userTickets == old(userTickets)
      ensures searchTerm == old(searchTerm) && filterLocation == old(filterLocation)
      ensures isProcessing == old(isProcessing) && log == old(log)
    {
      if currentPage > 1 {
        currentPage := currentPage - 1;
      }
    }

    /** `goToNextPage`, with the page count of the events shown at time `now`. */
    method GoToNextPage(now: int)
      modifies this
      ensures currentPage == Pagination.NextPage(old(currentPage), Pagination.TotalPages(|old(Filtered(now))|))
      ensures storage == old(storage) && query == old(query) && events == old(events) && userTickets == old(userTickets)
      ensures searchTerm == old(searchTerm) && filterLocation == old(filterLocation)
      ensures isProcessing == old(isProcessing) && log == old(log)
    {
      var totalPages := Pagination.TotalPages(|Filtered(now)|);
      if currentPage < totalPages {
        currentPage := currentPage + 1;
      }
    }

    /** The pair of `localStorage.removeItem` calls every payment outcome makes. */
    method RemoveMarkers(eventId: string)
      modifies this
      ensures storage == WithoutMarkers(old(storage), eventId)
      ensures query == old(query) && events == old(events) && userTickets == old(userTickets) && log == old(log)
      ensures searchTerm == old(searchTerm) && filterLocation == old(filterLocation)
      ensures currentPage == old(currentPage) && isProcessing == old(isProcessing)
    {
      storage := storage - {ActiveSessionKey(eventId)};
      storage := storage - {PaymentSessionKey(eventId)};
    }

    /**
     * `handleBookEvent`: signed-out visitors go to the login page; with a
     * checkout already under way the visitor is sent back to it and no
     * request is made; otherwise the payment is initiated, and only an answer
     * with a checkout URL stores the two markers and leaves for the checkout.
     * Processing ends off once a request was made.
     */
    method HandleBookEvent(eventId: string, price: int, authenticated: bool, initiate: Response<Checkout>)
      modifies this
      ensures !authenticated ==>
        log == old(log) + [Navigate("/login?redirect=/")] && storage == old(storage) && isProcessing == old(isProcessing)
      ensures authenticated && HasActiveSession(old(storage), eventId) ==>
        log == old(log) + [Alert(AlreadyActive), Navigate(old(storage)[ActiveSessionKey(eventId)])] &&
        storage == old(storage) && isProcessing == old(isProcessing)
      ensures authenticated && !HasActiveSession(old(storage), eventId) && initiate.Ok? && initiate.body.url != "" ==>
        storage == old(storage)[ActiveSessionKey(eventId) := initiate.body.url][PaymentSessionKey(eventId) := initiate.body.sessionId] &&
        log == old(log) + [InitiatePayment(eventId, price), Alert(Redirecting), Navigate(initiate.body.url)] &&
        !isProcessing
      ensures authenticated && !HasActiveSession(old(storage), eventId) && !(initiate.Ok? && initiate.body.url != "") ==>
        storage == old(storage) && log == old(log) + [InitiatePayment(eventId, price), Alert(InitiateFailed)] && !isProcessing
      ensures query == old(query) && events == old(events) && userTickets == old(userTickets)
      ensures searchTerm == old(searchTerm) && filterLocation == old(filterLocation) && currentPage == old(currentPage)
    {
      if !authenticated {
        log := log + [Navigate("/login?redirect=/")];
        return;
      }
      var existing := Lookup(storage, ActiveSessionKey(eventId));
      if existing.Some? && existing.value != "" {
        log := log + [Alert(AlreadyActive), Navigate(existing.value)];
        return;
      }
      isProcessing := true;
      log := log + [InitiatePayment(eventId, price)];
      if initiate.Ok? && initiate.body.url != "" {
        storage := storage[ActiveSessionKey(eventId) := initiate.body.url];
        storage := storage[PaymentSessionKey(eventId) := initiate.body.sessionId];
        log := log + [Alert(Redirecting), Navigate(initiate.body.url)];
      } else {
        log := log + [Alert(InitiateFailed)];
      }
      isProcessing := false;
    }

    /**
     * `handlePaymentSuccess`: polls for the ticket of the session until an
     * answer reports it (`answers[k]` says whether attempt `k` did), at most
     * thirty times. When found, the tickets are reloaded and the booking
     * confirmed; otherwise the visitor is told to check later. Either way
     * both markers end removed and processing ends off.
     */
    method HandlePaymentSuccess(eventId: string, sessionId: string, answers: seq<bool>, tickets: Response<seq<Ticket>>)
      returns (polls: nat, found: bool)
      modifies this
      ensures 1 <= polls <= MaxAttempts
      ensures found <==> exists k :: 0 <= k < MaxAttempts && Reported(answers, k)
      ensures found ==> Reported(answers, polls - 1) && forall k :: 0 <= k < polls - 1 ==> !Reported(answers, k)
      ensures !found ==> polls == MaxAttempts
      ensures found <==> FirstReport(answers, 0) < MaxAttempts
      ensures polls == if found then FirstReport(answers, 0) + 1 else MaxAttempts
      ensures storage == WithoutMarkers(old(storage), eventId) && !isProcessing
      ensures found ==> log == old(log) + Polls(sessionId, polls) + [FetchTickets, Alert(Booked)] &&
                        userTickets == (if tickets.Ok? then tickets.body else old(userTickets))
      ensures !found ==> log == old(log) + Polls(sessionId, polls) + [Alert(TakingLonger)] && userTickets == old(userTickets)
      ensures query == old(query) && events == old(events)
      ensures searchTerm == old(searchTerm) && filterLocation == old(filterLocation) && currentPage == old(currentPage)
    {
      isProcessing := true;
      var requests;
      polls, found, requests := PollForTicket(sessionId, answers);
      if found {
        // Both markers go, the tickets are fetched again, the booking is confirmed.
        log := log + requests + [FetchTickets, Alert(Booked)];
        if tickets.Ok? {
          userTickets := tickets.body;
        }
      } else {
        log := log + requests + [Alert(TakingLonger)];
      }
      // The `finally` block removes the markers, for the second time when found.
      storage := WithoutMarkers(storage, eventId);
      isProcessing := false;
    }

    /**
     * `handlePaymentFailure`: removes both markers first; reports the failure
     * when there is a session id; tells the visitor unless that report was
     * rejected (the thrown error skips the alert).
     */
    method HandlePaymentFailure(eventId: string, sessionId: Option<string>, report: Response<()>)
      modifies this
      ensures storage == WithoutMarkers(old(storage), eventId)
      ensures sessionId.Some? && sessionId.value != "" ==>
        log == old(log) + [ReportFailure(eventId, sessionId.value)] + (if report.NetErr? then [] else [Alert(CancelledOrFailed)])
      ensures !(sessionId.Some? && sessionId.value != "") ==> log == old(log) + [Alert(CancelledOrFailed)]
      ensures query == old(query) && events == old(events) && userTickets == old(userTickets)
      ensures searchTerm == old(searchTerm) && filterLocation == old(filterLocation) && currentPage == old(currentPage)
      ensures isProcessing == old(isProcessing)
    {
      RemoveMarkers(eventId);
      if sessionId.Some? && sessionId.value != "" {
        log := log + [ReportFailure(eventId, sessionId.value)];
        if report.NetErr? {
          return;
        }
      }
      log := log + [Alert(CancelledOrFailed)];
    }

    /**
     * `handleStripeReturn`: when the URL carries both a session id and an
     * event id, settles the payment — the success path exactly when
     * `success` is `"true"` — and then drops the three return parameters;
     * otherwise does nothing. Returns whether it settled a payment.
     */
    method HandleStripeReturn(answers: seq<bool>, tickets: Response<seq<Ticket>>, report: Response<()>)
      returns (settled: bool, succeeded: bool)
      modifies this
      ensures settled <==> ("session_id" in old(query) && old(query)["session_id"] != "" &&
                            "event_id" in old(query) && old(query)["event_id"] != "")
      ensures !settled ==> !succeeded && query == old(query) && storage == old(storage) && log == old(log) &&
                           isProcessing == old(isProcessing) && userTickets == old(userTickets)
      ensures settled ==> (succeeded <==> "success" in old(query) && old(query)["success"] == "true")
      ensures settled ==> query == old(query) - {"session_id", "event_id", "success"}
      ensures settled ==> storage == WithoutMarkers(old(storage), old(query)["event_id"])
      ensures settled && succeeded ==>
        !isProcessing && log == old(log) + SuccessEffects(old(query)["session_id"], answers) &&
        userTickets == (if FirstReport(answers, 0) < MaxAttempts && tickets.Ok? then tickets.body else old(userTickets))
      ensures settled && !succeeded ==>
        log == old(log) + [ReportFailure(old(query)["event_id"], old(query)["session_id"])] +
               (if report.NetErr? then [] else [Alert(CancelledOrFailed)]) &&
        userTickets == old(userTickets) && isProcessing == old(isProcessing)
      ensures events == old(events) && searchTerm == old(searchTerm) && filterLocation == old(filterLocation)
      ensures currentPage == old(currentPage)
    {
      settled, succeeded := false, false;
      var sessionId := Lookup(query, "session_id");
      var eventId := Lookup(query, "event_id");
      if sessionId.Some? && sessionId.value != "" && eventId.Some? && eventId.value != "" {
        settled := true;
        var success := Lookup(query, "success");
        if success == Some("true") {
          succeeded := true;
          var polls, found := HandlePaymentSuccess(eventId.value, sessionId.value, answers, tickets);
          SuccessEffectsCases(sessionId.value, answers, polls, found);
        } else {
          HandlePaymentFailure(eventId.value, sessionId, report);
        }
        query := query - {"session_id", "event_id", "success"};
      }
    }
  }

  /** How often a booking reached the payment service. */
  function Initiations(log: seq<Effect>): nat {
    if log == [] then 0 else (if log[0].InitiatePayment? then 1 else 0) + Initiations(log[1..])
  }

  lemma {:induction false} InitiationsAppend(a: seq<Effect>, b: seq<Effect>)
    ensures Initiations(a + b) == Initiations(a) + Initiations(b)
  {
    if a == [] {
      assert a + b == b;
    } else {
      assert (a + b)[1..] == a[1..] + b;
      InitiationsAppend(a[1..], b);
    }
  }

  /**
   * Pressing "Book Now" twice for an event: once the first press obtained a
   * checkout, the second press sends the visitor back to that checkout and
   * starts no second payment.
   */
  method BookTwice(eventId: string, price: int, first: Checkout, second: Response<Checkout>)
    returns (initiations: nat, lastTarget: Effect)
    requires first.url != ""
    ensures initiations == 1
    ensures lastTarget == Navigate(first.url)
  {
    var page := new Page(map[], map[]);
    page.HandleBookEvent(eventId, price, true, Ok(first));
    assert HasActiveSession(page.storage, eventId);
    var booked := page.log;
    assert booked == [InitiatePayment(eventId, price), Alert(Redirecting), Navigate(first.url)];
    assert Initiations(booked[2..]) == 0;
    assert Initiations(booked[1..]) == 0;
    page.HandleBookEvent(eventId, price, true, second);
    var sentBack := [Alert(AlreadyActive), Navigate(first.url)];
    assert Initiations(sentBack[1..]) == 0;
    InitiationsAppend(booked, sentBack);
    initiations := Initiations(page.log);
    lastTarget := page.log[|page.log| - 1];
  }

  /**
   * Coming back from the checkout settles the payment, successful or not,
   * and frees the event for a new booking: the next press reaches the
   * payment service again.
   */
  method BookReturnRebook(eventId: string, sessionId: string, price: int, checkout: Checkout, success: bool,
                          answers: seq<bool>, retry: Response<Checkout>)
    returns (settled: bool, rebooked: bool)
    requires checkout.url != "" && eventId != "" && sessionId != ""
    ensures settled && rebooked
  {
    var page := new Page(map[], map[]);
    page.HandleBookEvent(eventId, price, true, Ok(checkout));
    page.query := map["session_id" := sessionId, "event_id" := eventId, "success" := if success then "true" else "false"];
    var succeeded;
    settled, succeeded := page.HandleStripeReturn(answers, NetErr(None), Ok(()));
    var before := |page.log|;
    page.HandleBookEvent(eventId, price, true, retry);
    rebooked := page.log[before] == InitiatePayment(eventId, price);
  }
}
