/**
 * The event card's booking decisions (src/components/EventCard.tsx): how
 * many tickets it shows as available, whether the event is sold out or
 * over, which button it shows with which label, and what a click on the
 * book button does. "Now" is a parameter.
 */
module EventCard {
  import opened Wrappers
  import opened Types

  /** `available_tickets ?? total_tickets`: a recorded 0 stays 0; only a missing count falls back. */
  function AvailableTickets(e: Event): (r: int)
    ensures e.availableTickets.Some? ==> r == e.availableTickets.value
    ensures e.availableTickets.None? ==> r == e.totalTickets
  {
    e.availableTickets.GetOr(e.totalTickets)
  }

  /** `availableTickets <= 0`: a recorded count of at most 0, or no count and a total of at most 0. */
  function IsSoldOut(e: Event): (r: bool)
    ensures r <==> if e.availableTickets.Some? then e.availableTickets.value <= 0 else e.totalTickets <= 0
  {
    AvailableTickets(e) <= 0
  }

  predicate IsPast(e: Event, now: int) {
    e.date < now
  }

  /** The card's action button. */
  datatype Button =
    | ViewTicket(disabled: bool)
    | Book(disabled: bool, caption: string)

  const Processing := "Processing..."
  const EventEnded := "Event Ended"
  const SoldOut := "Sold Out"
  const BookNow := "Book Now"

  /**
   * The button a card shows: with a ticket, "View Ticket", disabled only
   * while a payment is being processed; without one, the book button,
   * disabled when the event is over, sold out or a payment is in progress,
   * captioned by the first of those that holds.
   */
  function CardButton(e: Event, hasTicket: bool, now: int, isProcessing: bool): (b: Button)
    ensures b.ViewTicket? <==> hasTicket
    ensures b.ViewTicket? ==> b.disabled == isProcessing
    ensures b.Book? ==> (b.disabled <==> IsPast(e, now) || IsSoldOut(e) || isProcessing)
    ensures b.Book? ==> (b.caption == Processing <==> isProcessing)
    ensures b.Book? ==> (b.caption == EventEnded <==> !isProcessing && IsPast(e, now))
    ensures b.Book? ==> (b.caption == SoldOut <==> !isProcessing && !IsPast(e, now) && IsSoldOut(e))
    ensures b.Book? ==> (b.caption == BookNow <==> !isProcessing && !IsPast(e, now) && !IsSoldOut(e))
  {
    if hasTicket then ViewTicket(isProcessing)
    else
      Book(IsPast(e, now) || IsSoldOut(e) || isProcessing,
           if isProcessing then Processing
           else if IsPast(e, now) then EventEnded
           else if IsSoldOut(e) then SoldOut
           else BookNow)
  }

  /** The book button says "Book Now" exactly when it can be clicked. */
  lemma BookNowIffEnabled(e: Event, now: int, isProcessing: bool)
    ensures CardButton(e, false, now, isProcessing).caption == BookNow <==> !CardButton(e, false, now, isProcessing).disabled
  {
  }

  /** What a click on the book button does. */
  datatype Click = RedirectTo(url: string) | BookEvent(eventId: string, price: int)

  const RegisterRedirect := "/register?redirect=/events/"

  /**
   * `handleBookClick`: a visitor without a session is sent to registration
   * with a return address naming the event, and `onBookEvent` is not called;
   * a signed-in user's click calls `onBookEvent(event_id, price)`.
   */
  function BookClick(e: Event, isAuthenticated: bool): (c: Click)
    ensures c.BookEvent? <==> isAuthenticated
    ensures c.BookEvent? ==> c.eventId == e.eventId && c.price == e.price
    ensures c.RedirectTo? ==> c.url == RegisterRedirect + e.eventId
  {
    if !isAuthenticated then RedirectTo(RegisterRedirect + e.eventId) else BookEvent(e.eventId, e.price)
  }

  /** The return address names the event: it is recovered from the redirect. */
  lemma RedirectNamesEvent(e: Event)
    ensures BookClick(e, false).url[|RegisterRedirect|..] == e.eventId
    ensures BookClick(e, false).url[..|RegisterRedirect|] == RegisterRedirect
  {
  }

  /**
   * What a click on a card does: nothing when the book button is not shown
   * or is disabled (a disabled button does not fire its handler), otherwise
   * `handleBookClick`.
   */
  function ClickOnCard(e: Event, hasTicket: bool, now: int, isProcessing: bool, isAuthenticated: bool): (r: Option<Click>)
    ensures r.Some? <==> !hasTicket && !IsPast(e, now) && !IsSoldOut(e) && !isProcessing
    ensures r.Some? ==> r.value == BookClick(e, isAuthenticated)
  {
    var b := CardButton(e, hasTicket, now, isProcessing);
    if b.Book? && !b.disabled then Some(BookClick(e, isAuthenticated)) else None
  }

  /**
   * `onBookEvent` is only ever called for an event the user holds no ticket
   * for, that has not started, has tickets left, while no payment is in
   * progress, and by a signed-in user, and then with the card's own id and
   * price.
   */
  lemma BookingOnlyWhenOpen(e: Event, hasTicket: bool, now: int, isProcessing: bool, isAuthenticated: bool)
    ensures ClickOnCard(e, hasTicket, now, isProcessing, isAuthenticated).Some? &&
            ClickOnCard(e, hasTicket, now, isProcessing, isAuthenticated).value.BookEvent? <==>
            !hasTicket && !IsPast(e, now) && !IsSoldOut(e) && !isProcessing && isAuthenticated
    ensures ClickOnCard(e, hasTicket, now, isProcessing, isAuthenticated) == Some(BookEvent(e.eventId, e.price)) <==>
            !hasTicket && !IsPast(e, now) && !IsSoldOut(e) && !isProcessing && isAuthenticated
  {
  }
}
