/**
 * The organiser dashboard (src/pages/DashboardPage.tsx): its own copies of
 * the organiser's events and of all users, a loading flag, the organiser
 * gate, and the role change that updates the user list and, for the
 * signed-in user, the session.
 */
module Dashboard {
  import opened Wrappers
  import opened Types
  import AuthStore
  import EventCard

  /** The dashboard loads and shows its data only for an organiser. */
  predicate IsOrganizer(user: Option<User>) {
    user.Some? && user.value.role == Organizer
  }

  /** What the page renders. */
  datatype View = AccessDenied | LoadingView | Tables

  /** The access-denied view for anyone but an organiser, then the loading view, then the tables. */
  function PageView(user: Option<User>, loading: bool): (v: View)
    ensures v == AccessDenied <==> !IsOrganizer(user)
    ensures v == Tables <==> IsOrganizer(user) && !loading
  {
    if !IsOrganizer(user) then AccessDenied else if loading then LoadingView else Tables
  }

  /**
   * The "available" column: `available_tickets || total_tickets`. A missing
   * count and a count of 0 both fall back to the total.
   */
  function AvailableShown(e: Event): (r: int)
    ensures e.availableTickets.None? || e.availableTickets == Some(0) ==> r == e.totalTickets
    ensures e.availableTickets.Some? && e.availableTickets.value != 0 ==> r == e.availableTickets.value
  {
    if e.availableTickets.Some? && e.availableTickets.value != 0 then e.availableTickets.value else e.totalTickets
  }

  /**
   * The dashboard and the event card agree on every event except one whose
   * recorded count is 0: the card shows 0 (sold out), the dashboard the
   * total.
   */
  lemma AvailableDiffersOnlyAtZero(e: Event)
    ensures AvailableShown(e) == EventCard.AvailableTickets(e) || e.availableTickets == Some(0)
    ensures e.availableTickets == Some(0) ==>
      EventCard.AvailableTickets(e) == 0 && AvailableShown(e) == e.totalTickets
  {
  }

  class Page {
    var events: seq<Event>
    var users: seq<User>
    var loading: bool

    constructor ()
      ensures events == [] && users == [] && loading
    {
      events, users, loading := [], [], true;
    }

    /** `fetchOrganizerEvents`: a 2xx answer replaces the events; loading ends whatever happens. */
    method FetchOrganizerEvents(response: Response<seq<Event>>)
      modifies this
      ensures events == (if response.Ok? then response.body else old(events))
      ensures users == old(users) && !loading
    {
      if response.Ok? {
        events := response.body;
      }
      loading := false;
    }

    /** `fetchAllUsers`: a 2xx answer replaces the users; nothing else changes. */
    method FetchAllUsers(response: Response<seq<User>>)
      modifies this
      ensures users == (if response.Ok? then response.body else old(users))
      ensures events == old(events) && loading == old(loading)
    {
      if response.Ok? {
        users := response.body;
      }
    }

    /**
     * The effect that runs when the signed-in user changes: both loads for
     * an organiser, nothing at all for anyone else.
     */
    method OnUserChange(user: Option<User>, eventsResponse: Response<seq<Event>>, usersResponse: Response<seq<User>>)
      modifies this
      ensures IsOrganizer(user) ==>
        events == (if eventsResponse.Ok? then eventsResponse.body else old(events)) &&
        users == (if usersResponse.Ok? then usersResponse.body else old(users)) && !loading
      ensures !IsOrganizer(user) ==> events == old(events) && users == old(users) && loading == old(loading)
    {
      if IsOrganizer(user) {
        FetchOrganizerEvents(eventsResponse);
        FetchAllUsers(usersResponse);
      }
    }

    /**
     * `handleRoleChange`: after a 2xx answer every listed user with that id
     * becomes the returned record and, when it is the signed-in user, the
     * session's user becomes it too; after a non-2xx answer or a rejected
     * request neither the list nor the session changes.
     */
    method HandleRoleChange(userId: string, newRole: Role, response: Response<User>, session: AuthStore.Store)
      modifies this, session
      ensures response.Ok? ==> users == ReplaceUser(old(users), userId, response.body)
      ensures !response.Ok? ==> users == old(users)
      ensures response.Ok? && old(session.user).Some? && old(session.user).value.userId == userId ==>
        session.user == Some(response.body)
      ensures !(response.Ok? && old(session.user).Some? && old(session.user).value.userId == userId) ==>
        session.user == old(session.user)
      ensures session.token == old(session.token) && session.isAuthenticated == old(session.isAuthenticated)
      ensures session.isLoading == old(session.isLoading)
      ensures events == old(events) && loading == old(loading)
    {
      if response.Ok? {
        users := ReplaceUser(users, userId, response.body);
        if session.user.Some? && userId == session.user.value.userId {
          session.UpdateUser(response.body);
        }
      }
    }
  }

  /**
   * An organiser who changes their own role: the list entry and the
   * session both carry the server's record, the session stays signed in,
   * and every other listed user is kept.
   */
  method ChangeOwnRole(me: User, token: string, others: seq<User>, newRole: Role, answer: User)
    returns (sessionUser: Option<User>, signedIn: bool, listed: seq<User>)
    requires me.role == Organizer
    requires forall u :: u in others ==> u.userId != me.userId
    ensures sessionUser == Some(answer) && signedIn
    ensures listed == [answer] + others
  {
    var session := new AuthStore.Store.Rehydrate(Some(me), Some(token), true);
    var page := new Page();
    page.OnUserChange(Some(me), Ok([]), Ok([me] + others));
    page.HandleRoleChange(me.userId, newRole, Ok(answer), session);
    sessionUser, signedIn, listed := session.user, session.isAuthenticated, page.users;
    ReplaceUserAbsent(others, me.userId, answer);
    assert ([me] + others)[1..] == others;
    assert ReplaceUser([me] + others, me.userId, answer) == [answer] + ReplaceUser(others, me.userId, answer);
  }
}
