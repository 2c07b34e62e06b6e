/**
 * The records the client exchanges with the backend (users, events,
 * tickets), the outcome of a `fetch`, and the per-entry list updates that
 * more than one component performs.
 */
module Types {
  import opened Wrappers
  import opened Text

  datatype Role = Organizer | Attendee

  function RoleName(r: Role): string {
    match r
    case Organizer => "organizer"
    case Attendee => "attendee"
  }

  /** A user account; `joinedDate` is a timestamp in milliseconds. */
  datatype User = User(
    userId: string,
    name: string,
    email: string,
    phoneNumber: Option<string>,
    role: Role,
    joinedDate: Option<int>)

  /** An event; `date` and `createdAt` are timestamps in milliseconds. */
  datatype Event = Event(
    eventId: string,
    organizerId: string,
    title: string,
    description: string,
    date: int,
    location: string,
    totalTickets: int,
    availableTickets: Option<int>,
    price: int,
    createdAt: int)

  datatype TicketStatus = Confirmed | Cancelled

  function StatusName(s: TicketStatus): string {
    match s
    case Confirmed => "confirmed"
    case Cancelled => "cancelled"
  }

  /**
   * A ticket in the shape the stores and the attendee list use
   * (`ticket_status`, `amount`, `purchased_at`); `amount` is absent when the
   * backend sends none.
   */
  datatype Ticket = Ticket(
    ticketId: string,
    eventId: string,
    userId: string,
    paymentSessionId: string,
    amount: Option<int>,
    ticketStatus: TicketStatus,
    purchasedAt: int)

  /** What a sign-in or registration call answers on success: `data` and `token`. */
  datatype AuthPayload = AuthPayload(user: User, token: string)

  /**
   * The outcome of one `fetch`: a 2xx response with its decoded body, a
   * non-2xx response (status, status text and the body's `message`, empty
   * when it has none), or a rejected promise (`thrown` is the message of the
   * thrown `Error`, absent when something else was thrown).
   */
  datatype Response<+T> =
    | Ok(body: T)
    | HttpErr(status: nat, statusText: string, message: string)
    | NetErr(thrown: Option<string>)

  /** The stores' text for a rejected request. */
  function NetworkErrorText(thrown: Option<string>): string {
    "Network error: " + thrown.GetOr("Please check your connection and try again.")
  }

  /** The stores' text for a non-2xx response, e.g. `Failed to fetch users: 500 Internal Server Error`. */
  function HttpErrorText(what: string, status: nat, statusText: string): string {
    "Failed to " + what + ": " + IntToString(status) + " " + statusText
  }

  /**
   * `users.map(u => u.user_id === userId ? updated : u)`: the entries with
   * that id are replaced, every other entry and the length are kept.
   */
  function ReplaceUser(users: seq<User>, userId: string, updated: User): (r: seq<User>)
    ensures |r| == |users|
    ensures forall i :: 0 <= i < |users| && users[i].userId == userId ==> r[i] == updated
    ensures forall i :: 0 <= i < |users| && users[i].userId != userId ==> r[i] == users[i]
  {
    if users == [] then []
    else [if users[0].userId == userId then updated else users[0]] + ReplaceUser(users[1..], userId, updated)
  }

  /** Replacing twice with the same record is replacing once, when the record keeps the id. */
  lemma ReplaceUserIdempotent(users: seq<User>, userId: string, updated: User)
    requires updated.userId == userId
    ensures ReplaceUser(ReplaceUser(users, userId, updated), userId, updated) == ReplaceUser(users, userId, updated)
  {
  }

  /** When no entry carries the id, the list is unchanged. */
  lemma {:induction false} ReplaceUserAbsent(users: seq<User>, userId: string, updated: User)
    requires forall u :: u in users ==> u.userId != userId
    ensures ReplaceUser(users, userId, updated) == users
  {
    if users != [] {
      ReplaceUserAbsent(users[1..], userId, updated);
    }
  }
}
