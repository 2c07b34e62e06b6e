/**
 * The attendee list of one event (src/components/modals/attendees-modal.tsx):
 * the tickets of the event joined with the user directory, the search over
 * it, the summary figures, and the CSV export with its file name. The
 * rendering of a purchase date is the parameter `formatDate`.
 */
module Attendees {
  import opened Wrappers
  import opened Text
  import opened Types

  /** A user together with one of their tickets for the event. */
  datatype AttendeeWithTicket = AttendeeWithTicket(user: User, ticketId: string, ticketStatus: TicketStatus, registrationDate: int, amount: int)

  /** The position of the first user with the id, `|users|` when there is none. */
  function FirstUserIndex(users: seq<User>, userId: string): (i: nat)
    ensures i <= |users|
    ensures i < |users| ==> users[i].userId == userId
    ensures forall j :: 0 <= j < i ==> users[j].userId != userId
  {
    if users == [] then 0
    else if users[0].userId == userId then 0
    else 1 + FirstUserIndex(users[1..], userId)
  }

  /** `users.find(u => u.user_id === userId)`. */
  function FindUser(users: seq<User>, userId: string): (r: Option<User>)
    ensures r.None? <==> forall u :: u in users ==> u.userId != userId
    ensures r.Some? ==> r.value.userId == userId && r.value == users[FirstUserIndex(users, userId)]
  {
    var i := FirstUserIndex(users, userId);
    if i == |users| then None else Some(users[i])
  }

  /** `Number(ticket.amount || 0)`: a missing amount counts as 0. */
  function AmountOf(t: Ticket): int {
    t.amount.GetOr(0)
  }

  /** The attendee a ticket yields, `None` when its user is not in the directory. */
  function AttendeeOf(t: Ticket, users: seq<User>): (r: Option<AttendeeWithTicket>)
    ensures r.Some? <==> FindUser(users, t.userId).Some?
    ensures r.Some? ==> r.value == AttendeeWithTicket(FindUser(users, t.userId).value, t.ticketId, t.ticketStatus, t.purchasedAt, AmountOf(t))
  {
    match FindUser(users, t.userId)
    case None => None
    case Some(u) => Some(AttendeeWithTicket(u, t.ticketId, t.ticketStatus, t.purchasedAt, AmountOf(t)))
  }

  /**
   * The join of the first effect: one attendee per ticket of the event whose
   * user is known, in ticket order; tickets of unknown users are dropped.
   */
  function JoinAttendees(tickets: seq<Ticket>, users: seq<User>, eventId: string): (r: seq<AttendeeWithTicket>)
    ensures |r| <= |tickets|
    ensures forall a :: a in r <==> exists t :: t in tickets && t.eventId == eventId && AttendeeOf(t, users) == Some(a)
  {
    if tickets == [] then []
    else
      var t := tickets[0];
      var rest := JoinAttendees(tickets[1..], users, eventId);
      assert forall x :: x in tickets <==> x == t || x in tickets[1..];
      if t.eventId == eventId && AttendeeOf(t, users).Some? then [AttendeeOf(t, users).value] + rest else rest
  }

  /** Each attendee belongs to some user of the directory. */
  lemma {:induction false} JoinedUsersKnown(tickets: seq<Ticket>, users: seq<User>, eventId: string)
    ensures forall a :: a in JoinAttendees(tickets, users, eventId) ==> a.user in users
  {
    forall a | a in JoinAttendees(tickets, users, eventId)
      ensures a.user in users
    {
      var t :| t in tickets && t.eventId == eventId && AttendeeOf(t, users) == Some(a);
      assert a.user == users[FirstUserIndex(users, t.userId)];
    }
  }

  /** The join keeps ticket order: it joins each part of the ticket list on its own. */
  lemma {:induction false} JoinAttendeesAppend(a: seq<Ticket>, b: seq<Ticket>, users: seq<User>, eventId: string)
    ensures JoinAttendees(a + b, users, eventId) == JoinAttendees(a, users, eventId) + JoinAttendees(b, users, eventId)
  {
    if a == [] {
      assert a + b == b;
    } else {
      assert (a + b)[0] == a[0] && (a + b)[1..] == a[1..] + b;
      JoinAttendeesAppend(a[1..], b, users, eventId);
      var t := a[0];
      if t.eventId == eventId && AttendeeOf(t, users).Some? {
        var x, p, q := AttendeeOf(t, users).value, JoinAttendees(a[1..], users, eventId), JoinAttendees(b, users, eventId);
        assert [x] + (p + q) == ([x] + p) + q;
      }
    }
  }

  /** One ticket yields its attendee when it is for the event and its user is known, and nothing otherwise. */
  lemma JoinAttendeesOfOne(t: Ticket, users: seq<User>, eventId: string)
    ensures JoinAttendees([t], users, eventId) ==
            if t.eventId == eventId && AttendeeOf(t, users).Some? then [AttendeeOf(t, users).value] else []
  {
    assert [t][1..] == [];
  }

  /** The search of the second effect: the term in the name, the e-mail or the status, ignoring case. */
  predicate MatchesTerm(a: AttendeeWithTicket, term: string) {
    var t := ToLower(term);
    Contains(ToLower(a.user.name), t) || Contains(ToLower(a.user.email), t) ||
    Contains(ToLower(StatusName(a.ticketStatus)), t)
  }

  function Search(attendees: seq<AttendeeWithTicket>, term: string): (r: seq<AttendeeWithTicket>)
    ensures |r| <= |attendees|
    ensures forall a :: a in r <==> a in attendees && MatchesTerm(a, term)
  {
    if attendees == [] then []
    else
      var rest := Search(attendees[1..], term);
      assert forall x :: x in attendees <==> x == attendees[0] || x in attendees[1..];
      if MatchesTerm(attendees[0], term) then [attendees[0]] + rest else rest
  }

  /** An empty search term keeps every attendee, in order. */
  lemma {:induction false} SearchEmptyTerm(attendees: seq<AttendeeWithTicket>)
    ensures Search(attendees, "") == attendees
  {
    if attendees != [] {
      assert ToLower("") == "";
      ContainsEmpty(ToLower(attendees[0].user.name));
      SearchEmptyTerm(attendees[1..]);
    }
  }

  /** The search keeps the order of the list: it filters each part on its own. */
  lemma {:induction false} SearchAppend(a: seq<AttendeeWithTicket>, b: seq<AttendeeWithTicket>, term: string)
    ensures Search(a + b, term) == Search(a, term) + Search(b, term)
  {
    if a == [] {
      assert a + b == b;
    } else {
      assert (a + b)[0] == a[0] && (a + b)[1..] == a[1..] + b;
      SearchAppend(a[1..], b, term);
      if MatchesTerm(a[0], term) {
        assert [a[0]] + (Search(a[1..], term) + Search(b, term)) == ([a[0]] + Search(a[1..], term)) + Search(b, term);
      }
    }
  }

  /** One attendee is kept exactly when it matches the term. */
  lemma SearchOfOne(x: AttendeeWithTicket, term: string)
    ensures Search([x], term) == if MatchesTerm(x, term) then [x] else []
  {
    assert [x][1..] == [];
  }

  /** The "Confirmed" figure: how many of the listed attendees are confirmed. */
  function ConfirmedCount(attendees: seq<AttendeeWithTicket>): (n: nat)
    ensures n <= |attendees|
    ensures n == 0 <==> forall a :: a in attendees ==> a.ticketStatus != Confirmed
    ensures n == |attendees| <==> forall a :: a in attendees ==> a.ticketStatus == Confirmed
  {
    if attendees == [] then 0
    else
      var rest := ConfirmedCount(attendees[1..]);
      assert forall x :: x in attendees <==> x == attendees[0] || x in attendees[1..];
      (if attendees[0].ticketStatus == Confirmed then 1 else 0) + rest
  }

  /** The figure labelled "Pending", which counts the cancelled tickets. */
  function CancelledCount(attendees: seq<AttendeeWithTicket>): (n: nat)
    ensures n <= |attendees|
    ensures n == 0 <==> forall a :: a in attendees ==> a.ticketStatus != Cancelled
    ensures n == |attendees| <==> forall a :: a in attendees ==> a.ticketStatus == Cancelled
  {
    if attendees == [] then 0
    else
      var rest := CancelledCount(attendees[1..]);
      assert forall x :: x in attendees <==> x == attendees[0] || x in attendees[1..];
      (if attendees[0].ticketStatus == Cancelled then 1 else 0) + rest
  }

  /** Every ticket is either confirmed or cancelled, so the two figures add up to the list. */
  lemma {:induction false} CountsCoverAll(attendees: seq<AttendeeWithTicket>)
    ensures ConfirmedCount(attendees) + CancelledCount(attendees) == |attendees|
  {
    if attendees != [] {
      CountsCoverAll(attendees[1..]);
    }
  }

  /** The "Revenue" figure: the amounts of the confirmed attendees added up. */
  function Revenue(attendees: seq<AttendeeWithTicket>): (r: int)
    ensures (forall a :: a in attendees ==> a.amount >= 0) ==> r >= 0
    ensures (forall a :: a in attendees ==> a.ticketStatus != Confirmed) ==> r == 0
  {
    if attendees == [] then 0
    else
      var rest := Revenue(attendees[1..]);
      assert forall x :: x in attendees[1..] ==> x in attendees;
      (if attendees[0].ticketStatus == Confirmed then attendees[0].amount else 0) + rest
  }

  /** The three figures of a list are those of its two parts added up. */
  lemma {:induction false} FiguresAppend(a: seq<AttendeeWithTicket>, b: seq<AttendeeWithTicket>)
    ensures ConfirmedCount(a + b) == ConfirmedCount(a) + ConfirmedCount(b)
    ensures CancelledCount(a + b) == CancelledCount(a) + CancelledCount(b)
    ensures Revenue(a + b) == Revenue(a) + Revenue(b)
  {
    if a == [] {
      assert a + b == b;
    } else {
      assert (a + b)[0] == a[0] && (a + b)[1..] == a[1..] + b;
      FiguresAppend(a[1..], b);
    }
  }

  /** The figures of a list with one attendee in front of it. */
  lemma FiguresOfCons(x: AttendeeWithTicket, rest: seq<AttendeeWithTicket>)
    ensures ConfirmedCount([x] + rest) == (if x.ticketStatus == Confirmed then 1 else 0) + ConfirmedCount(rest)
    ensures CancelledCount([x] + rest) == (if x.ticketStatus == Cancelled then 1 else 0) + CancelledCount(rest)
    ensures Revenue([x] + rest) == (if x.ticketStatus == Confirmed then x.amount else 0) + Revenue(rest)
  {
    assert ([x] + rest)[0] == x && ([x] + rest)[1..] == rest;
  }

  /** One attendee counts towards the figure of its status, and adds its amount to the revenue only when confirmed. */
  lemma FiguresOfOne(x: AttendeeWithTicket)
    ensures ConfirmedCount([x]) == if x.ticketStatus == Confirmed then 1 else 0
    ensures CancelledCount([x]) == if x.ticketStatus == Cancelled then 1 else 0
    ensures Revenue([x]) == if x.ticketStatus == Confirmed then x.amount else 0
  {
    assert [x][1..] == [];
  }

  /** With no negative amounts, narrowing the search never raises the revenue or the counts. */
  lemma {:induction false} SearchNarrowsFigures(attendees: seq<AttendeeWithTicket>, term: string)
    requires forall a :: a in attendees ==> a.amount >= 0
    ensures Revenue(Search(attendees, term)) <= Revenue(attendees)
    ensures ConfirmedCount(Search(attendees, term)) <= ConfirmedCount(attendees)
    ensures CancelledCount(Search(attendees, term)) <= CancelledCount(attendees)
  {
    if attendees != [] {
      var x, tail := attendees[0], attendees[1..];
      SearchNarrowsFigures(tail, term);
      if MatchesTerm(x, term) {
        FiguresOfCons(x, Search(tail, term));
      }
    }
  }

  const Header: seq<string> := ["Name", "Email", "Phone", "Registration Date", "Ticket Status", "Amount Paid"]

  /** One line of the export: a missing phone and a zero amount both read "N/A". */
  function Row(a: AttendeeWithTicket, formatDate: int -> string): (r: seq<string>)
    ensures |r| == |Header|
    ensures r[2] == (if a.user.phoneNumber.Some? && a.user.phoneNumber.value != "" then a.user.phoneNumber.value else "N/A")
    ensures r[5] == "N/A" <==> a.amount == 0
  {
    [a.user.name, a.user.email,
     if a.user.phoneNumber.Some? && a.user.phoneNumber.value != "" then a.user.phoneNumber.value else "N/A",
     formatDate(a.registrationDate),
     StatusName(a.ticketStatus),
     if a.amount != 0 then "\U{20B9}" + IntToString(a.amount) else "N/A"]
  }

  /** One row per attendee, in order. */
  function Rows(attendees: seq<AttendeeWithTicket>, formatDate: int -> string): (r: seq<seq<string>>)
    ensures |r| == |attendees|
    ensures forall i :: 0 <= i < |attendees| ==> r[i] == Row(attendees[i], formatDate)
  {
    if attendees == [] then [] else [Row(attendees[0], formatDate)] + Rows(attendees[1..], formatDate)
  }

  /** The table of the export: the header, then one row per listed attendee. */
  function CsvRows(attendees: seq<AttendeeWithTicket>, formatDate: int -> string): (r: seq<seq<string>>)
    ensures |r| == |attendees| + 1 && r[0] == Header
    ensures forall i :: 0 <= i < |attendees| ==> r[i + 1] == Row(attendees[i], formatDate)
  {
    [Header] + Rows(attendees, formatDate)
  }

  /** Each row joined with commas. */
  function Lines(rows: seq<seq<string>>): (r: seq<string>)
    ensures |r| == |rows| && forall i :: 0 <= i < |rows| ==> r[i] == Join(rows[i], ",")
  {
    seq(|rows|, i requires 0 <= i < |rows| => Join(rows[i], ","))
  }

  /** The exported text: the lines joined with newlines. */
  function CsvContent(attendees: seq<AttendeeWithTicket>, formatDate: int -> string): (r: string)
    ensures attendees == [] ==> r == Join(Header, ",")
    ensures attendees != [] ==> Join(Header, ",") + "\n" <= r
  {
    Join(Lines(CsvRows(attendees, formatDate)), "\n")
  }

  /** One more attendee adds one row at the end. */
  lemma RowsSnoc(attendees: seq<AttendeeWithTicket>, x: AttendeeWithTicket, formatDate: int -> string)
    ensures Rows(attendees + [x], formatDate) == Rows(attendees, formatDate) + [Row(x, formatDate)]
  {
    var r, r' := Rows(attendees, formatDate), Rows(attendees + [x], formatDate);
    forall i | 0 <= i < |r'|
      ensures r'[i] == (r + [Row(x, formatDate)])[i]
    {
      assert (attendees + [x])[i] == if i < |attendees| then attendees[i] else x;
    }
    assert r' == r + [Row(x, formatDate)];
  }

  /** One more attendee adds one row at the end of the table. */
  lemma CsvRowsSnoc(attendees: seq<AttendeeWithTicket>, x: AttendeeWithTicket, formatDate: int -> string)
    ensures CsvRows(attendees + [x], formatDate) == CsvRows(attendees, formatDate) + [Row(x, formatDate)]
  {
    RowsSnoc(attendees, x, formatDate);
    var r := Rows(attendees, formatDate);
    assert [Header] + (r + [Row(x, formatDate)]) == ([Header] + r) + [Row(x, formatDate)];
  }

  /** One more row adds one line: that row joined with commas. */
  lemma LinesSnoc(rows: seq<seq<string>>, row: seq<string>)
    ensures Lines(rows + [row]) == Lines(rows) + [Join(row, ",")]
  {
    var l, l' := Lines(rows), Lines(rows + [row]);
    assert forall i :: 0 <= i < |l'| ==> l'[i] == (l + [Join(row, ",")])[i] by {
      forall i | 0 <= i < |l'|
        ensures l'[i] == (l + [Join(row, ",")])[i]
      {
        assert (rows + [row])[i] == if i < |rows| then rows[i] else row;
      }
    }
  }

  /** One more attendee adds one line to the export: a line break, then that attendee's row joined with commas. */
  lemma CsvContentSnoc(attendees: seq<AttendeeWithTicket>, x: AttendeeWithTicket, formatDate: int -> string)
    ensures CsvContent(attendees + [x], formatDate) == CsvContent(attendees, formatDate) + "\n" + Join(Row(x, formatDate), ",")
  {
    var rows := CsvRows(attendees, formatDate);
    CsvRowsSnoc(attendees, x, formatDate);
    LinesSnoc(rows, Row(x, formatDate));
    JoinAppend(Lines(rows), [Join(Row(x, formatDate), ",")], "\n");
  }

  /** A cell holds no line break. */
  predicate SingleLine(cell: string) {
    '\n' !in cell
  }

  /** A string without the character counts none of it. */
  lemma {:induction false} CountAbsent(c: char, s: string)
    requires c !in s
    ensures Count(c, s) == 0
  {
    if s != [] {
      assert s == [s[0]] + s[1..];
      CountAbsent(c, s[1..]);
    }
  }

  lemma {:induction false} CountAllZero(c: char, parts: seq<string>)
    requires forall i :: 0 <= i < |parts| ==> Count(c, parts[i]) == 0
    ensures CountAll(c, parts) == 0
  {
    if parts != [] {
      CountAllZero(c, parts[1..]);
    }
  }

  /** The cells of a row that the attendee's own text does not fill hold no line break. */
  lemma RowFixedCellsSingleLine(a: AttendeeWithTicket)
    ensures SingleLine(StatusName(a.ticketStatus)) && SingleLine("N/A")
    ensures SingleLine("\U{20B9}" + IntToString(a.amount))
  {
    var s := IntToString(a.amount);
    forall i | 0 <= i < |s|
      ensures s[i] != '\n'
    {
      if a.amount < 0 && i > 0 {
        assert s[i] == s[1..][i - 1];
      }
    }
  }

  /**
   * Every cell of a row is single-line when the attendee's name, e-mail,
   * phone and date rendering are.
   */
  lemma RowSingleLine(a: AttendeeWithTicket, formatDate: int -> string, k: int)
    requires SingleLine(a.user.name) && SingleLine(a.user.email) && SingleLine(a.user.phoneNumber.GetOr("")) &&
      SingleLine(formatDate(a.registrationDate))
    requires 0 <= k < |Header|
    ensures SingleLine(Row(a, formatDate)[k])
  {
    RowFixedCellsSingleLine(a);
  }

  lemma HeaderSingleLine(k: int)
    requires 0 <= k < |Header|
    ensures SingleLine(Header[k])
  {
  }

  /**
   * When no name, e-mail, phone or date rendering holds a line break, the
   * export has exactly one line break per attendee: the header line and
   * one line per row.
   */
  lemma CsvLineCount(attendees: seq<AttendeeWithTicket>, formatDate: int -> string)
    requires forall a :: a in attendees ==>
      SingleLine(a.user.name) && SingleLine(a.user.email) && SingleLine(a.user.phoneNumber.GetOr("")) &&
      SingleLine(formatDate(a.registrationDate))
    ensures Count('\n', CsvContent(attendees, formatDate)) == |attendees|
  {
    var rows := CsvRows(attendees, formatDate);
    var lines := Lines(rows);
    forall i | 0 <= i < |rows|
      ensures Count('\n', lines[i]) == 0
    {
      forall k | 0 <= k < |rows[i]|
        ensures Count('\n', rows[i][k]) == 0
      {
        if i > 0 {
          var a := attendees[i - 1];
          assert a in attendees;
          RowSingleLine(a, formatDate, k);
        } else {
          HeaderSingleLine(k);
        }
        CountAbsent('\n', rows[i][k]);
      }
      CountAllZero('\n', rows[i]);
      CountJoinPlain('\n', rows[i], ",");
    }
    CountAllZero('\n', lines);
    CountJoinSeparator('\n', lines);
  }

  /** A string none of whose characters is white space. */
  lemma NoSpaceOfChars(s: string)
    requires forall c :: c in s ==> !IsSpace(c)
    ensures NoSpace(s)
  {
    forall i | 0 <= i < |s|
      ensures !IsSpace(s[i])
    {
      assert s[i] in s;
    }
  }

  /** `eventTitle.replace(/\s+/g, "_") + "_attendees.csv"`. */
  function ExportFileName(eventTitle: string): (r: string)
    ensures |r| >= 14 && r[|r| - 14..] == "_attendees.csv"
    ensures NoSpace(r)
    ensures NoSpace(eventTitle) ==> r == eventTitle + "_attendees.csv"
  {
    var stem := ReplaceSpaceRuns(eventTitle);
    var suffix := "_attendees.csv";
    ReplaceSpaceRunsShape(eventTitle);
    NoSpaceOfChars(suffix);
    var r := stem + suffix;
    assert r[|r| - 14..] == suffix;
    assert forall i :: |stem| <= i < |r| ==> r[i] == suffix[i - |stem|];
    r
  }

  /**
   * A title whose words are separated by one run of white space is exported
   * under the two words joined by a single `_`.
   */
  lemma ExportFileNameOfRun(a: string, w: string, b: string)
    requires NoSpace(a) && NoSpace(b)
    requires w != [] && forall i :: 0 <= i < |w| ==> IsSpace(w[i])
    ensures ExportFileName(a + w + b) == a + "_" + b + "_attendees.csv"
  {
    assert a != [] ==> !IsSpace(a[|a| - 1]);
    assert b != [] ==> !IsSpace(b[0]);
    ReplaceSpaceRunsSplit(a, w, b);
    ReplaceSpaceRunsShape(a);
    ReplaceSpaceRunsShape(b);
  }

  /** The modal's state, which its two effects fill in. */
  class Modal {
    var attendees: seq<AttendeeWithTicket>
    var filteredAttendees: seq<AttendeeWithTicket>
    var loading: bool
    var searchTerm: string

    constructor ()
      ensures attendees == [] && filteredAttendees == [] && loading && searchTerm == ""
    {
      attendees, filteredAttendees, loading, searchTerm := [], [], true, "";
    }

    /**
     * The join effect: while the modal is open for an event, both lists
     * become the joined attendees and loading ends; otherwise nothing changes.
     */
    method JoinEffect(isOpen: bool, eventId: string, tickets: seq<Ticket>, users: seq<User>)
      modifies this
      ensures isOpen && eventId != "" ==>
        attendees == JoinAttendees(tickets, users, eventId) && filteredAttendees == attendees && !loading
      ensures !(isOpen && eventId != "") ==>
        attendees == old(attendees) && filteredAttendees == old(filteredAttendees) && loading == old(loading)
      ensures searchTerm == old(searchTerm)
    {
      if isOpen && eventId != "" {
        loading := true;
        var joined := JoinAttendees(tickets, users, eventId);
        attendees := joined;
        filteredAttendees := joined;
        loading := false;
      }
    }

    /** The search effect: the shown list is the search over all attendees. */
    method SearchEffect()
      modifies this
      ensures filteredAttendees == Search(attendees, searchTerm)
      ensures attendees == old(attendees) && loading == old(loading) && searchTerm == old(searchTerm)
    {
      filteredAttendees := Search(attendees, searchTerm);
    }

    /** Typing in the search box; the search effect follows. */
    method SetSearchTerm(term: string)
      modifies this
      ensures searchTerm == term && filteredAttendees == Search(attendees, term)
      ensures attendees == old(attendees) && loading == old(loading)
    {
      searchTerm := term;
      SearchEffect();
    }
  }

  /**
   * Opening the modal and typing a term shows the attendees of the event
   * that match it, never more than the event has tickets; clearing the term
   * again shows all of them.
   */
  method OpenSearchClear(tickets: seq<Ticket>, users: seq<User>, eventId: string, term: string)
    returns (shown: seq<AttendeeWithTicket>, cleared: seq<AttendeeWithTicket>)
    requires eventId != ""
    ensures forall a :: a in shown <==> a in JoinAttendees(tickets, users, eventId) && MatchesTerm(a, term)
    ensures |shown| <= |tickets|
    ensures cleared == JoinAttendees(tickets, users, eventId)
  {
    var modal := new Modal();
    modal.JoinEffect(true, eventId, tickets, users);
    modal.SearchEffect();
    modal.SetSearchTerm(term);
    shown := modal.filteredAttendees;
    modal.SetSearchTerm("");
    SearchEmptyTerm(modal.attendees);
    cleared := modal.filteredAttendees;
  }
}
