/**
 * The event validator (src/lib/event-schema.ts): an object schema whose
 * fields are checked in declaration order, each yielding its own issues,
 * and which produces the trimmed, typed record when no field has any.
 * Dates are timestamps; turning the submitted text into one (`new Date`) is
 * the map `parseDate` from the texts that denote a valid date to their
 * timestamps (a text outside it is an invalid date), and the start of the
 * current day is the parameter `startOfToday`.
 */
module EventSchema {
  import opened Wrappers
  import opened Text

  /** A JavaScript number as the schema sees it: `NaN` or a finite value. */
  datatype NumberValue = NaN | Num(value: real)

  /** The object handed to the schema; `None` is a missing (`undefined`) field. */
  datatype EventInput = EventInput(
    eventId: Option<string>,
    organizerId: Option<string>,
    title: string,
    description: string,
    date: Option<string>,
    location: string,
    totalTickets: NumberValue,
    price: NumberValue)

  /** The record a successful parse returns: trimmed strings, a timestamp and whole numbers. */
  datatype ValidEvent = ValidEvent(
    eventId: Option<string>,
    organizerId: Option<string>,
    title: string,
    description: string,
    date: int,
    location: string,
    totalTickets: int,
    price: int)

  /** One validation issue: the path of the field and its message. */
  datatype Issue = Issue(path: seq<string>, message: string)

  datatype ParseResult = Parsed(value: ValidEvent) | Invalid(issues: seq<Issue>)

  const Required := "Required"
  const InvalidDate := "Invalid date"
  const ExpectedNumber := "Expected number, received nan"
  const ExpectedInteger := "Expected integer, received float"

  predicate IsInteger(x: real) {
    x.Floor as real == x
  }

  /** A text field's rule: its trimmed length is at least `min` and, when given, at most `max`. */
  predicate TextOk(value: string, min: nat, max: Option<nat>) {
    min <= |Trim(value)| && (max.Some? ==> |Trim(value)| <= max.value)
  }

  /** An optional id's rule: absent, or not blank once trimmed. */
  predicate OptionalIdOk(value: Option<string>) {
    value.None? || Trim(value.value) != ""
  }

  /** A count's rule: a whole number above zero. */
  predicate CountOk(value: NumberValue) {
    value.Num? && IsInteger(value.value) && value.value > 0.0
  }

  /** The date's rule: present, a valid date, and not before the start of today. */
  predicate DateOk(date: Option<string>, parseDate: map<string, int>, startOfToday: int) {
    date.Some? && date.value != "" &&
    Lookup(parseDate, date.value).Some? && Lookup(parseDate, date.value).value >= startOfToday
  }

  /** `z.string().trim().min(min)` followed, for the description, by `.max(max)`. */
  function TextIssues(field: string, value: string, min: nat, minMessage: string, max: Option<nat>, maxMessage: string): (r: seq<Issue>)
    ensures r == [] <==> TextOk(value, min, max)
    ensures forall i :: 0 <= i < |r| ==> r[i].path == [field]
  {
    var t := Trim(value);
    (if |t| < min then [Issue([field], minMessage)] else []) +
    (if max.Some? && |t| > max.value then [Issue([field], maxMessage)] else [])
  }

  /** `z.string().trim().min(1).optional()`: absent is fine, present must not be blank. */
  function OptionalIdIssues(field: string, value: Option<string>, message: string): (r: seq<Issue>)
    ensures r == [] <==> OptionalIdOk(value)
    ensures forall i :: 0 <= i < |r| ==> r[i] == Issue([field], message)
  {
    if value.Some? && Trim(value.value) == "" then [Issue([field], message)] else []
  }

  /**
   * `z.number().int().positive()`: `NaN` is not a number; otherwise the
   * whole-number and the positivity check each add their issue.
   */
  function CountIssues(field: string, value: NumberValue, message: string): (r: seq<Issue>)
    ensures r == [] <==> CountOk(value)
    ensures forall i :: 0 <= i < |r| ==> r[i].path == [field]
    ensures value.Num? && value.value <= 0.0 ==> Issue([field], message) in r
  {
    match value
    case NaN => [Issue([field], ExpectedNumber)]
    case Num(x) =>
      (if IsInteger(x) then [] else [Issue([field], ExpectedInteger)]) +
      (if x > 0.0 then [] else [Issue([field], message)])
  }

  /** The date after `val ? new Date(val) : undefined`: absent, invalid, or a timestamp. */
  datatype DateValue = NoDate | BadDate | At(ms: int)

  function Preprocess(date: Option<string>, parseDate: map<string, int>): (d: DateValue)
    ensures d.NoDate? <==> date.None? || date.value == ""
    ensures d.At? ==> Lookup(parseDate, date.value) == Some(d.ms)
  {
    if date.None? || date.value == "" then NoDate
    else match Lookup(parseDate, date.value)
      case None => BadDate
      case Some(ms) => At(ms)
  }

  /** `z.date()` and its refinements: present, a valid date, and not before the start of today. */
  function DateIssues(d: DateValue, startOfToday: int): (r: seq<Issue>)
    ensures r == [] <==> d.At? && d.ms >= startOfToday
    ensures |r| <= 1
    ensures forall i :: 0 <= i < |r| ==> r[i].path == ["date"]
  {
    match d
    case NoDate => [Issue(["date"], Required)]
    case BadDate => [Issue(["date"], InvalidDate)]
    case At(ms) => if ms >= startOfToday then [] else [Issue(["date"], "Event date must be today or in the future")]
  }

  /** Every issue of the input, field by field in the order the schema declares them. */
  function Issues(input: EventInput, parseDate: map<string, int>, startOfToday: int): seq<Issue> {
    OptionalIdIssues("event_id", input.eventId, "Event ID is required") +
    OptionalIdIssues("organizer_id", input.organizerId, "Organizer ID is required") +
    TextIssues("title", input.title, 3, "Title must be at least 3 characters long", None, "") +
    TextIssues("description", input.description, 10, "Description must be at least 10 characters long",
               Some(500), "Description must be at most 500 characters long") +
    DateIssues(Preprocess(input.date, parseDate), startOfToday) +
    TextIssues("location", input.location, 3, "Location must be at least 3 characters long", None, "") +
    CountIssues("total_tickets", input.totalTickets, "Total tickets must be a positive number") +
    CountIssues("price", input.price, "Price must be a positive number")
  }

  /** The rules of the schema, field by field, stated on their own. */
  predicate Accepts(input: EventInput, parseDate: map<string, int>, startOfToday: int) {
    OptionalIdOk(input.eventId) && OptionalIdOk(input.organizerId) &&
    TextOk(input.title, 3, None) && TextOk(input.description, 10, Some(500)) &&
    DateOk(input.date, parseDate, startOfToday) &&
    TextOk(input.location, 3, None) &&
    CountOk(input.totalTickets) && CountOk(input.price)
  }

  /** The schema reports no issue exactly when the input meets every rule. */
  lemma IssuesEmpty(input: EventInput, parseDate: map<string, int>, startOfToday: int)
    ensures Issues(input, parseDate, startOfToday) == [] <==> Accepts(input, parseDate, startOfToday)
  {
    var a := OptionalIdIssues("event_id", input.eventId, "Event ID is required");
    var b := OptionalIdIssues("organizer_id", input.organizerId, "Organizer ID is required");
    var c := TextIssues("title", input.title, 3, "Title must be at least 3 characters long", None, "");
    var d := TextIssues("description", input.description, 10, "Description must be at least 10 characters long",
                        Some(500), "Description must be at most 500 characters long");
    var e := DateIssues(Preprocess(input.date, parseDate), startOfToday);
    var f := TextIssues("location", input.location, 3, "Location must be at least 3 characters long", None, "");
    var g := CountIssues("total_tickets", input.totalTickets, "Total tickets must be a positive number");
    var h := CountIssues("price", input.price, "Price must be a positive number");
    assert Issues(input, parseDate, startOfToday) == a + b + c + d + e + f + g + h;
    assert |a + b + c + d + e + f + g + h| == |a| + |b| + |c| + |d| + |e| + |f| + |g| + |h|;
  }

  function TrimOpt(s: Option<string>): Option<string> {
    if s.Some? then Some(Trim(s.value)) else None
  }

  /**
   * `EventSchema.safeParse`: the typed record exactly when the input meets
   * every rule, with the strings trimmed and the date and numbers as given;
   * otherwise the (non-empty) list of issues.
   */
  function Parse(input: EventInput, parseDate: map<string, int>, startOfToday: int): (r: ParseResult)
    ensures r.Parsed? <==> Accepts(input, parseDate, startOfToday)
    ensures r.Parsed? ==>
      r.value.eventId == TrimOpt(input.eventId) && r.value.organizerId == TrimOpt(input.organizerId) &&
      r.value.title == Trim(input.title) && r.value.description == Trim(input.description) &&
      r.value.location == Trim(input.location) &&
      Some(r.value.date) == Lookup(parseDate, input.date.value) &&
      r.value.totalTickets as real == input.totalTickets.value && r.value.price as real == input.price.value
    ensures r.Invalid? ==> r.issues != []
  {
    var issues := Issues(input, parseDate, startOfToday);
    IssuesEmpty(input, parseDate, startOfToday);
    if issues != [] then Invalid(issues)
    else
      Parsed(ValidEvent(TrimOpt(input.eventId), TrimOpt(input.organizerId), Trim(input.title), Trim(input.description),
                        Preprocess(input.date, parseDate).ms, Trim(input.location),
                        input.totalTickets.value.Floor, input.price.value.Floor))
  }
}
