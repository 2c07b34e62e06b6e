/**
 * The create/edit event form (src/components/modals/event-form-modal.tsx):
 * six text fields, a map from field name to error message, and a submit that
 * converts the two number fields with `parseInt`, validates with the event
 * schema, and either hands the validated record to the page or turns the
 * schema's issues into field errors. Turning a timestamp into ISO text
 * (`toISOString`) is the parameter `iso`; the page's `onSubmit` is modelled
 * by whether its promise resolves (`submitResolves`) and a log of the
 * records it received.
 */
module EventForm {
  import opened Wrappers
  import opened Text
  import opened Types
  import opened EventSchema

  datatype Field = Title | Description | Date | Location | TotalTickets | Price

  /** The `name` attribute of each input. */
  function FieldName(f: Field): string {
    match f
    case Title => "title"
    case Description => "description"
    case Date => "date"
    case Location => "location"
    case TotalTickets => "total_tickets"
    case Price => "price"
  }

  datatype FormData = FormData(
    title: string,
    description: string,
    date: string,
    location: string,
    totalTickets: string,
    price: string)

  function Get(form: FormData, f: Field): string {
    match f
    case Title => form.title
    case Description => form.description
    case Date => form.date
    case Location => form.location
    case TotalTickets => form.totalTickets
    case Price => form.price
  }

  const EmptyForm := FormData("", "", "", "", "", "")

  /**
   * The prefill effect: the edited event's fields, with the date as the
   * first 16 characters of its ISO text and the numbers as decimal text;
   * for a new event, six empty fields.
   */
  function Prefill(event: Option<Event>, iso: int -> string): (form: FormData)
    ensures event.None? ==> forall f :: Get(form, f) == ""
    ensures event.Some? ==>
      form.title == event.value.title && form.description == event.value.description &&
      form.location == event.value.location &&
      form.date <= iso(event.value.date) && |form.date| == Min(16, |iso(event.value.date)|) &&
      form.totalTickets == IntToString(event.value.totalTickets) && form.price == IntToString(event.value.price)
  {
    if event.None? then EmptyForm
    else
      var e := event.value;
      var d := iso(e.date);
      FormData(e.title, e.description, d[..Min(16, |d|)], e.location, IntToString(e.totalTickets), IntToString(e.price))
  }

  function Min(a: int, b: int): int {
    if a < b then a else b
  }

  /** A prefilled number field converts back, through `parseInt`, to the event's own number. */
  lemma PrefillNumbersParseBack(e: Event, iso: int -> string)
    ensures ParseInt(Prefill(Some(e), iso).totalTickets) == Int(e.totalTickets)
    ensures ParseInt(Prefill(Some(e), iso).price) == Int(e.price)
  {
    ParseIntOfIntToString(e.totalTickets);
    ParseIntOfIntToString(e.price);
  }

  /** `{ ...prev, [name]: value }`: the named field takes the value, every other field is kept. */
  function SetField(form: FormData, f: Field, value: string): (r: FormData)
    ensures Get(r, f) == value
    ensures forall g :: g != f ==> Get(r, g) == Get(form, g)
  {
    match f
    case Title => form.(title := value)
    case Description => form.(description := value)
    case Date => form.(date := value)
    case Location => form.(location := value)
    case TotalTickets => form.(totalTickets := value)
    case Price => form.(price := value)
  }

  /**
   * The error half of `handleInputChange`: a field that shows an error has
   * it blanked (the key stays, with the empty message); a map without a
   * (non-empty) error for the field is returned as it was.
   */
  function ClearError(errors: map<string, string>, name: string): (r: map<string, string>)
    ensures r.Keys == errors.Keys
    ensures name in errors ==> r[name] == ""
    ensures forall k :: k in errors && k != name ==> r[k] == errors[k]
    ensures !(name in errors && errors[name] != "") ==> r == errors
  {
    if name in errors && errors[name] != "" then errors[name := ""] else errors
  }

  /** After a field has been edited, it shows no error. */
  lemma ClearErrorIdempotent(errors: map<string, string>, name: string)
    ensures ClearError(ClearError(errors, name), name) == ClearError(errors, name)
    ensures Lookup(ClearError(errors, name), name).GetOr("") == ""
  {
  }

  /** `parseInt` as the number the schema receives. */
  function ToNumber(p: ParsedInt): NumberValue {
    match p
    case NaN => NumberValue.NaN
    case Int(i) => Num(i as real)
  }

  /** The object the form validates: its four texts as typed and the two numbers through `parseInt`; no ids. */
  function ValidationInput(form: FormData): (input: EventInput)
    ensures input.eventId.None? && input.organizerId.None?
    ensures input.title == form.title && input.description == form.description && input.location == form.location
    ensures input.date == Some(form.date)
    ensures input.totalTickets == ToNumber(ParseInt(form.totalTickets)) && input.price == ToNumber(ParseInt(form.price))
  {
    EventInput(None, None, form.title, form.description, Some(form.date), form.location,
               ToNumber(ParseInt(form.totalTickets)), ToNumber(ParseInt(form.price)))
  }

  /**
   * The page's schema check: `EventSchema.parse` of the form's validation
   * input, with a thrown `ZodError` caught as the failure and its issues.
   */
  function Validation(parseDate: map<string, int>, startOfToday: int): FormData -> ParseResult {
    form => Parse(ValidationInput(form), parseDate, startOfToday)
  }

  /** The key an issue is filed under: the first path segment, when there is one and it is not empty. */
  function KeyOf(issue: Issue): (k: Option<string>)
    ensures k.Some? <==> |issue.path| > 0 && issue.path[0] != ""
    ensures k.Some? ==> k.value == issue.path[0]
  {
    if |issue.path| > 0 && issue.path[0] != "" then Some(issue.path[0]) else None
  }

  /** The error map after the first `n` issues: each filed issue overwrites its key. */
  function FiledUpTo(issues: seq<Issue>, n: nat): map<string, string>
    requires n <= |issues|
  {
    if n == 0 then map[]
    else
      var m := FiledUpTo(issues, n - 1);
      var issue := issues[n - 1];
      if KeyOf(issue).Some? then m[KeyOf(issue).value := issue.message] else m
  }

  /** The error map the issues produce, issue by issue. */
  function ErrorMap(issues: seq<Issue>): map<string, string> {
    FiledUpTo(issues, |issues|)
  }

  /** Whether issue `j` is the last one filed under `k` among the first `n`. */
  predicate LastFiledAt(issues: seq<Issue>, n: nat, k: string, j: int)
    requires n <= |issues|
  {
    0 <= j < n && KeyOf(issues[j]) == Some(k) &&
    forall i :: j < i < n ==> KeyOf(issues[i]) != Some(k)
  }

  lemma {:induction false} FiledUpToMeaning(issues: seq<Issue>, n: nat)
    requires n <= |issues|
    ensures forall k :: k in FiledUpTo(issues, n) <==> exists i :: 0 <= i < n && KeyOf(issues[i]) == Some(k)
    ensures forall k, j :: LastFiledAt(issues, n, k, j) ==>
      k in FiledUpTo(issues, n) && FiledUpTo(issues, n)[k] == issues[j].message
  {
    if n > 0 {
      FiledUpToMeaning(issues, n - 1);
      forall k, j | LastFiledAt(issues, n, k, j)
        ensures k in FiledUpTo(issues, n) && FiledUpTo(issues, n)[k] == issues[j].message
      {
        if j < n - 1 {
          assert LastFiledAt(issues, n - 1, k, j);
        }
      }
    }
  }

  /**
   * The keys of the error map are exactly the keys some issue is filed
   * under, and each key holds the message of the last issue filed under it.
   */
  lemma ErrorMapMeaning(issues: seq<Issue>)
    ensures forall k :: k in ErrorMap(issues) <==> exists i :: 0 <= i < |issues| && KeyOf(issues[i]) == Some(k)
    ensures forall k, j :: LastFiledAt(issues, |issues|, k, j) ==> k in ErrorMap(issues) && ErrorMap(issues)[k] == issues[j].message
  {
    FiledUpToMeaning(issues, |issues|);
  }

  /** The keys filed from two runs of issues are the keys of either run. */
  lemma ErrorMapKeysAppend(x: seq<Issue>, y: seq<Issue>)
    ensures ErrorMap(x + y).Keys == ErrorMap(x).Keys + ErrorMap(y).Keys
  {
    ErrorMapMeaning(x);
    ErrorMapMeaning(y);
    ErrorMapMeaning(x + y);
    forall k | k in ErrorMap(x + y)
      ensures k in ErrorMap(x) || k in ErrorMap(y)
    {
      var i :| 0 <= i < |x + y| && KeyOf((x + y)[i]) == Some(k);
      if i >= |x| {
        assert KeyOf(y[i - |x|]) == Some(k);
      }
    }
    forall k | k in ErrorMap(x) || k in ErrorMap(y)
      ensures k in ErrorMap(x + y)
    {
      if k in ErrorMap(x) {
        var i :| 0 <= i < |x| && KeyOf(x[i]) == Some(k);
        assert (x + y)[i] == x[i];
      } else {
        var i :| 0 <= i < |y| && KeyOf(y[i]) == Some(k);
        assert (x + y)[|x| + i] == y[i];
      }
    }
  }

  /** Issues that all lie on one named field file errors under that field alone, if there are any. */
  lemma ErrorMapOneField(x: seq<Issue>, field: string)
    requires field != ""
    requires forall i :: 0 <= i < |x| ==> x[i].path == [field]
    ensures ErrorMap(x).Keys == if x == [] then {} else {field}
  {
    ErrorMapMeaning(x);
    if x != [] {
      assert KeyOf(x[0]) == Some(field);
    }
  }

  /** What `onSubmit` receives: the validated record, the date as ISO text, and the id of an edited event. */
  datatype EventPayload = EventPayload(
    title: string,
    description: string,
    date: string,
    location: string,
    totalTickets: int,
    price: int,
    eventId: Option<string>)

  /**
   * `{ ...validatedData, date: toISOString(), ...(event && { event_id }) }`:
   * the validated fields, the date as ISO text, and the id only when an
   * existing event is being edited.
   */
  function PayloadOf(v: ValidEvent, iso: int -> string, editing: Option<Event>): (p: EventPayload)
    ensures p.eventId.Some? <==> editing.Some?
    ensures editing.Some? ==> p.eventId == Some(editing.value.eventId)
    ensures p.title == v.title && p.description == v.description && p.location == v.location
    ensures p.date == iso(v.date) && p.totalTickets == v.totalTickets && p.price == v.price
  {
    EventPayload(v.title, v.description, iso(v.date), v.location, v.totalTickets, v.price,
                 if editing.Some? then Some(editing.value.eventId) else None)
  }

  /** The `forEach` of the submit handler that files each issue under its key. */
  method CollectFieldErrors(issues: seq<Issue>) returns (fieldErrors: map<string, string>)
    ensures fieldErrors == ErrorMap(issues)
  {
    fieldErrors := map[];
    var i := 0;
    while i < |issues|
      invariant 0 <= i <= |issues|
      invariant fieldErrors == FiledUpTo(issues, i)
    {
      if |issues[i].path| > 0 && issues[i].path[0] != "" {
        fieldErrors := fieldErrors[issues[i].path[0] := issues[i].message];
      }
      i := i + 1;
    }
  }

  class Modal {
    var formData: FormData
    var errors: map<string, string>
    var isSubmitting: bool
    var submitted: seq<EventPayload>
    var closed: nat

    constructor ()
      ensures formData == EmptyForm && errors == map[] && !isSubmitting && submitted == [] && closed == 0
    {
      formData, errors, isSubmitting, submitted, closed := EmptyForm, map[], false, [], 0;
    }

    /** The effect that runs when the modal opens or the edited event changes. */
    method OnOpen(event: Option<Event>, iso: int -> string)
      modifies this
      ensures formData == Prefill(event, iso) && errors == map[]
      ensures isSubmitting == old(isSubmitting) && submitted == old(submitted) && closed == old(closed)
    {
      formData := Prefill(event, iso);
      errors := map[];
    }

    /** `handleInputChange`: the field takes the typed value and loses its error, if it had one. */
    method HandleInputChange(f: Field, value: string)
      modifies this
      ensures formData == SetField(old(formData), f, value)
      ensures errors == ClearError(old(errors), FieldName(f))
      ensures isSubmitting == old(isSubmitting) && submitted == old(submitted) && closed == old(closed)
    {
      formData := SetField(formData, f, value);
      if FieldName(f) in errors && errors[FieldName(f)] != "" {
        errors := errors[FieldName(f) := ""];
      }
    }

    /**
     * `handleSubmit`: the errors are cleared first. Input the schema check
     * `validate` accepts is handed to `onSubmit`, with the edited event's id
     * when editing, and the modal closes once that resolves (a rejection
     * closes nothing and leaves no field error); rejected input files each
     * issue under its first path segment, later issues overwriting earlier
     * ones. The form is never submitting afterwards. The page's check is
     * `Validation(parseDate, startOfToday)`.
     */
    method HandleSubmit(editing: Option<Event>, validate: FormData -> ParseResult,
                        iso: int -> string, submitResolves: bool)
      modifies this
      ensures var r := validate(old(formData));
        (r.Invalid? ==> errors == ErrorMap(r.issues) && submitted == old(submitted) && closed == old(closed)) &&
        (r.Parsed? ==>
          errors == map[] && submitted == old(submitted) + [PayloadOf(r.value, iso, editing)] &&
          closed == old(closed) + (if submitResolves then 1 else 0))
      ensures formData == old(formData) && !isSubmitting
    {
      isSubmitting := true;
      errors := map[];
      var r := validate(formData);
      match r {
        case Parsed(v) =>
          submitted := submitted + [PayloadOf(v, iso, editing)];
          if submitResolves {
            closed := closed + 1;
          }
        case Invalid(issues) =>
          errors := CollectFieldErrors(issues);
      }
      isSubmitting := false;
    }
  }

  /** The page's check and the schema agree: it accepts exactly the forms whose validation input the schema accepts, and otherwise reports the schema's issues. */
  lemma ValidationMeaning(form: FormData, parseDate: map<string, int>, startOfToday: int)
    ensures Validation(parseDate, startOfToday)(form).Parsed? <==> Accepts(ValidationInput(form), parseDate, startOfToday)
    ensures Validation(parseDate, startOfToday)(form).Invalid? ==>
      Validation(parseDate, startOfToday)(form).issues == Issues(ValidationInput(form), parseDate, startOfToday)
  {
  }

  /** Eight runs of issues, each on its own field, file errors under the fields whose run is not empty. */
  lemma EightFieldKeys(a: seq<Issue>, b: seq<Issue>, c: seq<Issue>, d: seq<Issue>,
                       e: seq<Issue>, f: seq<Issue>, g: seq<Issue>, h: seq<Issue>)
    requires forall i :: 0 <= i < |a| ==> a[i].path == ["event_id"]
    requires forall i :: 0 <= i < |b| ==> b[i].path == ["organizer_id"]
    requires forall i :: 0 <= i < |c| ==> c[i].path == ["title"]
    requires forall i :: 0 <= i < |d| ==> d[i].path == ["description"]
    requires forall i :: 0 <= i < |e| ==> e[i].path == ["date"]
    requires forall i :: 0 <= i < |f| ==> f[i].path == ["location"]
    requires forall i :: 0 <= i < |g| ==> g[i].path == ["total_tickets"]
    requires forall i :: 0 <= i < |h| ==> h[i].path == ["price"]
    ensures ErrorMap(a + b + c + d + e + f + g + h).Keys ==
      (if a == [] then {} else {"event_id"}) + (if b == [] then {} else {"organizer_id"}) +
      (if c == [] then {} else {"title"}) + (if d == [] then {} else {"description"}) +
      (if e == [] then {} else {"date"}) + (if f == [] then {} else {"location"}) +
      (if g == [] then {} else {"total_tickets"}) + (if h == [] then {} else {"price"})
  {
    ErrorMapKeysAppend(a, b);
    ErrorMapKeysAppend(a + b, c);
    ErrorMapKeysAppend(a + b + c, d);
    ErrorMapKeysAppend(a + b + c + d, e);
    ErrorMapKeysAppend(a + b + c + d + e, f);
    ErrorMapKeysAppend(a + b + c + d + e + f, g);
    ErrorMapKeysAppend(a + b + c + d + e + f + g, h);
    ErrorMapOneField(a, "event_id");
    ErrorMapOneField(b, "organizer_id");
    ErrorMapOneField(c, "title");
    ErrorMapOneField(d, "description");
    ErrorMapOneField(e, "date");
    ErrorMapOneField(f, "location");
    ErrorMapOneField(g, "total_tickets");
    ErrorMapOneField(h, "price");
  }

  /** The error map of the schema's issues has a key for each field whose own issues are not empty. */
  lemma IssuesKeysByField(input: EventInput, parseDate: map<string, int>, startOfToday: int)
    ensures ErrorMap(Issues(input, parseDate, startOfToday)).Keys ==
      (if OptionalIdIssues("event_id", input.eventId, "Event ID is required") == [] then {} else {"event_id"}) +
      (if OptionalIdIssues("organizer_id", input.organizerId, "Organizer ID is required") == [] then {} else {"organizer_id"}) +
      (if TextIssues("title", input.title, 3, "Title must be at least 3 characters long", None, "") == [] then {} else {"title"}) +
      (if TextIssues("description", input.description, 10, "Description must be at least 10 characters long",
                     Some(500), "Description must be at most 500 characters long") == [] then {} else {"description"}) +
      (if DateIssues(Preprocess(input.date, parseDate), startOfToday) == [] then {} else {"date"}) +
      (if TextIssues("location", input.location, 3, "Location must be at least 3 characters long", None, "") == [] then {} else {"location"}) +
      (if CountIssues("total_tickets", input.totalTickets, "Total tickets must be a positive number") == [] then {} else {"total_tickets"}) +
      (if CountIssues("price", input.price, "Price must be a positive number") == [] then {} else {"price"})
  {
    var a := OptionalIdIssues("event_id", input.eventId, "Event ID is required");
    var b := OptionalIdIssues("organizer_id", input.organizerId, "Organizer ID is required");
    var c := TextIssues("title", input.title, 3, "Title must be at least 3 characters long", None, "");
    var d := TextIssues("description", input.description, 10, "Description must be at least 10 characters long",
                        Some(500), "Description must be at most 500 characters long");
    var e := DateIssues(Preprocess(input.date, parseDate), startOfToday);
    var f := TextIssues("location", input.location, 3, "Location must be at least 3 characters long", None, "");
    var g := CountIssues("total_tickets", input.totalTickets, "Total tickets must be a positive number");
    var h := CountIssues("price", input.price, "Price must be a positive number");
    assert Issues(input, parseDate, startOfToday) == a + b + c + d + e + f + g + h;
    EightFieldKeys(a, b, c, d, e, f, g, h);
  }

  /**
   * Submitting files an error under exactly the fields that break their
   * rule: every failing field gets a message and no other key appears.
   */
  lemma FieldErrorsMeaning(input: EventInput, parseDate: map<string, int>, startOfToday: int)
    ensures ErrorMap(Issues(input, parseDate, startOfToday)).Keys ==
      (if OptionalIdOk(input.eventId) then {} else {"event_id"}) +
      (if OptionalIdOk(input.organizerId) then {} else {"organizer_id"}) +
      (if TextOk(input.title, 3, None) then {} else {"title"}) +
      (if TextOk(input.description, 10, Some(500)) then {} else {"description"}) +
      (if DateOk(input.date, parseDate, startOfToday) then {} else {"date"}) +
      (if TextOk(input.location, 3, None) then {} else {"location"}) +
      (if CountOk(input.totalTickets) then {} else {"total_tickets"}) +
      (if CountOk(input.price) then {} else {"price"})
  {
    IssuesKeysByField(input, parseDate, startOfToday);
    var a := OptionalIdIssues("event_id", input.eventId, "Event ID is required");
    var b := OptionalIdIssues("organizer_id", input.organizerId, "Organizer ID is required");
    var c := TextIssues("title", input.title, 3, "Title must be at least 3 characters long", None, "");
    var d := TextIssues("description", input.description, 10, "Description must be at least 10 characters long",
                        Some(500), "Description must be at most 500 characters long");
    var e := DateIssues(Preprocess(input.date, parseDate), startOfToday);
    var f := TextIssues("location", input.location, 3, "Location must be at least 3 characters long", None, "");
    var g := CountIssues("total_tickets", input.totalTickets, "Total tickets must be a positive number");
    var h := CountIssues("price", input.price, "Price must be a positive number");
    assert a == [] <==> OptionalIdOk(input.eventId);
    assert b == [] <==> OptionalIdOk(input.organizerId);
    assert c == [] <==> TextOk(input.title, 3, None);
    assert d == [] <==> TextOk(input.description, 10, Some(500));
    assert e == [] <==> DateOk(input.date, parseDate, startOfToday);
    assert f == [] <==> TextOk(input.location, 3, None);
    assert g == [] <==> CountOk(input.totalTickets);
    assert h == [] <==> CountOk(input.price);
  }

  /**
   * Submitting a form whose texts are blank, whose date is empty and whose
   * numbers do not parse yields an error for every field; the untouched
   * new-event form is one.
   */
  lemma BlankFormErrors(form: FormData, parseDate: map<string, int>, startOfToday: int)
    requires Trim(form.title) == "" && Trim(form.description) == "" && Trim(form.location) == ""
    requires form.date == "" && ParseInt(form.totalTickets).NaN? && ParseInt(form.price).NaN?
    ensures ErrorMap(Issues(ValidationInput(form), parseDate, startOfToday)).Keys ==
            {"title", "description", "date", "location", "total_tickets", "price"}
  {
    var input := ValidationInput(form);
    FieldErrorsMeaning(input, parseDate, startOfToday);
    AllButIds(OptionalIdOk(input.eventId), OptionalIdOk(input.organizerId),
              TextOk(input.title, 3, None), TextOk(input.description, 10, Some(500)),
              DateOk(input.date, parseDate, startOfToday), TextOk(input.location, 3, None),
              CountOk(input.totalTickets), CountOk(input.price));
  }

  /** The failing-field set when only the two ids pass. */
  lemma AllButIds(a: bool, b: bool, c: bool, d: bool, e: bool, f: bool, g: bool, h: bool)
    requires a && b && !c && !d && !e && !f && !g && !h
    ensures (if a then {} else {"event_id"}) + (if b then {} else {"organizer_id"}) +
            (if c then {} else {"title"}) + (if d then {} else {"description"}) +
            (if e then {} else {"date"}) + (if f then {} else {"location"}) +
            (if g then {} else {"total_tickets"}) + (if h then {} else {"price"}) ==
            {"title", "description", "date", "location", "total_tickets", "price"}
  {
  }

  /** The untouched new-event form meets the conditions of `BlankFormErrors`. */
  lemma EmptyFormIsBlank()
    ensures Trim(EmptyForm.title) == "" && Trim(EmptyForm.description) == "" && Trim(EmptyForm.location) == ""
    ensures EmptyForm.date == "" && ParseInt(EmptyForm.totalTickets).NaN? && ParseInt(EmptyForm.price).NaN?
  {
    ParseIntBlank(EmptyForm.totalTickets);
  }

  /** The page's check rejects the untouched new-event form with an issue on every field. */
  lemma EmptyFormRejected(parseDate: map<string, int>, startOfToday: int)
    ensures Validation(parseDate, startOfToday)(EmptyForm).Invalid?
    ensures ErrorMap(Validation(parseDate, startOfToday)(EmptyForm).issues).Keys ==
            {"title", "description", "date", "location", "total_tickets", "price"}
  {
    EmptyFormIsBlank();
    BlankFormErrors(EmptyForm, parseDate, startOfToday);
    ValidationMeaning(EmptyForm, parseDate, startOfToday);
    IssuesEmpty(ValidationInput(EmptyForm), parseDate, startOfToday);
  }

  /** Submitting an untouched new-event form files an error under every field and submits nothing. */
  method SubmitEmptyForm(parseDate: map<string, int>, startOfToday: int, iso: int -> string, submitResolves: bool)
    returns (errorFields: set<string>, submitted: seq<EventPayload>, closed: nat)
    ensures errorFields == {"title", "description", "date", "location", "total_tickets", "price"}
    ensures submitted == [] && closed == 0
  {
    var modal := new Modal();
    EmptyFormRejected(parseDate, startOfToday);
    modal.HandleSubmit(None, Validation(parseDate, startOfToday), iso, submitResolves);
    errorFields, submitted, closed := modal.errors.Keys, modal.submitted, modal.closed;
  }
}
