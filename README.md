# eve_client — a Dafny model of the client's state and decisions

eve_client is a React single-page client for an event-ticketing backend.
Visitors browse upcoming events, book tickets through a hosted checkout and
see their tickets. Organisers create and edit events, list attendees and
change user roles. The logic that counts lives on the client side:

- the **session store** (`authStore`) and the older **context-based session** (`AuthContext`);
- three **resource caches** for events, tickets and users, where a ticket load hydrates the event cache with the events it does not hold yet;
- the home page's **payment-marker state machine**, which keeps two per-event markers in local storage and polls a bounded number of times after the checkout returns;
- the home page's **filtering and pagination**, including the page-number strip with its five-page window and ellipses;
- the **validators and derived views**: the event schema, the create/edit form and its error map, the attendee join with its search, figures and CSV export, the route guards, the event card's button, and the organiser dashboard's gate and role change.

The model has one Dafny module per source file. `Types` holds the records
the client exchanges with the backend. `Text` holds the JavaScript string
operations the code relies on. `Wrappers` holds `Option`.

Fetch outcomes are the input datatype `Types.Response`. It has three cases:

- `Ok(body)` for a 2xx answer with its decoded body;
- `HttpErr(status, statusText, message)` for a non-2xx answer;
- `NetErr(thrown)` for a rejected promise.

A body that has the wrong shape is `Ok(None)` where the code validates the shape.

Time is an integer number of milliseconds, and "now" and "the start of
today" are parameters. Local storage and the URL's query string are string
maps. Navigation, alerts and requests go into an effect log in the order the
code performs them.

Stores and stateful components are classes. Their fields are the source's
state, and each action is a method whose `ensures` gives the whole new
state. Pure logic is a function that carries a contract, with lemmas
relating it to an independent statement of the rule. Short scenario methods
drive the classes through user-visible sequences, such as a failed second
login, hydrating twice, or booking twice.

Where the system's documentation and the code disagree, the model follows the code:

- `fetchUserTickets` awaits the event hydration (`src/stores/ticketStore.ts:75`); it is not fire-and-forget.
- `authStore.logout` clears only the session record. It never clears the event, ticket or user caches (`src/stores/authStore.ts:104-126`).
- `AuthContext`'s `logout` changes nothing when the sign-out answer is not 2xx or the request is rejected (`src/contexts/AuthContext.tsx:120-132`).
- A date text that does not parse fails `z.date()` with the single issue "Invalid date". The two refinements, and with them the message "Invalid date format", are then never reached (`src/lib/event-schema.ts:12-21`).
- `updateUserRole` and the dashboard's role change store the raw response body as the user record (`src/stores/userStore.ts:95-102`, `src/pages/DashboardPage.tsx:71-72`).
- The attendee figure labelled "Pending" counts the cancelled tickets (`src/components/modals/attendees-modal.tsx:120`).

## Model

| member | source | states |
|---|---|---|
| Types.ReplaceUser | src/stores/userStore.ts:98-102 | Every entry with the id becomes the new record; every other entry and the length are kept |
| Types.ReplaceUserIdempotent | src/stores/userStore.ts:98-102 | Replacing twice with a record that keeps the id is the same as replacing once |
| Types.ReplaceUserAbsent | src/stores/userStore.ts:98-102 | No entry carries the id, so the list is unchanged |
| Text.Trim | src/lib/event-schema.ts:4-22 | `trim` leaves no white space at either end, is never longer, and is empty exactly when the text is all white space; white space is ECMAScript's: the line terminators, tab, vertical tab, form feed, the byte order mark and every Zs space separator |
| Text.TrimBlank | src/lib/event-schema.ts:4-22 | Trimming the start and then the end leaves nothing exactly when every character is white space |
| Text.TrimInside | src/lib/event-schema.ts:4-22 | The trimmed text occurs inside the original |
| Text.TrimIdempotent | src/lib/event-schema.ts:4-22 | Trimming twice is the same as trimming once |
| Text.TrimStartSpaces | src/lib/event-schema.ts:4-22 | Dropping leading white space removes exactly a leading run of white space and keeps the rest |
| Text.ToLower | src/pages/HomePage.tsx:239-241 | ASCII lower-casing keeps the length and maps each character on its own |
| Text.ContainsEmpty | src/components/modals/attendees-modal.tsx:64-66 | Every text `includes` the empty string |
| Text.IntToString | src/components/modals/event-form-modal.tsx:34-35 | The decimal text of an integer is digits, with a leading `-` when negative |
| Text.ParseInt | src/components/modals/event-form-modal.tsx:70-71 | `parseInt` gives a number exactly when, after leading white space, the text starts with a digit or with a sign and a digit |
| Text.ParseIntBlank | src/components/modals/event-form-modal.tsx:70-71 | An empty or all-white-space text parses to NaN |
| Text.ParseIntOfIntToString | src/components/modals/event-form-modal.tsx:70-71 | `parseInt` reads back the integer that number-to-string wrote |
| Text.ParseIntReads | src/components/modals/event-form-modal.tsx:70-71 | `parseInt` of white space, an optional sign, a run of digits and a tail that does not start with a digit is the value of the digits, negated after a `-` |
| Text.ParseIntSkipsSpace | src/components/modals/event-form-modal.tsx:70-71 | Leading white space does not change what `parseInt` reads |
| Text.ParseIntSigned | src/components/modals/event-form-modal.tsx:70-71 | After an optional sign, `parseInt` reads the longest run of digits and ignores what follows |
| Text.ReadInteger | src/components/modals/event-form-modal.tsx:70-71 | Reading a number from text whose white space is already skipped succeeds exactly when it starts with a digit or with a sign and a digit |
| Text.ReadIntegerUnsigned | src/components/modals/event-form-modal.tsx:70-71 | Once white space is skipped, unsigned digits followed by a non-digit are read as the value of the digits |
| Text.ParseIntUnsigned | src/components/modals/event-form-modal.tsx:70-71 | Digits followed by a non-digit parse to the value of the digits |
| Text.ParseIntSign | src/components/modals/event-form-modal.tsx:70-71 | One sign in front of digits gives their value, negated after a `-` |
| Text.LeadingDigitsPrefix | src/components/modals/event-form-modal.tsx:70-71 | The digit run of digits followed by a non-digit is exactly those digits |
| Text.Join | src/components/modals/attendees-modal.tsx:106-107 | Joining no parts gives the empty text; joining one part gives that part; joining several starts with the first part and the separator |
| Text.JoinAppend | src/components/modals/attendees-modal.tsx:106-107 | Joining two non-empty runs of parts is the join of the first, the separator, then the join of the second |
| Text.CountJoinPlain | src/components/modals/attendees-modal.tsx:106 | A separator without the character adds none of it to the join |
| Text.CountJoinSeparator | src/components/modals/attendees-modal.tsx:107 | Joining with a one-character separator adds exactly one such character between each two parts |
| Text.ReplaceSpaceRunsShape | src/components/modals/attendees-modal.tsx:113 | `replace(/\s+/g, "_")` leaves no white space, never lengthens the text, and changes nothing in a text that has no white space |
| Text.ReplaceSpaceRunsClean | src/components/modals/attendees-modal.tsx:113 | The rewritten text holds no white space and is never longer |
| Text.ReplaceSpaceRunsKeeps | src/components/modals/attendees-modal.tsx:113 | A text without white space is rewritten to itself |
| Text.ReplaceSpaceRunsOfRun | src/components/modals/attendees-modal.tsx:113 | A run of white space on its own becomes a single `_` |
| Text.ReplaceSpaceRunsAppend | src/components/modals/attendees-modal.tsx:113 | Two pieces that do not both have white space where they meet are rewritten on their own |
| Text.ReplaceSpaceRunsUnfold | src/components/modals/attendees-modal.tsx:113 | The first character of a piece is rewritten the same way whether or not a piece that does not continue its white space follows |
| Text.ReplaceSpaceRunsAround | src/components/modals/attendees-modal.tsx:113 | As `ReplaceSpaceRunsSplit`, with the text grouped as the first piece followed by the run and the second piece |
| Text.ReplaceSpaceRunsSplit | src/components/modals/attendees-modal.tsx:113 | A maximal run of white space between two pieces becomes one `_`, and the pieces are rewritten on their own |
| AuthStore.Store.constructor | src/stores/authStore.ts:27-30 | The store starts with no user, no token, not authenticated and not loading |
| AuthStore.Store.Rehydrate | src/stores/authStore.ts:141-148 | The store as rehydrated from the three persisted fields, with loading off |
| AuthStore.Store.InitializeAuth | src/stores/authStore.ts:33-38 | Sets the flag exactly when a non-empty token and a user are present; never clears it; changes nothing else |
| AuthStore.Store.CompleteSignIn | src/stores/authStore.ts:52-69 | A 2xx answer signs in with the response's user and token and returns true; otherwise only loading changes, and the result is false |
| AuthStore.Store.Login | src/stores/authStore.ts:40-70 | Succeeds exactly on a 2xx answer and then takes the response's user and token; a failure keeps user, token and flag; loading ends off |
| AuthStore.Store.Register | src/stores/authStore.ts:72-102 | The same contract as login |
| AuthStore.Store.Logout | src/stores/authStore.ts:104-126 | The session is empty and not loading whatever the sign-out request answers |
| AuthStore.Store.UpdateUser | src/stores/authStore.ts:128-130 | Only the user changes |
| AuthStore.Store.ClearAuth | src/stores/authStore.ts:132-139 | The same four-field reset as logout, with no request |
| AuthStore.FailedLoginKeepsSession | src/stores/authStore.ts:63-69 | A failed second login returns false and leaves the first session signed in |
| EventStore.MissingIds | src/stores/eventStore.ts:74-75 | The requested ids not cached, in order: an id is kept iff it was requested and is not cached; empty iff all are cached |
| EventStore.MissingIdsAppend | src/stores/eventStore.ts:74-75 | The filter keeps request order: the missing ids of a concatenation are those of its parts, concatenated |
| EventStore.MissingIdsOfOne | src/stores/eventStore.ts:74-75 | A single id is requested exactly when it is not cached |
| EventStore.MissingIdsAntitone | src/stores/eventStore.ts:74-75 | A larger cache requests a subset of the ids, and no more of them |
| EventStore.HydrateKeys | src/stores/eventStore.ts:88-96 | After hydration the keys are the old keys plus exactly the fetched ids whose answer was usable |
| EventStore.HydrateValues | src/stores/eventStore.ts:88-96 | Cached entries keep their event, and each new entry holds the event the backend answered |
| EventStore.LastErrorSource | src/stores/eventStore.ts:58-67 | No error is left when no fetch recorded one; a left error is the text of some failing fetch |
| EventStore.Store.constructor | src/stores/eventStore.ts:26-28 | An empty cache, not loading, no error |
| EventStore.Store.FetchEvent | src/stores/eventStore.ts:30-69 | A usable answer is stored under the requested id, keeping every other key, and is returned; a malformed body changes nothing; a failure records its error text and keeps the events |
| EventStore.Store.FetchMultipleEvents | src/stores/eventStore.ts:71-106 | Requests exactly the uncached ids; the cache and error become what those fetches leave; loading ends off |
| EventStore.Store.SetEvents | src/stores/eventStore.ts:108-110 | Replaces the whole cache and nothing else |
| EventStore.Store.ClearEvents | src/stores/eventStore.ts:120-127 | An empty cache, not loading, no error |
| EventStore.HydrateTwice | src/stores/eventStore.ts:74-80 | A second hydration of the same ids requests only the ids whose first answer was unusable |
| TicketStore.Distinct | src/stores/ticketStore.ts:69 | `[...new Set(ids)]` has no repeats and holds the same ids |
| TicketStore.FirstIndex | src/stores/ticketStore.ts:69 | The position of an id's first occurrence: it holds the id, no earlier position does, and it is the length exactly when the id is absent |
| TicketStore.FirstIndexOfPrefix | src/stores/ticketStore.ts:69 | Items appended after a list do not move the first occurrence of an id the list already holds |
| TicketStore.DistinctOrder | src/stores/ticketStore.ts:69 | The distinct ids keep the order of their first occurrences, as iteration over a `Set` does |
| TicketStore.DistinctOfDistinct | src/stores/ticketStore.ts:69 | A list without repeats is its own distinct list |
| TicketStore.EventIds | src/stores/ticketStore.ts:69 | One event id per ticket, in order |
| TicketStore.DistinctEventIds | src/stores/ticketStore.ts:69-70 | Each ticket's event once; empty exactly when there are no tickets |
| TicketStore.MissingIdsNoDuplicates | src/stores/eventStore.ts:75 | Filtering a list without repeats keeps it without repeats |
| TicketStore.WithStatus | src/stores/ticketStore.ts:90-98 | The tickets with the id get the status; every other ticket and the length are kept |
| TicketStore.WithStatusTwice | src/stores/ticketStore.ts:90-98 | When the status is set twice, the later setting wins |
| TicketStore.Store.constructor | src/stores/ticketStore.ts:25-27 | No tickets, not loading, no error |
| TicketStore.Store.FetchUserTickets | src/stores/ticketStore.ts:29-88 | A 2xx array replaces the tickets and hydrates the event cache with the distinct uncached event ids (the cache is untouched when there are no tickets); each failure records its own text and keeps tickets and cache; loading ends off |
| TicketStore.Store.UpdateTicketStatus | src/stores/ticketStore.ts:90-98 | The tickets change as `WithStatus` says; nothing else changes |
| TicketStore.Store.ClearTickets | src/stores/ticketStore.ts:108-118 | No tickets, not loading, no error |
| TicketStore.LoadTicketsOnce | src/stores/ticketStore.ts:67-79 | A ticket load requests each uncached event of its tickets exactly once, and no cached one |
| UserStore.Store.constructor | src/stores/userStore.ts:26-28 | No users, not loading, no error |
| UserStore.Store.FetchAllUsers | src/stores/userStore.ts:30-72 | A 2xx array replaces the users and clears the error; each failure records its own text and keeps the users; loading ends off |
| UserStore.Store.UpdateUserRole | src/stores/userStore.ts:74-112 | A 2xx answer replaces the entries with the id and returns the record; a failure records its text and keeps the users; loading is never touched |
| UserStore.Store.ClearUsers | src/stores/userStore.ts:126-136 | No users, not loading, no error |
| UserStore.ChangeRoleOf | src/stores/userStore.ts:98-102 | Changing the role of an unlisted user keeps the directory; a listed user is replaced in place |
| HomePage.MarkerKeysDistinct | src/pages/HomePage.tsx:110-111 | An event's two marker keys differ, and two different events never share a key |
| HomePage.WithoutMarkers | src/pages/HomePage.tsx:175-176 | Both markers of the event are gone and every other key keeps its value |
| HomePage.Polls | src/pages/HomePage.tsx:135-145 | `n` poll requests for the session |
| HomePage.FirstReport | src/pages/HomePage.tsx:132-167 | The first attempt whose answer reports the ticket, with no report before it, or 30 when no attempt reports it |
| HomePage.PollForTicket | src/pages/HomePage.tsx:132-167 | One request per attempt up to the first answer that reports the ticket, at most 30; found iff some attempt among the 30 reports it |
| HomePage.SuccessEffects | src/pages/HomePage.tsx:128-179 | The effects of a successful return start with a poll and end in the booking confirmation iff some attempt reports the ticket |
| HomePage.WithoutMarkersTwice | src/pages/HomePage.tsx:152-153 | Removing the markers a second time, as the `finally` block does, changes nothing |
| HomePage.FirstTicketIndex | src/pages/HomePage.tsx:234-236 | The position of the first ticket for the event, or the length when there is none |
| HomePage.FindTicketForEvent | src/pages/HomePage.tsx:234-236 | `find` gives none exactly when no ticket is for the event, and otherwise the first ticket that is |
| HomePage.FilterEvents | src/pages/HomePage.tsx:238-245 | An event is listed iff it matches the search term in its title or description and the location ignoring case, and has not started |
| HomePage.FilterEventsAppend | src/pages/HomePage.tsx:238-245 | The filter keeps list order: the listed events of a concatenation are those of its parts, concatenated |
| HomePage.FilterEventsOfOne | src/pages/HomePage.tsx:238-245 | A single event is listed exactly when it matches |
| HomePage.FilterWithoutTerms | src/pages/HomePage.tsx:238-245 | With no term and no location, exactly the events that have not started remain |
| HomePage.Page.constructor | src/pages/HomePage.tsx:9-17 | The page's initial state over the browser's storage and query |
| HomePage.Page.LoadEvents | src/pages/HomePage.tsx:35-47 | A 2xx answer replaces the events; anything else keeps them |
| HomePage.Page.LoadUserTickets | src/pages/HomePage.tsx:49-64 | A 2xx answer replaces the user's tickets; anything else keeps them |
| HomePage.Page.SetFilters | src/pages/HomePage.tsx:31-33 | A filter change goes back to page 1 |
| HomePage.Page.GoToPage | src/pages/HomePage.tsx:254-261 | Sets the current page and nothing else |
| HomePage.Page.GoToPreviousPage | src/pages/HomePage.tsx:263-267 | Moves as `PreviousPage` says |
| HomePage.Page.GoToNextPage | src/pages/HomePage.tsx:269-273 | Moves as `NextPage` says, with the page count of the listed events |
| HomePage.Page.RemoveMarkers | src/pages/HomePage.tsx:175-176 | Storage loses the event's two markers |
| HomePage.Page.HandleBookEvent | src/pages/HomePage.tsx:66-126 | Signed-out visitors go to login; an existing marker sends the visitor back to its checkout with no request; otherwise the markers are written only after an answer with a checkout URL; processing ends off once a request was made |
| HomePage.Page.HandlePaymentSuccess | src/pages/HomePage.tsx:128-179 | At most 30 polls, stopping at the first that reports the ticket; the poll count is one past the first report, or 30; on success the tickets are reloaded and the booking confirmed, otherwise the "taking longer" notice; the markers are removed and processing ends off on every path |
| HomePage.Page.HandlePaymentFailure | src/pages/HomePage.tsx:181-209 | Removes both markers first; reports the failure only when there is a session id; alerts unless that report was rejected |
| HomePage.Page.HandleStripeReturn | src/pages/HomePage.tsx:211-232 | Settles iff both ids are present; takes the success path iff `success` is `"true"`, adding the polls and the outcome of `SuccessEffects` and reloading the tickets only when found; otherwise the failure report and, unless it was rejected, the alert, with tickets and processing untouched; afterwards drops the three parameters and the event's markers |
| HomePage.BookTwice | src/pages/HomePage.tsx:72-80 | A second press after a checkout was obtained starts no second payment and goes back to that checkout |
| HomePage.BookReturnRebook | src/pages/HomePage.tsx:211-232 | Coming back from the checkout settles it and frees the event for a new booking |
| Pagination.TotalPages | src/pages/HomePage.tsx:248 | `ceil(n / 6)`: the fewest pages of six that hold the events |
| Pagination.SlicePosition | src/pages/HomePage.tsx:251 | A slice position counts back from the end when negative and is clamped to the list |
| Pagination.Slice | src/pages/HomePage.tsx:251 | `slice` is empty when its positions cross and otherwise is the elements between them |
| Pagination.PageSlice | src/pages/HomePage.tsx:249-251 | At most six events, starting at `(currentPage - 1) * 6` and cut at the end of the list; none on page 0 |
| Pagination.FirstPagesPrefix | src/pages/HomePage.tsx:249-251 | The first `k` pages together are the first `6k` events |
| Pagination.PagesPartition | src/pages/HomePage.tsx:248-251 | Pages 1 to the page count, in order, show every event exactly once and in order |
| Pagination.PageNonEmpty | src/pages/HomePage.tsx:248-251 | Every page from 1 to the page count shows an event |
| Pagination.PreviousPage | src/pages/HomePage.tsx:263-267 | One page back unless on the first |
| Pagination.NextPage | src/pages/HomePage.tsx:269-273 | One page on unless on the last |
| Pagination.MovesStayInRange | src/pages/HomePage.tsx:263-273 | Moves never leave 1 to the page count, and back undoes forward |
| Pagination.Run | src/pages/HomePage.tsx:282-284 | The consecutive page buttons from `lo` to `hi` |
| Pagination.WindowStart | src/pages/HomePage.tsx:287-296 | The five-page window fits in the pages, starts at 1 near the start, ends at the last page near the end, and holds the current page |
| Pagination.SpacedIsIncreasing | src/pages/HomePage.tsx:298-317 | A strip whose neighbouring buttons are consecutive and whose `'...'` stand for gaps has strictly increasing numbers |
| Pagination.LayoutEnds | src/pages/HomePage.tsx:298-317 | The strip starts with page 1 and ends with the last page |
| Pagination.LayoutAdjacent | src/pages/HomePage.tsx:298-317 | Neighbouring buttons of the strip are consecutive pages |
| Pagination.LayoutGaps | src/pages/HomePage.tsx:298-317 | Each `'...'` sits between two buttons whose pages are not consecutive |
| Pagination.LayoutWindow | src/pages/HomePage.tsx:298-317 | The strip shows the whole window and no page outside it except the first and the last |
| Pagination.LayoutShape | src/pages/HomePage.tsx:298-317 | All of the strip properties above together |
| Pagination.GetPageNumbers | src/pages/HomePage.tsx:276-321 | Up to five pages: 1 to the page count; more: starts at 1, ends at the last page, increases, shows a five-page window holding the current page, with `'...'` exactly at gaps |
| Pagination.WindowBounds | src/pages/HomePage.tsx:287-295 | The clipped and adjusted bounds are the window `WindowStart` describes, five pages wide |
| Pagination.WindowedPages | src/pages/HomePage.tsx:286-317 | The windowed branch builds the strip for the window `WindowStart` picks |
| EventSchema.TextIssues | src/lib/event-schema.ts:6-11 | A text field has no issue iff its trimmed length is within its bounds; every issue is on that field |
| EventSchema.OptionalIdIssues | src/lib/event-schema.ts:4-5 | An optional id has no issue iff it is absent or not blank once trimmed |
| EventSchema.CountIssues | src/lib/event-schema.ts:23-24 | A count has no issue iff it is a whole number above zero; zero or a negative gets the positivity message |
| EventSchema.Preprocess | src/lib/event-schema.ts:12-13 | An absent or empty date is missing; otherwise the date is the parsed timestamp when there is one |
| EventSchema.DateIssues | src/lib/event-schema.ts:14-20 | No issue iff the date is valid and not before the start of today; at most one issue, on `date` |
| EventSchema.IssuesEmpty | src/lib/event-schema.ts:3-25 | The schema reports no issue iff every field rule holds |
| EventSchema.Parse | src/lib/event-schema.ts:3-25 | Parses iff every rule holds, with trimmed strings, the parsed date and the given numbers; otherwise the issues are not empty |
| EventForm.Prefill | src/components/modals/event-form-modal.tsx:27-46 | The edited event's fields, the first 16 characters of the ISO date and the numbers as text; six empty fields for a new event |
| EventForm.PrefillNumbersParseBack | src/components/modals/event-form-modal.tsx:34-35 | Prefilled number fields parse back to the event's numbers |
| EventForm.SetField | src/components/modals/event-form-modal.tsx:52 | Only the named field changes |
| EventForm.ClearError | src/components/modals/event-form-modal.tsx:54-56 | An error of the field is blanked and every other entry is kept; a map without such an error is returned as it was |
| EventForm.ClearErrorIdempotent | src/components/modals/event-form-modal.tsx:54-56 | Clearing twice is the same as clearing once, and the field then shows no error |
| EventForm.ValidationInput | src/components/modals/event-form-modal.tsx:65-72 | The validated object has no ids, the title, description, location and date as typed, and both numbers through `parseInt` |
| EventForm.KeyOf | src/components/modals/event-form-modal.tsx:87-88 | An issue is filed under its first path segment when that segment is present and not empty |
| EventForm.FiledUpToMeaning | src/components/modals/event-form-modal.tsx:85-90 | After `n` issues, the keys are those some issue was filed under, each holding the last such message |
| EventForm.ErrorMapMeaning | src/components/modals/event-form-modal.tsx:84-91 | The error map's keys are exactly the issues' keys, and later issues overwrite earlier ones |
| EventForm.ErrorMapKeysAppend | src/components/modals/event-form-modal.tsx:84-91 | The keys filed from two runs of issues are the keys of either run |
| EventForm.ErrorMapOneField | src/components/modals/event-form-modal.tsx:84-91 | Issues that all lie on one field file errors under that field only |
| EventForm.PayloadOf | src/components/modals/event-form-modal.tsx:76-80 | The validated fields, the date as ISO text, and the event id exactly when editing |
| EventForm.CollectFieldErrors | src/components/modals/event-form-modal.tsx:85-90 | The loop builds the error map of the issues |
| EventForm.Modal.constructor | src/components/modals/event-form-modal.tsx:16-25 | Empty form, no errors, not submitting |
| EventForm.Modal.OnOpen | src/components/modals/event-form-modal.tsx:27-48 | The form becomes the prefill and the errors are cleared |
| EventForm.Modal.HandleInputChange | src/components/modals/event-form-modal.tsx:50-57 | The field takes the value and its error is cleared if it had one |
| EventForm.Modal.HandleSubmit | src/components/modals/event-form-modal.tsx:59-96 | Accepted input is submitted with the id only when editing, and the modal closes when that resolves; rejected input gives the issues' error map; never submitting afterwards |
| EventForm.ValidationMeaning | src/components/modals/event-form-modal.tsx:74 | The form's validation accepts iff the schema accepts its validation input, and otherwise reports the schema's issues |
| EventForm.FieldErrorsMeaning | src/components/modals/event-form-modal.tsx:84-91 | After a rejected submit, the error keys are exactly the fields that break their rule |
| EventForm.BlankFormErrors | src/components/modals/event-form-modal.tsx:62-91 | Blank texts, an empty date and unparsable numbers give an error on all six fields |
| EventForm.EmptyFormRejected | src/components/modals/event-form-modal.tsx:74 | The untouched new-event form is rejected with an issue on every field |
| EventForm.SubmitEmptyForm | src/components/modals/event-form-modal.tsx:59-96 | Submitting the untouched form shows six field errors and submits and closes nothing |
| Attendees.FirstUserIndex | src/components/modals/attendees-modal.tsx:41 | The position of the first user with the id, or the length when there is none |
| Attendees.FindUser | src/components/modals/attendees-modal.tsx:41 | `find` gives none exactly when no user has the id, and otherwise the first user that has it |
| Attendees.AttendeeOf | src/components/modals/attendees-modal.tsx:41-52 | A ticket yields an attendee iff its user is known: that user with the ticket's id, status, date and `Number(amount \|\| 0)` |
| Attendees.JoinAttendees | src/components/modals/attendees-modal.tsx:36-55 | The attendees are exactly those of the event's tickets whose user is known |
| Attendees.JoinedUsersKnown | src/components/modals/attendees-modal.tsx:41-50 | Each attendee is a user of the directory |
| Attendees.JoinAttendeesAppend | src/components/modals/attendees-modal.tsx:36-55 | The join keeps ticket order: the attendees of a concatenation of tickets are those of its parts, concatenated |
| Attendees.JoinAttendeesOfOne | src/components/modals/attendees-modal.tsx:36-55 | One ticket yields its attendee when it is for the event and its user is known, and nothing otherwise |
| Attendees.Search | src/components/modals/attendees-modal.tsx:61-68 | An attendee is kept iff the lower-cased term is in the name, the e-mail or the status |
| Attendees.SearchEmptyTerm | src/components/modals/attendees-modal.tsx:61-68 | An empty term keeps every attendee, in order |
| Attendees.SearchAppend | src/components/modals/attendees-modal.tsx:61-68 | The search keeps list order: the result for a concatenation is the results of its parts, concatenated |
| Attendees.SearchOfOne | src/components/modals/attendees-modal.tsx:61-68 | A single attendee is kept exactly when it matches the term |
| Attendees.ConfirmedCount | src/components/modals/attendees-modal.tsx:119 | The confirmed figure never exceeds the list; it is 0 iff no listed attendee is confirmed, and the whole list iff every one is |
| Attendees.CancelledCount | src/components/modals/attendees-modal.tsx:120 | The "Pending" figure counts cancelled tickets: at most the list, 0 iff none is cancelled, the whole list iff every one is |
| Attendees.CountsCoverAll | src/components/modals/attendees-modal.tsx:119-120 | The two figures add up to the list |
| Attendees.Revenue | src/components/modals/attendees-modal.tsx:121 | The revenue is never negative when no amount is, and is 0 when no listed attendee is confirmed |
| Attendees.FiguresAppend | src/components/modals/attendees-modal.tsx:119-121 | Each figure of a concatenation is the sum of that figure over its parts |
| Attendees.FiguresOfOne | src/components/modals/attendees-modal.tsx:119-121 | One attendee adds 1 to the figure of its status, and its amount to the revenue only when confirmed |
| Attendees.FiguresOfCons | src/components/modals/attendees-modal.tsx:119-121 | The figures of a list with one attendee in front are that attendee's share plus the figures of the rest |
| Attendees.SearchNarrowsFigures | src/components/modals/attendees-modal.tsx:119-121 | A narrower search never raises the revenue (with no negative amounts) or either count |
| Attendees.Row | src/components/modals/attendees-modal.tsx:97-104 | Six cells; the phone is "N/A" when missing or empty; the amount is "N/A" iff it is 0 |
| Attendees.Rows | src/components/modals/attendees-modal.tsx:97-104 | One row per attendee, in order |
| Attendees.RowsSnoc | src/components/modals/attendees-modal.tsx:96-104 | One more attendee adds its row at the end |
| Attendees.CsvRowsSnoc | src/components/modals/attendees-modal.tsx:95-104 | One more attendee adds its row at the end of the table, after the header and the earlier rows |
| Attendees.CsvRows | src/components/modals/attendees-modal.tsx:95-105 | The header, then one row per listed attendee |
| Attendees.Lines | src/components/modals/attendees-modal.tsx:106 | Each row joined with commas |
| Attendees.LinesSnoc | src/components/modals/attendees-modal.tsx:106 | One more row adds one line: that row joined with commas |
| Attendees.CsvContent | src/components/modals/attendees-modal.tsx:95-107 | An empty list exports the header line alone; otherwise the export starts with the header line and a line break |
| Attendees.CsvContentSnoc | src/components/modals/attendees-modal.tsx:95-107 | One more attendee adds to the export one line break followed by that attendee's row joined with commas; with the header case, line k + 1 of the export is attendee k's row |
| Attendees.CsvLineCount | src/components/modals/attendees-modal.tsx:95-107 | When no cell text has a line break, the export has exactly one line break per attendee |
| Attendees.ExportFileName | src/components/modals/attendees-modal.tsx:113 | The name ends in `_attendees.csv` and has no white space; a title without white space is kept as it is |
| Attendees.ExportFileNameOfRun | src/components/modals/attendees-modal.tsx:113 | A title of two words without white space separated by one run of white space exports as the words joined by one `_`, followed by `_attendees.csv` |
| Attendees.Modal.constructor | src/components/modals/attendees-modal.tsx:23-26 | No attendees, loading, empty search |
| Attendees.Modal.JoinEffect | src/components/modals/attendees-modal.tsx:31-59 | While open for an event, both lists become the join and loading ends; otherwise nothing changes |
| Attendees.Modal.SearchEffect | src/components/modals/attendees-modal.tsx:61-69 | The shown list is the search over all attendees |
| Attendees.Modal.SetSearchTerm | src/components/modals/attendees-modal.tsx:61-69 | A new term and the search effect that follows it |
| Attendees.OpenSearchClear | src/components/modals/attendees-modal.tsx:31-69 | Opening and typing shows the matching attendees of the event; clearing the term shows all of them |
| ProtectedRoute.Guard | src/components/ProtectedRoute.tsx:11-44 | The spinner iff loading; once loaded, a missing session on a protected route is sent to `redirectTo`, and a signed-in user on the public `/login` or `/register` page to `/dashboard`; no other redirect target; children only when loaded and, on a protected route, signed in |
| ProtectedRoute.GuardRendersChildren | src/components/ProtectedRoute.tsx:32-43 | The children render iff loaded, signed in where required, and not a signed-in user on a public login or register page |
| ProtectedRoute.GuardDefaults | src/components/ProtectedRoute.tsx:13-14 | With the defaults, loading shows the spinner, a loaded visitor without a session goes to `/login`, and a signed-in user sees the children |
| ProtectedRoute.PublicRouteAdmitsVisitors | src/components/ProtectedRoute.tsx:33-43 | A public route renders its children for a loaded visitor without a session |
| ProtectedRoute.RoleGuard | src/components/ProtectedRoute.tsx:51-67 | Redirects to `/dashboard` exactly when a signed-in user has a role that is not allowed; otherwise the plain guard decides |
| ProtectedRoute.RoleGuardAdmits | src/components/ProtectedRoute.tsx:58-66 | Children of a protected role route mean a loaded session, and a present user has an allowed role |
| ProtectedRoute.DefaultRolesAdmitAll | src/components/ProtectedRoute.tsx:53 | With the default roles, the role guard is the plain guard |
| ProtectedRoute.MountOverRehydratedSession | src/components/ProtectedRoute.tsx:19-21 | A rehydrated session that is not yet flagged is redirected to `/login` on the first render, and admitted after `initializeAuth` exactly when its token is not empty |
| EventCard.AvailableTickets | src/components/EventCard.tsx:50 | `??` keeps a recorded 0; only a missing count falls back to the total |
| EventCard.IsSoldOut | src/components/EventCard.tsx:50-52 | Sold out iff the recorded count is at most 0, or there is no count and the total is at most 0 |
| EventCard.CardButton | src/components/EventCard.tsx:114-143 | "View Ticket" iff the user holds a ticket, disabled iff processing; the book button is disabled iff past, sold out or processing; it reads "Processing..." iff processing, "Event Ended" iff past and not processing, "Sold Out" iff sold out and neither, "Book Now" iff none of the three |
| EventCard.BookNowIffEnabled | src/components/EventCard.tsx:128-143 | The book button says "Book Now" exactly when it is enabled |
| EventCard.BookClick | src/components/EventCard.tsx:41-48 | Booking is called iff signed in, with the card's id and price; otherwise a redirect to registration naming the event |
| EventCard.RedirectNamesEvent | src/components/EventCard.tsx:44 | The redirect is the registration prefix followed by the event id |
| EventCard.ClickOnCard | src/components/EventCard.tsx:126-128 | A click does something iff there is no ticket, the event has not started, is not sold out and nothing is processing, and then it is `handleBookClick` |
| EventCard.BookingOnlyWhenOpen | src/components/EventCard.tsx:126-128 | `onBookEvent` is called iff there is no ticket, the event is open and not sold out, nothing is processing and the user is signed in |
| Dashboard.PageView | src/pages/DashboardPage.tsx:91-105 | Access denied iff the user is not an organiser; the tables iff an organiser and not loading |
| Dashboard.AvailableShown | src/pages/DashboardPage.tsx:232 | `\|\|` sends both a missing count and 0 to the total |
| Dashboard.AvailableDiffersOnlyAtZero | src/pages/DashboardPage.tsx:232 | The dashboard and the card show the same count except when it is 0 |
| Dashboard.Page.constructor | src/pages/DashboardPage.tsx:9-11 | No events, no users, loading |
| Dashboard.Page.FetchOrganizerEvents | src/pages/DashboardPage.tsx:22-39 | A 2xx answer replaces the events; loading ends either way |
| Dashboard.Page.FetchAllUsers | src/pages/DashboardPage.tsx:41-56 | A 2xx answer replaces the users; nothing else changes |
| Dashboard.Page.OnUserChange | src/pages/DashboardPage.tsx:15-20 | Both loads for an organiser; nothing for anyone else |
| Dashboard.Page.HandleRoleChange | src/pages/DashboardPage.tsx:58-81 | A 2xx answer replaces the users with the id and, for the signed-in user, the session's user too; otherwise neither changes |
| Dashboard.ChangeOwnRole | src/pages/DashboardPage.tsx:70-76 | An organiser changing their own role: the list entry and the session both carry the answer, the session stays signed in, and the others are kept |
| AuthContext.Provider.constructor | src/contexts/AuthContext.tsx:24-28 | The stored token is read, but nobody is signed in |
| AuthContext.Provider.RestoreOnMount | src/contexts/AuthContext.tsx:30-47 | With both keys present, data that parses restores the session and data that does not removes both keys; otherwise nothing changes |
| AuthContext.Provider.SignIn | src/contexts/AuthContext.tsx:60-69 | Both keys are written and the session is signed in |
| AuthContext.Provider.Login | src/contexts/AuthContext.tsx:49-77 | Succeeds iff the answer is 2xx, persisting the token and user; a failure changes nothing; storage stays in step with the session |
| AuthContext.Provider.Register | src/contexts/AuthContext.tsx:79-108 | As login, and success also navigates to `/` |
| AuthContext.Provider.Logout | src/contexts/AuthContext.tsx:110-133 | Clears the keys and the session only on a 2xx answer; otherwise changes nothing |
| AuthContext.Provider.UpdateUser | src/contexts/AuthContext.tsx:135-141 | Persists the user data and replaces only the user |
| AuthContext.LoginThenReload | src/contexts/AuthContext.tsx:30-77 | A signed-in session survives a reload over the same storage |
| AuthContext.CorruptUserData | src/contexts/AuthContext.tsx:24-47 | Stored user data that does not parse is discarded on mount, and nobody is signed in |

## Left out

- HTTP and JSON: URLs, headers, request bodies and `response.json()` are not modelled. Each call is the `Response` value it yields, or a parameter such as `backend` or `answers`.
- Persistence: zustand's `persist`, `partialize`, `clearStorage` and the JSON encoding of persisted values are library machinery. `AuthStore.Store.Rehydrate` stands for the rehydrated record.
- `AuthContext.Provider.RestoreOnMount`: `JSON.parse` can succeed with a value that is not a user, such as `null`. `decode` yields only users or failure, so that case is not modelled.
- Browser effects: `alert`, `window.location.href` and `navigate` are entries of the effect log. `history.replaceState` is the removal of the three query keys. `scrollIntoView` and the Blob and `createObjectURL` download are left out because they are presentation.
- Concurrency and timing: `Promise.allSettled` is modelled as fetches one after another, and the one-second `setTimeout` between polls is left out. Races between concurrent fetches, and the dashboard's stale `users` closure in `handleRoleChange`, are not modelled.
- Dates and locale: `new Date(text)` is a finite map (`parseDate`) from the texts that denote a date to their timestamps. `toISOString`, `toLocaleDateString` and the card's and modal's `formatDate` are function parameters.
- Text.ToLower: lower-cases ASCII letters only, not full Unicode, and lengths count characters, not UTF-16 code units.
- Text.ParseInt: reads base 10 only. A `0x` prefix and the other radix rules are not modelled.
- The schema's numbers are NaN or finite reals; `Infinity` is not modelled.
- The setters `setLoading`, `setError` and `setUsers` of the stores are single field assignments with no logic and are left out.
- The `catch` of `fetchMultipleEvents` (`src/stores/eventStore.ts:98-105`) cannot be reached, because `Promise.allSettled` never rejects. The `catch` of `handlePaymentSuccess` (`src/pages/HomePage.tsx:171-173`) is left out for the same kind of reason.
- The home page's mount effect (`src/pages/HomePage.tsx:20-28`) is left out as a composition. Its parts are `LoadEvents`, `LoadUserTickets` and `HandleStripeReturn`. The page's `loading` flag and its spinner view are not modelled.
- HomePage.Page.HandlePaymentSuccess: an answer that throws during a poll counts as an answer that did not report the ticket. The answers to the polls are the sequence `answers`, and an attempt past its end counts as one that did not report the ticket.
- Attendees.AttendeeOf: amounts are whole numbers. A fractional amount (shown as, say, `₹499.5`) and an amount that `Number` turns into NaN (shown as "N/A" and dropped from the revenue by `|| 0`) cannot be represented, so `Revenue` and the amount cell are stated for whole amounts only.
- EventForm.Modal.HandleSubmit: the `onSubmit` promise is the boolean `submitResolves`. The schema check is the parameter `validate`, because the page passes `Validation(parseDate, startOfToday)` (see `EventForm.EmptyFormRejected` and `EventForm.SubmitEmptyForm`). The contract speaks of `validate`, not of the schema directly. A rejected `onSubmit` that is not a validation error leaves no field error and keeps the modal open, as the code does.
- The card's price display (`₹{event.price ?? 25}`) and every other presentational detail are left out.
- `src/pages/TicketsPage.tsx` is not part of this model: it uses the older ticket shape and duplicates the ticket store's hydration. `Header.tsx`, `Footer.tsx`, `App.tsx`, `TicketModal.tsx`, `delete-confirmation-modal.tsx` and `ProfileSettingsPage.tsx` are markup only and are not part of this model either.
- Tickets use the shape the stores and the attendee list read (`ticket_status`, `amount`, `purchased_at`). The different shape declared in `src/types/index.ts` is not used.
