# Movie-booking chatbot fulfilment, modelled in Dafny

This project models the fulfilment code of a movie-ticket chatbot
(`lamda-function.py`). The dialog runtime calls that code once per turn. It
does three things:

- It judges the booking slots: movie, theater, date, ticket count and mobile
  number.
- It answers with one of four dialog actions: ElicitSlot, ConfirmIntent,
  Close or Delegate.
- When a booking is fulfilled, it writes an order to the order table,
  publishes a confirmation SMS and closes the dialog.

The model is functional. Slot maps, validation results and responses are
immutable datatypes, and every validator and handler is a pure function. The
collaborators are passed in as function-valued records:

- the catalog store gives the theaters for a movie and the id of a
  (movie, theater) pair;
- the calendar gives today's day number, a date parser and a date printer.

The two writes of the fulfilment (the order put and the SMS publish) come
back as an ordered effect trace. The fresh order id is a parameter.

Modules, in dependency order:

| module | contents |
|---|---|
| `Wrappers` | `Option`, `Result` |
| `Text` | ASCII `lower`/`capitalize`, `', '.join`, `rreplace` (via `rsplit`), `ltostr` |
| `Numbers` | `parse_int`, with a decimal printer as its partner |
| `Phone` | `isvalid_mobile`, against an independent description of the regular expression's language |
| `Domain` | slots, `build_validation_result`, catalog, calendar, errors |
| `Validators` | the five validators, `gen_validate_res`, `validate_book` |
| `Responses` | `elicit_slot`, `confirm_intent`, `close`, `delegate` |
| `Handlers` | `i_book_ticket` (both phases), `i_movie_theater`, `i_help`, `place_ticket`, `send_sns` |
| `Dispatcher` | `dispatch` |

Two kinds of failure become `Result.Failure` instead of a response:

- an unsupported intent name, which is the exception `dispatch` raises;
- a catalog query sent with a `None` slot value (`NullQueryValue`). The query
  client refuses a null string attribute, so `validate_theater` with no movie
  but a theater, and the fulfilment paths with no movie or no theater, fail
  at the query.

The model follows the code in four places where a reader might expect otherwise:

- A date equal to today is accepted. The check is `date < today`, even though
  the message says "at least one day in advance".
- A ticket count of `"0"` is accepted. Only values below 0 are rejected.
- A Close after a failed catalog lookup still reports `"Fulfilled"`, not a
  failure state.
- `"Clarice"`, the movie `Dispatcher.BookingExample` books, is not in the movie list
  (`"clarie"`, `"wanda vision"`). The fulfilment phase does not validate it,
  so the booking example still places the order.

## Model

| member | source | states |
|---|---|---|
| Text.Lower | lamda-function.py:222 | `s.lower()` keeps the length, maps each character through ASCII lower-casing, and leaves no upper-case letter |
| Text.LowerIdempotent | lamda-function.py:160-166 | lower-casing twice is lower-casing once, so the lowered lists compare equal to lowered input |
| Text.Capitalize | lamda-function.py:457-458 | `capitalize()` upper-cases the first character, lower-cases the rest, and lower-cases back to the same text as its input |
| Text.RFind | lamda-function.py:100-101 | the search `rsplit` does: the right-most occurrence of the separator, or proof that there is none |
| Text.RReplace | lamda-function.py:100-101 | `rreplace` with a count of 0, or on a string where `old` does not occur, returns the string unchanged |
| Text.JoinEnds | lamda-function.py:112 | `', '.join(items)` of a non-empty list starts with the first item and ends with the last |
| Text.JoinLength | lamda-function.py:112 | the joined text is as long as the items together plus one separator between each neighbouring pair |
| Text.RReplaceLast | lamda-function.py:100-101 | `rreplace(s, old, new, 1)` replaces exactly the right-most occurrence of `old`, and returns `s` unchanged when `old` does not occur |
| Text.LToStrShape | lamda-function.py:111-114 | `ltostr` gives "" for no items and the item itself for one item; for several it gives the items joined by ", " with " and " before the last item, provided the last item has no ", " |
| Text.LToStrPair | lamda-function.py:111-114 | `ltostr([a, b])` is `a + " and " + b` when `b` has no ", " |
| Text.LToStrThree | lamda-function.py:111-114 | `ltostr(["a", "b", "c"])` is "a, b and c" |
| Numbers.ParseInt | lamda-function.py:104-108 | `parse_int` yields a number exactly for an optionally signed decimal literal; the sign of the result follows the leading '-'; anything else gives NaN (`None`) |
| Numbers.ParseShowInt | lamda-function.py:104-108 | parsing the decimal rendering of any integer gives that integer back |
| Numbers.ParseExamples | lamda-function.py:104-108 | "-1" parses to -1, "11" to 11 and "5" to 5; "two" and "" give NaN |
| Phone.IsValidMobile | lamda-function.py:149-154 | `isvalid_mobile` accepts exactly the strings made of 0 to 3 characters from `[+0-9]` followed by 10 or 11 digits up to the end |
| Phone.MobileShapeIff | lamda-function.py:153-154 | the single-pass check on the trailing digit run agrees with the existential description of the regular expression, in both directions |
| Phone.MobileExamples | lamda-function.py:149-154 | "+14155551234" is accepted and "12345" is rejected |
| Domain.Clear | lamda-function.py:387 | `slots[violated] = None` clears that slot and leaves every other slot as it was |
| Domain.BuildValidationResult | lamda-function.py:121-135 | the result carries the given validity and slot, and has a message exactly when content is given, always as PlainText with that content |
| Domain.BuiltResultsWellFormed | lamda-function.py:121-135 | a valid result names no slot and has no message; a rejection names its one slot and carries its plain-text message |
| Validators.MovieListText | lamda-function.py:160-166 | the alternatives offered after a movie rejection read "clarie and wanda vision" |
| Validators.MovieNames | lamda-function.py:160-166 | `get_movie_names` lists two movies, each already lower-case |
| Validators.GetTheaterNames | lamda-function.py:192-209 | one name per stored theater, each the stored name lower-cased; a `None` movie makes the query fail |
| Validators.ValidateMovie | lamda-function.py:215-230 | `None` passes; a name passes iff it matches a listed movie ignoring case; a rejection names MovieName and carries the "Showtime for the ..." message |
| Validators.ValidateTheater | lamda-function.py:233-247 | `None` passes; a theater passes iff it matches, ignoring case, a theater listed for the movie; a rejection names TheaterName and carries the "Showtime in theater ..." message listing the movie's theaters; a theater with no movie makes the query fail |
| Validators.NoTheatersListed | lamda-function.py:233-247 | for a movie with no theaters, every theater is rejected with the message "Showtime in theater X is not available. You can choose one from ." |
| Validators.MovieRejectionQuotes | lamda-function.py:223-227 | the movie rejection quotes the movie the user asked for |
| Validators.TheaterRejectionQuotes | lamda-function.py:241-245 | the theater rejection quotes the theater asked for and the `ltostr` list of alternatives |
| Validators.WindowRejectionQuotes | lamda-function.py:281-282 | the window rejection names both of its dates |
| Validators.MobileRejectionQuotes | lamda-function.py:287-292 | the mobile rejection quotes the number as given |
| Validators.ValidateTicketsQuantity | lamda-function.py:250-269 | `None` and non-numbers pass; a number passes iff it is 0 to 10; below 0 gets the "at least one ticket" message and above 10 the "maximum ... is 10" message |
| Validators.ValidateDate | lamda-function.py:272-283 | `None` passes; an unparsable date gets "I did not understand date"; a parsed day passes iff today <= d < today + 30; earlier days get the "in advance" message and later ones the window message naming today and today + 30 |
| Validators.ValidateMobile | lamda-function.py:286-294 | `None` passes; a number passes iff it has the mobile shape; a rejection names Mobile and quotes the number |
| Validators.FirstInvalid | lamda-function.py:313-315 | `next(...)` returns a valid result iff every entry is valid; otherwise it returns the first invalid entry, and every entry before it is valid |
| Validators.ValidateBook | lamda-function.py:308-317 | a `None` slot map is valid; the call fails only when the theater query goes out with no movie; every result is well formed |
| Validators.Checks | lamda-function.py:297-305 | building the five results fails exactly when a theater is given with no movie; otherwise there is one result per slot of the fixed order |
| Validators.ChecksJudgeTheirSlots | lamda-function.py:297-305 | `gen_validate_res` yields five well-formed results, one per slot, in the order MovieName, TheaterName, MovieDate, TicketCount, Mobile |
| Validators.ValidateBookIsFirstInvalid | lamda-function.py:297-317 | the short-circuit `validate_book` equals taking the first rejection of the eagerly evaluated generator, and fails exactly when the generator fails |
| Validators.FirstFailureWins | lamda-function.py:297-317 | an accepted slot map passes all five validators; a rejection is the result at some position of the fixed order, names that position's slot, and every earlier validator passed |
| Validators.TicketCountBounds | lamda-function.py:250-269 | for every integer: it is accepted iff it is 0 to 10, and each side outside the range gets its own message |
| Validators.TicketCountExamples | lamda-function.py:250-269 | "-1" and "11" are rejected with their messages; "5" and "two" pass |
| Validators.DateWindowEdges | lamda-function.py:279-282 | today and today + 29 pass; today - 1 gets the "in advance" message; today + 30 gets the window message |
| Validators.MovieCaseInsensitive | lamda-function.py:215-230 | two movie names that lower-case alike get the same verdict |
| Validators.TheaterCaseInsensitive | lamda-function.py:233-247 | two theater names that lower-case alike get the same verdict |
| Validators.MovieExamples | lamda-function.py:160-166 | "Clarie" and "WANDA VISION" pass the movie check; "Clarice" does not |
| Responses.BuildersShape | lamda-function.py:36-81 | each builder echoes the session attributes, tags the action with its own type, and carries the intent name, the slots, the slot to elicit, the fulfilment state and the message it was given |
| Handlers.ValidationResponse | lamda-function.py:384-397 | a rejection gives ElicitSlot for exactly the violated slot, with its message and only that slot cleared; an acceptance gives Delegate with the slots unchanged and `{}` for absent session attributes |
| Handlers.PlaceTicket | lamda-function.py:320-349 | the order item carries the order id, the caller id, the catalog id and the count as the slot's text ("None" when absent) |
| Handlers.SendSns | lamda-function.py:352-369 | one publish to the mobile number as `str(mobile)` gives it, with a text naming the movie, the theater and the ticket count |
| Handlers.ConfirmationMentions | lamda-function.py:356-362 | the SMS body contains the movie, the theater and the ticket count |
| Handlers.FulfilBooking | lamda-function.py:399-428 | a lookup miss closes with the system-error text and writes nothing; a hit writes the order (caller id, catalog id, count), then publishes to the mobile number as given, then closes with the order text; both report "Fulfilled"; a missing movie or theater fails at the query |
| Handlers.BookTicket | lamda-function.py:375-428 | the DialogCodeHook phase never writes and fails only on a theater with no movie; any other phase is the fulfilment sequence |
| Handlers.MovieTheater | lamda-function.py:431-466 | the validation phase answers from the movie check alone; fulfilment closes with "Fulfilled" and the plain-text theater list for the movie, and fails only when the movie is missing; nothing is written |
| Handlers.TheaterListMentions | lamda-function.py:457-465 | the theater-list text names the movie and contains the `ltostr` join of the capitalised theater names |
| Handlers.Help | lamda-function.py:469-481 | a fixed help text in a Close with "Fulfilled", the session attributes echoed, and no writes |
| Handlers.BookingDialogPhase | lamda-function.py:379-397 | the booking validation phase re-elicits exactly the slot `validate_book` names, clearing only that slot, or delegates with the slots unchanged; it writes nothing |
| Handlers.PlacedTextMentions | lamda-function.py:419-428 | the order confirmation contains the ticket count, the theater, the movie and the order id |
| Handlers.FulfilmentSequence | lamda-function.py:399-428 | end to end: a miss writes nothing and closes with the error text; a hit writes one order (caller id defaulting to "0"), then one confirmation SMS to the mobile number, and closes with a text that names count, theater, movie and order id |
| Handlers.FulfilmentNeedsMovieAndTheater | lamda-function.py:399-401 | a fulfilment call missing the movie or the theater fails at the catalog query, before any write |
| Handlers.RetryWritesSecondOrder | lamda-function.py:320-349 | fulfilling the same request twice, with two fresh ids, writes two different orders: there is no deduplication |
| Handlers.TheaterListRoundTrip | lamda-function.py:456-458 | each displayed theater name lower-cases back to the stored name and does not start with a lower-case letter |
| Dispatcher.Dispatch | lamda-function.py:487-505 | an intent name outside BookTickets, GetMovieTheater and Help raises "Intent with name X not supported", and only such a name does |
| Dispatcher.DispatchRoutes | lamda-function.py:497-503 | each of the three names reaches its own handler |
| Dispatcher.DispatchEffects | lamda-function.py:487-505 | for every intent and phase, a Close reports "Fulfilled", and the only writes are one order put with the call's order id followed by one publish, made by a booking fulfilment call |
| Dispatcher.BookingExample | lamda-function.py:399-428 | with (Clarice, Regal) known as 42, a booking writes exactly one order with id 42 and count "2", sends one SMS to "+14155551234", and closes with a text naming "2", "Regal", "Clarice" and the order id |

## Left out

- The DynamoDB and SNS clients, the query plumbing of `get_movie_id` and
  `get_theater_names`, and `lambda_handler`. These are foreign I/O. They
  become the `Catalog` record and the `PutOrder`/`Publish` effect trace.
- Credentials, `os.getenv` table names, and the `TZ`/`time.tzset` setup.
- Logging, and `safe_ex`, which nothing calls.
- `uuid.uuid4`. The order id is a parameter of the fulfilment.
- The date parsers (`dateutil.parser`, `strptime` with `%Y-%m-%d`) and the
  clock. `Calendar.parse` gives a day number or `None`, `Calendar.today` is
  today, and `Calendar.show` prints a day. This drops the uncaught
  `ValueError` raised when dateutil accepts a string that `%Y-%m-%d` rejects.
- Numbers.ParseInt: models `int()` on an optionally signed run of ASCII
  digits only. It does not model the surrounding whitespace, `_` separators
  or non-ASCII digits that Python also accepts. Nor does it model CPython's
  limit of 4300 digits for `int()` on a string: a longer literal raises
  there, so `parse_int` returns NaN and the count passes, while the model
  parses it and rejects it as above 10.
- Handlers.FulfilBooking: the order put and the SMS publish always succeed in
  the model. In Python a ticket count that is not a number (for example
  "two", or `None` printed as "None") is refused by DynamoDB as an `N`
  attribute, so `place_ticket` raises and nothing is written. A `None` mobile
  is published to "None", and the publish raises after the order is written.
  These raise paths are not modelled.
- A NaN movie id from the catalog. `Catalog.catalogId` returns an integer or
  `None`.
- Phone.IsValidMobile: does not model `$` matching before a final newline, so
  a number followed by "\n" is rejected here but accepted by `re`.
- Text.Lower and Text.Capitalize: map ASCII letters only. Python's full
  Unicode case mapping is left out.
- Text.RReplace: requires a non-empty separator and a non-negative count.
  `rsplit` raises on an empty separator, and a negative count means "no
  limit". Neither case occurs in `ltostr`.
- The `KeyError` a missing slot key, user id or session-attribute key would
  raise. A request is a record whose six slots are all present (each possibly
  `None`), and the slot map itself is never null.
- The no-op `startswith('+1')` test in `send_sns`.
- `confirm_intent` is modelled (`Responses.BuildConfirmIntent`), but no
  handler uses it.
