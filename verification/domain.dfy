/** The data the fulfilment code exchanges with the dialog runtime: the six
    booking slots, validation results, messages, the collaborators it reads
    from, and the errors a call can raise. */
module Domain {
  import opened Wrappers

  datatype SlotName = MovieName | TheaterName | MovieDate | TicketCount | Mobile | MovieTime

  /** The slot map of a request: each recognised key holds a string or `None`. */
  datatype Slots = Slots(
    movieName: Option<string>,
    theaterName: Option<string>,
    movieDate: Option<string>,
    ticketCount: Option<string>,
    mobile: Option<string>,
    movieTime: Option<string>)

  /** `slots[name]`. */
  function Get(slots: Slots, name: SlotName): Option<string> {
    match name
    case MovieName => slots.movieName
    case TheaterName => slots.theaterName
    case MovieDate => slots.movieDate
    case TicketCount => slots.ticketCount
    case Mobile => slots.mobile
    case MovieTime => slots.movieTime
  }

  /** `slots[name] = None`: the rejected slot is cleared and nothing else changes. */
  function Clear(slots: Slots, name: SlotName): (r: Slots)
    ensures Get(r, name) == None
    ensures forall n :: n != name ==> Get(r, n) == Get(slots, n)
  {
    match name
    case MovieName => slots.(movieName := None)
    case TheaterName => slots.(theaterName := None)
    case MovieDate => slots.(movieDate := None)
    case TicketCount => slots.(ticketCount := None)
    case Mobile => slots.(mobile := None)
    case MovieTime => slots.(movieTime := None)
  }

  /** The `{contentType, content}` message pair. */
  datatype Message = Message(contentType: string, content: string)

  function PlainText(content: string): Message {
    Message("PlainText", content)
  }

  /** The dictionary built by `build_validation_result`. */
  datatype ValidationResult = ValidationResult(
    isValid: bool,
    violatedSlot: Option<SlotName>,
    message: Option<Message>)

  /** `build_validation_result`: a message key only when content is given,
      and then always as plain text. */
  function BuildValidationResult(isValid: bool, violatedSlot: Option<SlotName>, content: Option<string>): (r: ValidationResult)
    ensures r.isValid == isValid && r.violatedSlot == violatedSlot
    ensures r.message.Some? <==> content.Some?
    ensures content.Some? ==> r.message.value.contentType == "PlainText" && r.message.value.content == content.value
  {
    match content
    case None => ValidationResult(isValid, violatedSlot, None)
    case Some(c) => ValidationResult(isValid, violatedSlot, Some(PlainText(c)))
  }

  /** `build_validation_result(True, None, None)`. */
  function Valid(): ValidationResult {
    BuildValidationResult(true, None, None)
  }

  /** A rejection of one slot with a message. */
  function Invalid(slot: SlotName, content: string): ValidationResult {
    BuildValidationResult(false, Some(slot), Some(content))
  }

  /** What every validator returns: a valid result names no slot and has no
      message; an invalid one names exactly one slot and carries a plain-text
      message. */
  predicate WellFormed(r: ValidationResult) {
    && (r.isValid <==> r.violatedSlot.None?)
    && (r.isValid ==> r.message.None?)
    && (!r.isValid ==> r.message.Some? && r.message.value.contentType == "PlainText")
  }

  lemma BuiltResultsWellFormed(slot: SlotName, content: string)
    ensures WellFormed(Valid())
    ensures WellFormed(Invalid(slot, content))
    ensures Invalid(slot, content).violatedSlot == Some(slot)
    ensures Invalid(slot, content).message.value.content == content
  {
  }

  /** The catalog store, as the two queries the code sends it:
      the stored theater names offering a movie, and the numeric id of a
      (movie, theater) pair if there is one. */
  datatype Catalog = Catalog(
    theatersFor: string -> seq<string>,
    catalogId: (string, string) -> Option<int>)

  /** The clock and the date parser: `today` as a day number, `parse` gives
      the day number of a date string or `None` when it is not a date, and
      `show` renders a day number as `str(date)` does. */
  datatype Calendar = Calendar(
    today: int,
    parse: string -> Option<int>,
    show: int -> string)

  /** Errors a call raises instead of returning a dialog response. */
  datatype Error =
    | UnsupportedIntent(intentName: string)
    | NullQueryValue(slot: SlotName)

  /** The text of the unsupported-intent exception. */
  function ErrorText(e: Error): string {
    match e
    case UnsupportedIntent(name) => "Intent with name " + name + " not supported"
    case NullQueryValue(_) => "catalog query with a null attribute value"
  }

  /** `str(x)` / `f"{x}"` of an optional slot value: `None` renders as "None". */
  function Show(value: Option<string>): string {
    match value
    case None => "None"
    case Some(s) => s
  }
}
