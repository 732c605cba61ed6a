/** The intent handlers: `i_book_ticket` (validation phase and fulfilment
    sequence), `i_movie_theater` and `i_help`. Collaborator calls are
    parameters; the writes the fulfilment makes are returned as an ordered
    effect trace. */
module Handlers {
  import opened Wrappers
  import opened Text
  import opened Domain
  import opened Validators
  import opened Responses

  /** The parts of a runtime event the handlers read. */
  datatype Request = Request(
    intentName: string,
    invocationSource: string,
    slots: Slots,
    sessionAttributes: Option<Attributes>,
    userId: Option<string>)

  /** The item `place_ticket` puts in the order table. */
  datatype Order = Order(orderId: string, userId: string, movieId: int, ticketCount: string)

  /** A write to a collaborator: an order put, or an SMS publish. */
  datatype Effect =
    | PutOrder(order: Order)
    | Publish(phoneNumber: string, text: string)

  /** What a handler returns, together with the writes it made, in order. */
  datatype Outcome = Outcome(response: Response, effects: seq<Effect>)

  /** The invocation source of a mid-dialog validation call; any other value
      is a fulfilment call. */
  const DialogCodeHook := "DialogCodeHook"

  /** The only fulfilment state the handlers ever report. */
  const Fulfilled := "Fulfilled"

  /** The caller id, `'0'` when the event carries none. */
  function UserId(req: Request): string {
    match req.userId
    case Some(id) => id
    case None => "0"
  }

  /** The session attributes handed to `delegate`: `{}` when absent. */
  function DefaultAttributes(session: Option<Attributes>): Attributes {
    match session
    case Some(a) => a
    case None => map[]
  }

  /** The response to a validation-phase call: re-elicit the rejected slot
      with that slot cleared, or delegate with the slot map untouched. */
  function ValidationResponse(req: Request, check: ValidationResult): (r: Response)
    requires WellFormed(check)
    ensures !check.isValid ==>
              && r.dialogAction.ElicitSlot?
              && r.sessionAttributes == req.sessionAttributes
              && r.dialogAction.intentName == req.intentName
              && Some(r.dialogAction.slotToElicit) == check.violatedSlot
              && Some(r.dialogAction.message) == check.message
              && Get(r.dialogAction.slots, r.dialogAction.slotToElicit) == None
              && (forall n :: n != r.dialogAction.slotToElicit ==> Get(r.dialogAction.slots, n) == Get(req.slots, n))
    ensures check.isValid ==>
              && r.dialogAction == Delegate(req.slots)
              && r.sessionAttributes.Some?
              && (req.sessionAttributes.Some? ==> r.sessionAttributes == req.sessionAttributes)
              && (req.sessionAttributes.None? ==> r.sessionAttributes == Some(map[]))
  {
    if !check.isValid then
      var slot := check.violatedSlot.value;
      BuildElicitSlot(req.sessionAttributes, req.intentName, Clear(req.slots, slot), slot, check.message.value)
    else
      BuildDelegate(Some(DefaultAttributes(req.sessionAttributes)), req.slots)
  }

  /** The texts the handlers send: the SMS body `send_sns` publishes, the
      two Close messages of the fulfilment, the theater list and the help
      menu. `ReplyText` spells each one out. */
  datatype Reply =
    | Confirmation(movie: string, theater: string, date: Option<string>, time: Option<string>,
                   count: Option<string>)
    | NotPlaced(slots: Slots)
    | Placed(slots: Slots, orderId: string)
    | TheaterList(movie: string, names: seq<string>)
    | HelpMenu

  function ReplyText(reply: Reply): string {
    match reply
    case Confirmation(movie, theater, date, time, count) =>
      var when := " \nDate: " + Show(date) + " " + Show(time) + " \nTotal ticket: ";
      "Your booking is confirmed.\nSummary of tickets:\nMovie: " + movie + " \nTheater:" + theater
      + when + Show(count) + " \n\nThank you for booking with chatbot. "
    case NotPlaced(slots) =>
      "Sorry your book of " + Show(slots.ticketCount) + " tickets of " + Show(slots.theaterName) + " "
      + Show(slots.movieName) + " has not been placed due to a system error. "
      + "Please try it again later or contact us via win@blah.com"
    case Placed(slots, orderId) =>
      "Thank you for ordering through our bot. You book of " + Show(slots.ticketCount) + " tickets of "
      + Show(slots.theaterName) + " " + Show(slots.movieName)
      + " has been placed and will be processed immediately (Order ID: " + orderId
      + "). Can I help you with anything else?"
    case TheaterList(movie, names) =>
      "Movie " + movie + " is offering consists of the following theater: " + LToStr(Capitalized(names)) + "."
    case HelpMenu =>
      "Hi this is lex, your personal assistant. - Would you like to book movie tickets? - or should I show you a list of available movies for one of the theater?"
  }

  /** `place_ticket`: the order write, with the fresh order id supplied by
      the caller (the source draws it from `uuid4`). The count is stored as
      the text the slot held. */
  function PlaceTicket(orderId: string, userId: string, movieId: int, count: Option<string>): (r: Effect)
    ensures r.PutOrder?
    ensures r.order.orderId == orderId && r.order.userId == userId && r.order.movieId == movieId
    ensures count.Some? ==> r.order.ticketCount == count.value
    ensures count.None? ==> r.order.ticketCount == "None"
  {
    PutOrder(Order(orderId, userId, movieId, Show(count)))
  }

  /** `send_sns`: one publish to the mobile number, as given, whose text
      names the movie, the theater and the ticket count. */
  function SendSns(movie: string, theater: string, date: Option<string>, time: Option<string>,
                   count: Option<string>, mobile: Option<string>): (r: Effect)
    ensures r.Publish? && r.phoneNumber == Show(mobile)
    ensures Contains(r.text, movie) && Contains(r.text, theater) && Contains(r.text, Show(count))
  {
    ConfirmationMentions(movie, theater, date, time, count);
    Publish(Show(mobile), ReplyText(Confirmation(movie, theater, date, time, count)))
  }

  /** The SMS body restates the booking: movie, theater and ticket count. */
  lemma ConfirmationMentions(movie: string, theater: string, date: Option<string>, time: Option<string>,
                             count: Option<string>)
    ensures Contains(ReplyText(Confirmation(movie, theater, date, time, count)), movie)
    ensures Contains(ReplyText(Confirmation(movie, theater, date, time, count)), theater)
    ensures Contains(ReplyText(Confirmation(movie, theater, date, time, count)), Show(count))
  {
    var mid := " \nDate: " + Show(date) + " " + Show(time) + " \nTotal ticket: ";
    ContainsThree("Your booking is confirmed.\nSummary of tickets:\nMovie: ", movie, " \nTheater:", theater,
                  mid, Show(count), " \n\nThank you for booking with chatbot. ");
  }

  /** The fulfilment sequence of `i_book_ticket`: catalog lookup, then the
      order write, then the SMS, then Close. */
  function FulfilBooking(req: Request, cat: Catalog, orderId: string): (r: Result<Outcome, Error>)
    ensures req.slots.movieName.None? ==> r == Failure(NullQueryValue(MovieName))
    ensures req.slots.movieName.Some? && req.slots.theaterName.None? ==> r == Failure(NullQueryValue(TheaterName))
    ensures r.Success? ==>
              && r.value.response.sessionAttributes == req.sessionAttributes
              && r.value.response.dialogAction.Close?
              && r.value.response.dialogAction.fulfillmentState == Fulfilled
              && r.value.response.dialogAction.message.contentType == "PlainText"
    ensures req.slots.movieName.Some? && req.slots.theaterName.Some? ==>
              var movie := req.slots.movieName.value;
              var theater := req.slots.theaterName.value;
              && r.Success?
              && (cat.catalogId(movie, theater).None? ==>
                    && r.value.effects == []
                    && r.value.response.dialogAction.message.content == ReplyText(NotPlaced(req.slots)))
              && (cat.catalogId(movie, theater).Some? ==>
                    && |r.value.effects| == 2
                    && r.value.effects[0] ==
                         PutOrder(Order(orderId, UserId(req), cat.catalogId(movie, theater).value,
                                        Show(req.slots.ticketCount)))
                    && r.value.effects[1].Publish?
                    && r.value.effects[1].phoneNumber == Show(req.slots.mobile)
                    && r.value.response.dialogAction.message.content == ReplyText(Placed(req.slots, orderId)))
  {
    var slots := req.slots;
    match slots.movieName
    case None => Failure(NullQueryValue(MovieName))
    case Some(movie) =>
      match slots.theaterName
      case None => Failure(NullQueryValue(TheaterName))
      case Some(theater) =>
        match cat.catalogId(movie, theater)
        case None =>
          Success(Outcome(BuildClose(req.sessionAttributes, Fulfilled, PlainText(ReplyText(NotPlaced(slots)))), []))
        case Some(movieId) =>
          var placed := PlaceTicket(orderId, UserId(req), movieId, slots.ticketCount);
          var sent := SendSns(movie, theater, slots.movieDate, slots.movieTime, slots.ticketCount, slots.mobile);
          Success(Outcome(BuildClose(req.sessionAttributes, Fulfilled, PlainText(ReplyText(Placed(slots, orderId)))),
                          [placed, sent]))
  }

  /** `i_book_ticket`. */
  function BookTicket(req: Request, cat: Catalog, cal: Calendar, orderId: string): (r: Result<Outcome, Error>)
    ensures req.invocationSource == DialogCodeHook ==>
              && (r.Failure? <==> req.slots.movieName.None? && req.slots.theaterName.Some?)
              && (r.Success? ==> r.value.effects == [])
    ensures req.invocationSource != DialogCodeHook ==> r == FulfilBooking(req, cat, orderId)
  {
    if req.invocationSource == DialogCodeHook then
      var check :- ValidateBook(cat, cal, Some(req.slots));
      Success(Outcome(ValidationResponse(req, check), []))
    else
      FulfilBooking(req, cat, orderId)
  }

  /** The theater names as `i_movie_theater` displays them. */
  function Capitalized(names: seq<string>): (r: seq<string>)
    ensures |r| == |names|
    ensures forall i :: 0 <= i < |r| ==> r[i] == Capitalize(names[i])
  {
    seq(|names|, i requires 0 <= i < |names| => Capitalize(names[i]))
  }

  /** `i_movie_theater`: validate the movie mid-dialog; on fulfilment list the
      theaters showing it. */
  function MovieTheater(req: Request, cat: Catalog): (r: Result<Outcome, Error>)
    ensures r.Success? ==> r.value.effects == []
    ensures req.invocationSource == DialogCodeHook ==>
              r == Success(Outcome(ValidationResponse(req, ValidateMovie(req.slots.movieName)), []))
    ensures req.invocationSource != DialogCodeHook ==>
              && (r.Failure? <==> req.slots.movieName.None?)
              && (r.Success? ==>
                    && r.value.response.sessionAttributes == req.sessionAttributes
                    && r.value.response.dialogAction.Close?
                    && r.value.response.dialogAction.fulfillmentState == Fulfilled
                    && r.value.response.dialogAction.message ==
                         PlainText(ReplyText(TheaterList(req.slots.movieName.value,
                                                         GetTheaterNames(cat, req.slots.movieName).value))))
  {
    if req.invocationSource == DialogCodeHook then
      Success(Outcome(ValidationResponse(req, ValidateMovie(req.slots.movieName)), []))
    else
      var names :- GetTheaterNames(cat, req.slots.movieName);
      Success(Outcome(BuildClose(req.sessionAttributes, Fulfilled,
                                 PlainText(ReplyText(TheaterList(req.slots.movieName.value, names)))), []))
  }

  /** `i_help`: a static Close, in every phase. */
  function Help(req: Request): (r: Outcome)
    ensures r.effects == []
    ensures r.response.sessionAttributes == req.sessionAttributes
    ensures r.response.dialogAction == Close(Fulfilled, PlainText(ReplyText(HelpMenu)))
  {
    Outcome(BuildClose(req.sessionAttributes, Fulfilled, PlainText(ReplyText(HelpMenu))), [])
  }

  /** The validation phase of `i_book_ticket` as a state-machine step: a
      rejection re-elicits exactly the slot `validate_book` names, with only
      that slot cleared; an acceptance delegates with the slot map unchanged
      and `{}` for absent session attributes. No write happens. */
  lemma BookingDialogPhase(req: Request, cat: Catalog, cal: Calendar, orderId: string)
    requires req.invocationSource == DialogCodeHook
    ensures var r := BookTicket(req, cat, cal, orderId);
            var check := ValidateBook(cat, cal, Some(req.slots));
            r.Success? ==>
              && check.Success?
              && r.value.effects == []
              && (!check.value.isValid ==>
                    && r.value.response.dialogAction.ElicitSlot?
                    && Some(r.value.response.dialogAction.slotToElicit) == check.value.violatedSlot
                    && Get(r.value.response.dialogAction.slots, r.value.response.dialogAction.slotToElicit) == None
                    && (forall n :: n != r.value.response.dialogAction.slotToElicit ==>
                                    Get(r.value.response.dialogAction.slots, n) == Get(req.slots, n))
                    && r.value.response.sessionAttributes == req.sessionAttributes)
              && (check.value.isValid ==>
                    && r.value.response.dialogAction == Delegate(req.slots)
                    && r.value.response.sessionAttributes == Some(DefaultAttributes(req.sessionAttributes)))
  {
  }

  /** The confirmation restates the order: the ticket count, the theater, the
      movie and the new order id all appear in it. */
  lemma PlacedTextMentions(slots: Slots, orderId: string)
    ensures Contains(ReplyText(Placed(slots, orderId)), Show(slots.ticketCount))
    ensures Contains(ReplyText(Placed(slots, orderId)), Show(slots.theaterName))
    ensures Contains(ReplyText(Placed(slots, orderId)), Show(slots.movieName))
    ensures Contains(ReplyText(Placed(slots, orderId)), orderId)
  {
    var count := Show(slots.ticketCount);
    var theater := Show(slots.theaterName);
    var movie := Show(slots.movieName);
    var s1 := "Thank you for ordering through our bot. You book of " + count;
    var s2 := s1 + " tickets of " + theater;
    var s3 := s2 + " " + movie;
    var s4 := s3 + " has been placed and will be processed immediately (Order ID: " + orderId;
    var s5 := s4 + "). Can I help you with anything else?";
    assert ReplyText(Placed(slots, orderId)) == s5;
    ContainsInserted("Thank you for ordering through our bot. You book of ", count);
    ContainsAppend(s1, " tickets of ", count);
    ContainsAppend(s1 + " tickets of ", theater, count);
    ContainsInserted(s1 + " tickets of ", theater);
    ContainsAppend(s2, " ", count);
    ContainsAppend(s2, " ", theater);
    ContainsAppend(s2 + " ", movie, count);
    ContainsAppend(s2 + " ", movie, theater);
    ContainsInserted(s2 + " ", movie);
    var mid := " has been placed and will be processed immediately (Order ID: ";
    ContainsAppend(s3, mid, count);
    ContainsAppend(s3, mid, theater);
    ContainsAppend(s3, mid, movie);
    ContainsAppend(s3 + mid, orderId, count);
    ContainsAppend(s3 + mid, orderId, theater);
    ContainsAppend(s3 + mid, orderId, movie);
    ContainsInserted(s3 + mid, orderId);
    var last := "). Can I help you with anything else?";
    ContainsAppend(s4, last, count);
    ContainsAppend(s4, last, theater);
    ContainsAppend(s4, last, movie);
    ContainsAppend(s4, last, orderId);
  }

  /** The fulfilment sequence end to end: a lookup miss closes with the
      system-error text and writes nothing; a hit writes exactly one order
      (caller id defaulting to '0', the catalog id, the ticket count), then
      publishes once to the mobile number as given, and closes with a
      message naming the count, theater, movie and order id. Both paths
      report "Fulfilled". */
  lemma FulfilmentSequence(req: Request, cat: Catalog, cal: Calendar, orderId: string)
    requires req.invocationSource != DialogCodeHook
    requires req.slots.movieName.Some? && req.slots.theaterName.Some?
    ensures var r := BookTicket(req, cat, cal, orderId);
            var id := cat.catalogId(req.slots.movieName.value, req.slots.theaterName.value);
            var close := r.value.response.dialogAction;
            && r.Success?
            && close.Close? && close.fulfillmentState == "Fulfilled"
            && (id.None? ==> r.value.effects == [] && close.message.content == ReplyText(NotPlaced(req.slots)))
            && (id.Some? ==>
                  && |r.value.effects| == 2
                  && r.value.effects[0].PutOrder?
                  && r.value.effects[0].order == Order(orderId, UserId(req), id.value, Show(req.slots.ticketCount))
                  && (req.userId.None? ==> r.value.effects[0].order.userId == "0")
                  && r.value.effects[1] ==
                       Publish(Show(req.slots.mobile),
                               ReplyText(Confirmation(req.slots.movieName.value, req.slots.theaterName.value,
                                                          req.slots.movieDate, req.slots.movieTime, req.slots.ticketCount)))
                  && Contains(close.message.content, Show(req.slots.ticketCount))
                  && Contains(close.message.content, req.slots.theaterName.value)
                  && Contains(close.message.content, req.slots.movieName.value)
                  && Contains(close.message.content, orderId))
  {
    PlacedTextMentions(req.slots, orderId);
  }

  /** A fulfilment call with a missing movie or theater fails at the catalog
      query, before any write. */
  lemma FulfilmentNeedsMovieAndTheater(req: Request, cat: Catalog, cal: Calendar, orderId: string)
    requires req.invocationSource != DialogCodeHook
    requires req.slots.movieName.None? || req.slots.theaterName.None?
    ensures BookTicket(req, cat, cal, orderId).Failure?
  {
  }

  /** No deduplication: fulfilling the same request twice, with two fresh
      order ids, writes two distinct orders. */
  lemma RetryWritesSecondOrder(req: Request, cat: Catalog, cal: Calendar, first: string, second: string)
    requires req.invocationSource != DialogCodeHook
    requires req.slots.movieName.Some? && req.slots.theaterName.Some?
    requires cat.catalogId(req.slots.movieName.value, req.slots.theaterName.value).Some?
    requires first != second
    ensures var a := BookTicket(req, cat, cal, first);
            var b := BookTicket(req, cat, cal, second);
            && a.Success? && b.Success?
            && a.value.effects[0].PutOrder? && b.value.effects[0].PutOrder?
            && a.value.effects[0].order.orderId == first
            && b.value.effects[0].order.orderId == second
            && a.value.effects[0].order != b.value.effects[0].order
  {
  }

  /** Theater names are compared lower-cased and shown capitalised; the
      displayed name lower-cases back to the stored one. */
  lemma TheaterListRoundTrip(cat: Catalog, movie: string)
    ensures var names := GetTheaterNames(cat, Some(movie)).value;
            var shown := Capitalized(names);
            && |shown| == |cat.theatersFor(movie)|
            && forall i :: 0 <= i < |shown| ==>
                 Lower(shown[i]) == Lower(cat.theatersFor(movie)[i])
                 && (|shown[i]| > 0 ==> !IsLowerLetter(shown[i][0]))
  {
    var names := GetTheaterNames(cat, Some(movie)).value;
    forall i | 0 <= i < |names|
      ensures Lower(Capitalize(names[i])) == Lower(cat.theatersFor(movie)[i])
    {
      LowerIdempotent(cat.theatersFor(movie)[i]);
    }
  }

  /** The theater list names the movie and shows the theater names as
      `ltostr` joins them, capitalised. */
  lemma TheaterListMentions(movie: string, names: seq<string>)
    ensures Contains(ReplyText(TheaterList(movie, names)), movie)
    ensures Contains(ReplyText(TheaterList(movie, names)), LToStr(Capitalized(names)))
  {
    var head := "Movie ";
    var mid := " is offering consists of the following theater: ";
    var list := LToStr(Capitalized(names));
    assert ReplyText(TheaterList(movie, names)) == head + movie + mid + list + ".";
    ContainsWithin(head, movie, mid);
    ContainsAppend(head + movie + mid, list, movie);
    ContainsAppend(head + movie + mid + list, ".", movie);
    ContainsWithin(head + movie + mid, list, ".");
  }
}
