/** `dispatch`: the single entry point, routing an intent name to its handler. */
module Dispatcher {
  import opened Wrappers
  import opened Domain
  import opened Responses
  import opened Text
  import opened Handlers

  /** The three intent names this code serves. */
  function SupportedIntents(): set<string> {
    {"BookTickets", "GetMovieTheater", "Help"}
  }

  /** `dispatch(intent_request)`: any other intent name raises. */
  function Dispatch(req: Request, cat: Catalog, cal: Calendar, orderId: string): (r: Result<Outcome, Error>)
    ensures req.intentName !in SupportedIntents() <==> r == Failure(UnsupportedIntent(req.intentName))
    ensures r.Failure? && r.error.UnsupportedIntent? ==>
              ErrorText(r.error) == "Intent with name " + req.intentName + " not supported"
  {
    if req.intentName == "BookTickets" then BookTicket(req, cat, cal, orderId)
    else if req.intentName == "GetMovieTheater" then MovieTheater(req, cat)
    else if req.intentName == "Help" then Success(Help(req))
    else Failure(UnsupportedIntent(req.intentName))
  }

  /** The routing table: each supported name reaches its own handler. */
  lemma DispatchRoutes(req: Request, cat: Catalog, cal: Calendar, orderId: string)
    ensures req.intentName == "BookTickets" ==> Dispatch(req, cat, cal, orderId) == BookTicket(req, cat, cal, orderId)
    ensures req.intentName == "GetMovieTheater" ==> Dispatch(req, cat, cal, orderId) == MovieTheater(req, cat)
    ensures req.intentName == "Help" ==> Dispatch(req, cat, cal, orderId) == Success(Help(req))
  {
  }

  /** Across every intent and phase: a Close always reports "Fulfilled", and
      the only writes are one order put followed by one publish, made by a
      booking fulfilment call with that call's order id. A validation call
      never writes. */
  lemma DispatchEffects(req: Request, cat: Catalog, cal: Calendar, orderId: string)
    ensures var r := Dispatch(req, cat, cal, orderId);
            r.Success? ==>
              && (r.value.response.dialogAction.Close? ==> r.value.response.dialogAction.fulfillmentState == "Fulfilled")
              && (r.value.effects == []
                  || (&& req.intentName == "BookTickets"
                      && req.invocationSource != "DialogCodeHook"
                      && |r.value.effects| == 2
                      && r.value.effects[0].PutOrder?
                      && r.value.effects[0].order.orderId == orderId
                      && r.value.effects[1].Publish?))
  {
    var r := Dispatch(req, cat, cal, orderId);
    if req.intentName == "BookTickets" && req.invocationSource != DialogCodeHook
       && req.slots.movieName.Some? && req.slots.theaterName.Some? {
      FulfilmentSequence(req, cat, cal, orderId);
    } else if req.intentName == "BookTickets" && req.invocationSource == DialogCodeHook && r.Success? {
      BookingDialogPhase(req, cat, cal, orderId);
    }
  }

  /** The end-to-end booking example: the catalog knows (Clarice, Regal) as
      42, so exactly one order with catalog id 42 and count "2" is written,
      one message goes to the mobile number, and the Close names the count,
      the theater, the movie and the order id. */
  lemma BookingExample(cat: Catalog, cal: Calendar, orderId: string, session: Option<Attributes>)
    requires cat.catalogId("Clarice", "Regal") == Some(42)
    ensures var slots := Slots(Some("Clarice"), Some("Regal"), Some("2030-01-01"), Some("2"),
                               Some("+14155551234"), Some("19:00"));
            var req := Request("BookTickets", "FulfillmentCodeHook", slots, session, Some("u-1"));
            var r := Dispatch(req, cat, cal, orderId);
            && r.Success?
            && |r.value.effects| == 2
            && r.value.effects[0] == PutOrder(Order(orderId, "u-1", 42, "2"))
            && r.value.effects[1].Publish? && r.value.effects[1].phoneNumber == "+14155551234"
            && Contains(r.value.response.dialogAction.message.content, "2")
            && Contains(r.value.response.dialogAction.message.content, "Regal")
            && Contains(r.value.response.dialogAction.message.content, "Clarice")
            && Contains(r.value.response.dialogAction.message.content, orderId)
  {
    var slots := Slots(Some("Clarice"), Some("Regal"), Some("2030-01-01"), Some("2"),
                       Some("+14155551234"), Some("19:00"));
    var req := Request("BookTickets", "FulfillmentCodeHook", slots, session, Some("u-1"));
    assert req.invocationSource != DialogCodeHook by {
      assert req.invocationSource[0] != DialogCodeHook[0];
    }
    assert Dispatch(req, cat, cal, orderId) == FulfilBooking(req, cat, orderId);
    PlacedTextMentions(slots, orderId);
  }
}
