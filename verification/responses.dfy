/** The four dialog-action shapes returned to the dialog runtime. */
module Responses {
  import opened Wrappers
  import opened Domain

  /** The session-attribute bag, echoed back to the runtime. */
  type Attributes = map<string, string>

  datatype DialogAction =
    | ElicitSlot(intentName: string, slots: Slots, slotToElicit: SlotName, message: Message)
    | ConfirmIntent(intentName: string, slots: Slots, message: Message)
    | Close(fulfillmentState: string, message: Message)
    | Delegate(slots: Slots)

  /** A response: the session attributes as given (possibly null) and the action. */
  datatype Response = Response(sessionAttributes: Option<Attributes>, dialogAction: DialogAction)

  /** The `type` field of the `dialogAction` object. */
  function ActionType(action: DialogAction): string {
    match action
    case ElicitSlot(_, _, _, _) => "ElicitSlot"
    case ConfirmIntent(_, _, _) => "ConfirmIntent"
    case Close(_, _) => "Close"
    case Delegate(_) => "Delegate"
  }

  /** `elicit_slot`. */
  function BuildElicitSlot(session: Option<Attributes>, intentName: string, slots: Slots,
                           slotToElicit: SlotName, message: Message): Response {
    Response(session, ElicitSlot(intentName, slots, slotToElicit, message))
  }

  /** `confirm_intent`. */
  function BuildConfirmIntent(session: Option<Attributes>, intentName: string, slots: Slots,
                              message: Message): Response {
    Response(session, ConfirmIntent(intentName, slots, message))
  }

  /** `close`. */
  function BuildClose(session: Option<Attributes>, fulfillmentState: string, message: Message): Response {
    Response(session, Close(fulfillmentState, message))
  }

  /** `delegate`. */
  function BuildDelegate(session: Option<Attributes>, slots: Slots): Response {
    Response(session, Delegate(slots))
  }

  /** Every builder echoes the session attributes it is given, tags the action
      with its own type, and carries each of its other arguments into the
      field of the same name. */
  lemma BuildersShape(session: Option<Attributes>, intentName: string, slots: Slots,
                      slot: SlotName, state: string, message: Message)
    ensures var r := BuildElicitSlot(session, intentName, slots, slot, message);
            r.sessionAttributes == session && ActionType(r.dialogAction) == "ElicitSlot"
            && r.dialogAction.intentName == intentName && r.dialogAction.slots == slots
            && r.dialogAction.slotToElicit == slot && r.dialogAction.message == message
    ensures var r := BuildConfirmIntent(session, intentName, slots, message);
            r.sessionAttributes == session && ActionType(r.dialogAction) == "ConfirmIntent"
            && r.dialogAction.intentName == intentName && r.dialogAction.slots == slots
            && r.dialogAction.message == message
    ensures var r := BuildClose(session, state, message);
            r.sessionAttributes == session && ActionType(r.dialogAction) == "Close"
            && r.dialogAction.fulfillmentState == state && r.dialogAction.message == message
    ensures var r := BuildDelegate(session, slots);
            r.sessionAttributes == session && ActionType(r.dialogAction) == "Delegate"
            && r.dialogAction.slots == slots
  {
  }
}
