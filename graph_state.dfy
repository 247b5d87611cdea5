/**
 * The graph's state (src/graph.ts:19-26): six fields, each an overwrite channel
 * with no reducer. A node answers with a sparse `Update` naming some of the
 * fields; applying it overwrites exactly those fields and keeps the others.
 */
module GraphState {
  import opened Types

  /** A field that is `None` has never been written. */
  datatype State = State(
    message: Option<Message>,
    previousMessages: Option<seq<Message>>,
    messageChoice: Option<string>,
    supportTicket: Option<SupportTicket>,
    toolCallRequest: Option<ToolCallRequestAction>,
    finalAction: Option<FinalAction>)

  /** A node's result: `None` means the node does not name that field. */
  datatype Update = Update(
    message: Option<Message>,
    previousMessages: Option<seq<Message>>,
    messageChoice: Option<string>,
    supportTicket: Option<SupportTicket>,
    toolCallRequest: Option<ToolCallRequestAction>,
    finalAction: Option<FinalAction>)

  /** The patch `{}`. */
  const NoUpdate: Update := Update(None, None, None, None, None, None)

  /** The channel value after a write of `written` (when there is one). */
  function Overwrite<T>(current: Option<T>, written: Option<T>): Option<T> {
    if written.Some? then written else current
  }

  /** Merges a patch into the state, field by field. */
  function Apply(s: State, u: Update): (r: State)
    ensures u.message.Some? ==> r.message == u.message
    ensures u.message.None? ==> r.message == s.message
    ensures u.previousMessages.Some? ==> r.previousMessages == u.previousMessages
    ensures u.previousMessages.None? ==> r.previousMessages == s.previousMessages
    ensures u.messageChoice.Some? ==> r.messageChoice == u.messageChoice
    ensures u.messageChoice.None? ==> r.messageChoice == s.messageChoice
    ensures u.supportTicket.Some? ==> r.supportTicket == u.supportTicket
    ensures u.supportTicket.None? ==> r.supportTicket == s.supportTicket
    ensures u.toolCallRequest.Some? ==> r.toolCallRequest == u.toolCallRequest
    ensures u.toolCallRequest.None? ==> r.toolCallRequest == s.toolCallRequest
    ensures u.finalAction.Some? ==> r.finalAction == u.finalAction
    ensures u.finalAction.None? ==> r.finalAction == s.finalAction
  {
    State(
      Overwrite(s.message, u.message),
      Overwrite(s.previousMessages, u.previousMessages),
      Overwrite(s.messageChoice, u.messageChoice),
      Overwrite(s.supportTicket, u.supportTicket),
      Overwrite(s.toolCallRequest, u.toolCallRequest),
      Overwrite(s.finalAction, u.finalAction))
  }

  /**
   * Two patches applied one after the other, as one patch; the later write of a
   * field wins.
   */
  function Then(first: Update, second: Update): (r: Update)
    ensures forall s :: Apply(Apply(s, first), second) == Apply(s, r)
  {
    Update(
      Overwrite(first.message, second.message),
      Overwrite(first.previousMessages, second.previousMessages),
      Overwrite(first.messageChoice, second.messageChoice),
      Overwrite(first.supportTicket, second.supportTicket),
      Overwrite(first.toolCallRequest, second.toolCallRequest),
      Overwrite(first.finalAction, second.finalAction))
  }
}
