/**
 * The two routers of src/edges.ts: pure dispatch from the state to the name of
 * the next node, or to the end marker.
 */
module Edges {
  import opened Types
  import opened GraphState

  /** LangGraph's end marker. */
  const END: string := "__end__"

  const PROCESS_SUPPORT: string := "process-support"
  const PROCESS_OTHER: string := "process-other"
  const PROCESS_CHAT_HISTORY_QUERY: string := "process-chat-history-query"
  const PROCESS_SUPPORT_QUESTION: string := "process-support-question"
  const PROCESS_SUPPORT_HELP: string := "process-support-help"

  /** The routes `processMessageEdges` declares in its return type. */
  const MessageRoutes: set<string> := {PROCESS_SUPPORT, PROCESS_OTHER, PROCESS_CHAT_HISTORY_QUERY, END}

  /** The routes `processSupportEdges` declares in its return type. */
  const SupportRoutes: set<string> := {PROCESS_SUPPORT_QUESTION, PROCESS_SUPPORT_HELP}

  /**
   * Routes on the classifier's label. Total: an absent label, or any label
   * other than the three known ones, ends the run.
   */
  function ProcessMessageEdges(s: State): (r: string)
    ensures r in MessageRoutes
    ensures r == PROCESS_SUPPORT <==> s.messageChoice == Some(SUPPORT)
    ensures r == PROCESS_CHAT_HISTORY_QUERY <==> s.messageChoice == Some(CHAT_HISTORY_QUERY)
    ensures r == PROCESS_OTHER <==> s.messageChoice == Some(OTHER)
    ensures r == END <==> s.messageChoice !in {Some(SUPPORT), Some(CHAT_HISTORY_QUERY), Some(OTHER)}
  {
    match s.messageChoice
    case Some(choice) =>
      if choice == SUPPORT then PROCESS_SUPPORT
      else if choice == CHAT_HISTORY_QUERY then PROCESS_CHAT_HISTORY_QUERY
      else if choice == OTHER then PROCESS_OTHER
      else END
    case None => END
  }

  /**
   * Routes on the support ticket's type: only QUESTION reaches the question
   * handler; HELP, OTHER, an unknown or an unset type all reach the help
   * handler. The ticket itself is dereferenced unguarded, so it must exist.
   */
  function ProcessSupportEdges(s: State): (r: string)
    requires s.supportTicket.Some?
    ensures r in SupportRoutes
    ensures r == PROCESS_SUPPORT_QUESTION <==> s.supportTicket.value.kind == Some(QUESTION)
    ensures r == PROCESS_SUPPORT_HELP <==> s.supportTicket.value.kind != Some(QUESTION)
  {
    if s.supportTicket.value.kind == Some(QUESTION) then PROCESS_SUPPORT_QUESTION
    else PROCESS_SUPPORT_HELP
  }
}
