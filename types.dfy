/**
 * The bot's shared data model, as the nodes, edges and the Discord boundary
 * actually use it. Where the declarations in types/types.ts disagree with that
 * usage (a missing CHAT_HISTORY_QUERY label, a question record built with
 * description/answer/links, the undeclared FinalAction and
 * ToolCallRequestAction), the usage wins.
 */
module Types {

  datatype Option<T> = None | Some(value: T) {
    /** The value, or `default` when there is none (the `x || default` idiom). */
    function GetOr(default: T): T {
      match this
      case Some(v) => v
      case None => default
    }
  }

  /** One chat message: who wrote it and what it says. */
  datatype Message = Message(author: string, content: string)

  // The string labels the classifiers produce and the routers compare against.
  const SUPPORT: string := "SUPPORT"
  const OTHER: string := "OTHER"
  const CHAT_HISTORY_QUERY: string := "CHAT_HISTORY_QUERY"
  const QUESTION: string := "QUESTION"
  const HELP: string := "HELP"

  /** The closed set of labels the top-level classifier may answer with. */
  datatype MessageLabel = Support | Other | ChatHistoryQuery {
    function Label(): (s: string)
      ensures s in {SUPPORT, OTHER, CHAT_HISTORY_QUERY}
    {
      match this
      case Support => SUPPORT
      case Other => OTHER
      case ChatHistoryQuery => CHAT_HISTORY_QUERY
    }
  }

  /** The closed set of labels the support sub-classifier may answer with. */
  datatype SupportLabel = Question | Help {
    function Label(): (s: string)
      ensures s in {QUESTION, HELP}
    {
      match this
      case Question => QUESTION
      case Help => HELP
    }
  }

  /** The answer a support question received. */
  datatype QuestionInfo = QuestionInfo(description: string, answer: string, links: seq<string>)

  datatype HelpInfo = HelpInfo(description: string)

  /**
   * A support ticket. Every field is optional, because a ticket is built up by
   * spreading the previous (possibly absent) ticket and overwriting one field.
   * `kind` is the ticket's `type` field.
   */
  datatype SupportTicket = SupportTicket(
    userId: Option<string>,
    kind: Option<string>,
    help: Option<HelpInfo>,
    question: Option<QuestionInfo>)

  /** A ticket with no field set: what spreading an absent ticket yields. */
  const EmptyTicket: SupportTicket := SupportTicket(None, None, None, None)

  /** The ticket that `{...ticket}` produces, absent tickets spreading to nothing. */
  function Spread(ticket: Option<SupportTicket>): SupportTicket {
    ticket.GetOr(EmptyTicket)
  }

  /** The user-facing outcome of one run. */
  datatype FinalAction =
    | Reply(content: string)
    | ReplyInThread(content: string)
    | CreateEmbed(title: string, description: string, roleToPing: Option<string>)

  datatype ToolCallStatus = Success | Failed | Acknowledged

  /** The internal diagnostic record of the tool-call executor. */
  datatype ToolCallRequestAction = ToolCallRequestAction(actionLog: string, status: ToolCallStatus)
}
