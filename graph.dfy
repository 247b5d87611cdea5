/**
 * The wiring of `initializeGraph` (src/graph.ts:31-61) as a fixed successor
 * relation over the registered nodes, and a run of the compiled graph from
 * START, under the assumption that every state field is an overwrite channel.
 */
module Graph {
  import opened Types
  import opened GraphState
  import opened Edges
  import opened Nodes

  /** The registered nodes. */
  datatype Node =
    | MessageNode
    | SupportNode
    | OtherNode
    | SupportQuestionNode
    | SupportHelpNode
    | ToolCallNode

  const PROCESS_MESSAGE: string := "process-message"
  const PROCESS_TOOL_CALL: string := "process-tool-call"

  /** The name each node is registered under. */
  function Name(n: Node): string {
    match n
    case MessageNode => PROCESS_MESSAGE
    case SupportNode => PROCESS_SUPPORT
    case OtherNode => PROCESS_OTHER
    case SupportQuestionNode => PROCESS_SUPPORT_QUESTION
    case SupportHelpNode => PROCESS_SUPPORT_HELP
    case ToolCallNode => PROCESS_TOOL_CALL
  }

  /** The node registered under a name, if any. */
  function Lookup(name: string): (r: Option<Node>)
    ensures r.Some? ==> Name(r.value) == name
    ensures forall n :: Name(n) == name ==> r == Some(n)
  {
    if name == PROCESS_MESSAGE then Some(MessageNode)
    else if name == PROCESS_SUPPORT then Some(SupportNode)
    else if name == PROCESS_OTHER then Some(OtherNode)
    else if name == PROCESS_SUPPORT_QUESTION then Some(SupportQuestionNode)
    else if name == PROCESS_SUPPORT_HELP then Some(SupportHelpNode)
    else if name == PROCESS_TOOL_CALL then Some(ToolCallNode)
    else None
  }

  /** The names of all registered nodes. */
  const Registered: set<string> :=
    {PROCESS_MESSAGE, PROCESS_SUPPORT, PROCESS_OTHER, PROCESS_SUPPORT_QUESTION,
     PROCESS_SUPPORT_HELP, PROCESS_TOOL_CALL}

  /** `Registered` is exactly the set of names `Lookup` resolves. */
  lemma RegisteredIsLookup(name: string)
    ensures name in Registered <==> Lookup(name).Some?
  {
  }

  /** The only edge out of START. */
  const StartTarget: string := PROCESS_MESSAGE

  /** The precondition `Target` puts on the state a node leaves behind. */
  predicate SupportPrecondition(n: Node, s: State) {
    n == SupportNode ==> s.supportTicket.Some?
  }

  /** Where control goes once node `n` has run and left state `s`. */
  function Target(n: Node, s: State): (r: string)
    requires SupportPrecondition(n, s)
    ensures n == MessageNode ==> r == ProcessMessageEdges(s)
    ensures n == SupportNode ==> r == ProcessSupportEdges(s)
    ensures n !in {MessageNode, SupportNode} ==> r == END
  {
    match n
    case MessageNode => ProcessMessageEdges(s)
    case SupportNode => ProcessSupportEdges(s)
    case _ => END
  }

  /** Every target a node's edge can name, whatever the state. */
  function Targets(n: Node): set<string> {
    match n
    case MessageNode => MessageRoutes
    case SupportNode => SupportRoutes
    case _ => {END}
  }

  /** The targets a node can name are exactly those of `Targets`. */
  lemma TargetsExact(n: Node, s: State)
    requires SupportPrecondition(n, s)
    ensures Target(n, s) in Targets(n)
    ensures forall t :: t in Targets(n) ==> exists s' :: SupportPrecondition(n, s') && Target(n, s') == t
  {
    var bare := State(None, None, None, None, None, None);
    if n == MessageNode {
      assert Target(n, bare.(messageChoice := Some(SUPPORT))) == PROCESS_SUPPORT;
      assert Target(n, bare.(messageChoice := Some(OTHER))) == PROCESS_OTHER;
      assert Target(n, bare.(messageChoice := Some(CHAT_HISTORY_QUERY))) == PROCESS_CHAT_HISTORY_QUERY;
      assert Target(n, bare) == END;
    } else if n == SupportNode {
      var ticket := EmptyTicket.(kind := Some(QUESTION));
      assert Target(n, bare.(supportTicket := Some(ticket))) == PROCESS_SUPPORT_QUESTION;
      assert Target(n, bare.(supportTicket := Some(EmptyTicket))) == PROCESS_SUPPORT_HELP;
    } else {
      assert Target(n, bare) == END;
    }
  }

  /** What rank a node has in the graph; every edge leads to a lower one. */
  function Rank(n: Node): nat {
    match n
    case MessageNode => 2
    case SupportNode => 1
    case _ => 0
  }

  /** Every registered node an edge leads to has a lower rank. */
  lemma TargetsDescend(n: Node, t: string)
    requires t in Targets(n) && Lookup(t).Some?
    ensures Rank(Lookup(t).value) < Rank(n)
  {
  }

  /** No edge, from START or from any node, leads to the tool-call node. */
  lemma ToolCallUnreachable(n: Node)
    ensures PROCESS_TOOL_CALL != StartTarget
    ensures PROCESS_TOOL_CALL !in Targets(n)
    ensures PROCESS_TOOL_CALL in Registered
    ensures Lookup(PROCESS_TOOL_CALL) == Some(ToolCallNode)
  {
  }

  /** The chat-history route is a target of process-message but no registered node. */
  lemma ChatHistoryRouteUnregistered()
    ensures PROCESS_CHAT_HISTORY_QUERY in Targets(MessageNode)
    ensures PROCESS_CHAT_HISTORY_QUERY !in Registered
    ensures Lookup(PROCESS_CHAT_HISTORY_QUERY).None?
  {
  }

  /**
   * The language-model answers of one run, each from its schema, and the patch
   * of the tool-call executor, whose code is not part of this model.
   */
  datatype Answers = Answers(
    messageLabel: MessageLabel,
    supportLabel: SupportLabel,
    questionReply: Content,
    toolCallPatch: Update)

  /** The patch node `n` returns on state `s`. */
  function Exec(n: Node, s: State, a: Answers): (u: Update)
    requires s.message.Some?
    ensures n != ToolCallNode ==> u.message.None?
    ensures n == SupportNode ==> u.supportTicket.Some?
    ensures n != ToolCallNode ==> u.finalAction.None?
  {
    match n
    case MessageNode => ProcessMessage(s, a.messageLabel)
    case SupportNode => ProcessSupport(s, a.supportLabel)
    case OtherNode => ProcessOther(s)
    case SupportQuestionNode => ProcessSupportQuestion(s, a.questionReply)
    case SupportHelpNode => ProcessSupportHelp(s)
    case ToolCallNode => a.toolCallPatch
  }

  /** How a run ends: at END with a final state, or at a name no node is registered under. */
  datatype Outcome =
    | Finished(final: State, visited: seq<Node>)
    | UnknownNode(name: string, visited: seq<Node>)
  {
    function Visited(): seq<Node> {
      match this
      case Finished(_, v) => v
      case UnknownNode(_, v) => v
    }
  }

  /** Runs node `n` and everything after it. */
  function RunFrom(n: Node, s: State, a: Answers): (o: Outcome)
    requires s.message.Some?
    ensures |o.Visited()| <= Rank(n) + 1
    ensures |o.Visited()| >= 1 && o.Visited()[0] == n
    ensures forall i :: 0 <= i < |o.Visited()| ==> Rank(o.Visited()[i]) <= Rank(n)
    ensures n != ToolCallNode ==> ToolCallNode !in o.Visited()
    decreases Rank(n)
  {
    var s' := Apply(s, Exec(n, s, a));
    var t := Target(n, s');
    TargetsExact(n, s');
    if t == END then Finished(s', [n])
    else match Lookup(t)
      case None => UnknownNode(t, [n])
      case Some(m) =>
        TargetsDescend(n, t);
        var rest := RunFrom(m, s', a);
        match rest
        case Finished(f, v) => Finished(f, [n] + v)
        case UnknownNode(u, v) => UnknownNode(u, [n] + v)
  }

  /** `graph.invoke(input)`: START leads to process-message. */
  function Run(input: State, a: Answers): (o: Outcome)
    requires input.message.Some?
    ensures 1 <= |o.Visited()| <= 3
    ensures o.Visited()[0] == MessageNode
    ensures ToolCallNode !in o.Visited()
  {
    assert Lookup(StartTarget) == Some(MessageNode);
    RunFrom(MessageNode, input, a)
  }

  /**
   * Every run, by the classifier's answers: OTHER and both support paths reach
   * END after two or three nodes; CHAT_HISTORY_QUERY stops at a name that no
   * node is registered under.
   */
  lemma RunCases(input: State, a: Answers)
    requires input.message.Some?
    ensures a.messageLabel == ChatHistoryQuery ==>
      Run(input, a) == UnknownNode(PROCESS_CHAT_HISTORY_QUERY, [MessageNode])
    ensures a.messageLabel == Other ==>
      Run(input, a) == Finished(input.(messageChoice := Some(OTHER)), [MessageNode, OtherNode])
    ensures a.messageLabel == Support && a.supportLabel == Help ==>
      Run(input, a) == Finished(
        input.(messageChoice := Some(SUPPORT),
               supportTicket := Some(Spread(input.supportTicket).(kind := Some(HELP)))),
        [MessageNode, SupportNode, SupportHelpNode])
    ensures a.messageLabel == Support && a.supportLabel == Question ==>
      Run(input, a) == Finished(
        input.(messageChoice := Some(SUPPORT),
               supportTicket := Some(Spread(input.supportTicket).(
                 kind := Some(QUESTION),
                 question := Some(QuestionInfo(input.message.value.content,
                                               NormaliseContent(a.questionReply), []))))),
        [MessageNode, SupportNode, SupportQuestionNode])
  {
  }

  /** No run leaves a final action behind that its input did not already carry. */
  lemma RunNeverSetsFinalAction(input: State, a: Answers)
    requires input.message.Some?
    ensures Run(input, a).Finished? ==> Run(input, a).final.finalAction == input.finalAction
  {
  }
}
