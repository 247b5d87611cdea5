/**
 * The node bodies of src/nodes.ts with every language-model call replaced by
 * its answer, passed in as a parameter drawn from the answer's schema. Each node
 * is a function from (state, answer) to the patch it returns.
 */
module Nodes {
  import opened Types
  import opened GraphState
  import opened Strings

  /** Records the top-level classifier's answer as `messageChoice`, and nothing else. */
  function ProcessMessage(s: State, answer: MessageLabel): (u: Update)
    requires s.message.Some?
    ensures u == NoUpdate.(messageChoice := u.messageChoice)
    ensures u.messageChoice.Some? && u.messageChoice.value in {SUPPORT, OTHER, CHAT_HISTORY_QUERY}
    ensures u.messageChoice == Some(answer.Label())
  {
    NoUpdate.(messageChoice := Some(answer.Label()))
  }

  /**
   * Records the support sub-classifier's answer as the ticket's type, keeping
   * every other field of the existing ticket (or starting from an empty one).
   */
  function ProcessSupport(s: State, answer: SupportLabel): (u: Update)
    requires s.message.Some?
    ensures u == NoUpdate.(supportTicket := u.supportTicket)
    ensures u.supportTicket.Some?
    ensures u.supportTicket.value.kind.Some? && u.supportTicket.value.kind.value in {QUESTION, HELP}
    ensures u.supportTicket.value.kind == Some(answer.Label())
    ensures u.supportTicket.value.userId == Spread(s.supportTicket).userId
    ensures u.supportTicket.value.help == Spread(s.supportTicket).help
    ensures u.supportTicket.value.question == Spread(s.supportTicket).question
  {
    NoUpdate.(supportTicket := Some(Spread(s.supportTicket).(kind := Some(answer.Label()))))
  }

  /** The off-topic handler does nothing yet. */
  function ProcessOther(s: State): (u: Update)
    ensures Apply(s, u) == s
  {
    NoUpdate
  }

  /** The support-help handler does nothing yet. */
  function ProcessSupportHelp(s: State): (u: Update)
    ensures Apply(s, u) == s
  {
    NoUpdate
  }

  /** One element of an array-shaped model reply. */
  datatype ContentPart = TextPart(text: string) | ObjectPart

  /** The shapes a model reply's `content` can take at run time. */
  datatype Content =
    | TextContent(text: string)
    | ArrayContent(parts: seq<ContentPart>)
    | OtherContent

  const NO_VALID_RESPONSE: string := "No valid response generated by the LLM."

  /** A part's text: a string part is itself, any other part is empty. */
  function PartText(p: ContentPart): string {
    if p.TextPart? then p.text else ""
  }

  function PartTexts(parts: seq<ContentPart>): (r: seq<string>)
    ensures |r| == |parts|
    ensures forall i :: 0 <= i < |parts| ==> r[i] == PartText(parts[i])
    decreases |parts|
  {
    if |parts| == 0 then [] else [PartText(parts[0])] + PartTexts(parts[1..])
  }

  /** Turns a model reply's content into one string. */
  function NormaliseContent(c: Content): (r: string)
    ensures c.TextContent? ==> r == c.text
    ensures c.OtherContent? ==> r == NO_VALID_RESPONSE
    ensures c.ArrayContent? && |c.parts| == 0 ==> r == ""
    ensures c.ArrayContent? && |c.parts| == 1 ==> r == PartText(c.parts[0])
  {
    match c
    case ArrayContent(parts) => Join(PartTexts(parts), " ")
    case TextContent(text) => text
    case OtherContent => NO_VALID_RESPONSE
  }

  /**
   * Array content is the part texts separated by single spaces: when no string
   * part holds a space, splitting the result at spaces gives the part texts back.
   */
  lemma ArrayContentSplits(parts: seq<ContentPart>)
    requires |parts| > 0
    requires forall i :: 0 <= i < |parts| ==> ' ' !in PartText(parts[i])
    ensures SplitOn(NormaliseContent(ArrayContent(parts)), ' ') == PartTexts(parts)
  {
    SplitJoin(PartTexts(parts), ' ');
  }

  /** One more part adds a space and that part's text at the end. */
  lemma NormaliseSnoc(parts: seq<ContentPart>, p: ContentPart)
    requires |parts| > 0
    ensures NormaliseContent(ArrayContent(parts + [p]))
      == NormaliseContent(ArrayContent(parts)) + " " + PartText(p)
  {
    assert PartTexts(parts + [p]) == PartTexts(parts) + [PartText(p)];
    JoinSnoc(PartTexts(parts), PartText(p), " ");
  }

  /**
   * Non-string parts count as empty strings that still take part in the join,
   * so n of them give n - 1 spaces rather than the empty string.
   */
  lemma {:induction false} ObjectPartsGiveSpaces(parts: seq<ContentPart>)
    requires |parts| > 0
    requires forall i :: 0 <= i < |parts| ==> parts[i] == ObjectPart
    ensures NormaliseContent(ArrayContent(parts)) == seq(|parts| - 1, _ => ' ')
    decreases |parts|
  {
    if |parts| > 1 {
      ObjectPartsGiveSpaces(parts[1..]);
      assert PartTexts(parts) == [""] + PartTexts(parts[1..]);
    }
  }

  /**
   * Stores the answer to a support question on the ticket, keeping the other
   * ticket fields: the question is the message text, the answer the normalised
   * model reply, and there are no links.
   */
  function ProcessSupportQuestion(s: State, reply: Content): (u: Update)
    requires s.message.Some?
    ensures u == NoUpdate.(supportTicket := u.supportTicket)
    ensures u.supportTicket.Some?
    ensures u.supportTicket.value == Spread(s.supportTicket).(question := u.supportTicket.value.question)
    ensures u.supportTicket.value.question
      == Some(QuestionInfo(s.message.value.content, NormaliseContent(reply), []))
  {
    var question := QuestionInfo(s.message.value.content, NormaliseContent(reply), []);
    NoUpdate.(supportTicket := Some(Spread(s.supportTicket).(question := Some(question))))
  }

  /** The structured answer of the chat-history model call. */
  datatype HistoryAnswer = HistoryAnswer(isRelevantTopic: bool, topicName: string, response: string)

  /** What `processChatHistoryQuery` returns under the key `chatHistoryResponse`. */
  datatype ChatHistoryResponse = ChatHistoryResponse(
    isRelevantTopic: bool,
    topicName: string,
    response: string,
    relevantMessages: seq<Message>)

  const REFUSAL: string :=
    "I'm sorry, I'm only able to help with AI and LLMs in general with main focus on CopilotKit."

  /** One transcript line. */
  function FormatMessage(m: Message): string {
    m.author + ": " + m.content
  }

  function FormatMessages(messages: seq<Message>): (r: seq<string>)
    ensures |r| == |messages|
    ensures forall i :: 0 <= i < |messages| ==> r[i] == FormatMessage(messages[i])
    decreases |messages|
  {
    if |messages| == 0 then [] else [FormatMessage(messages[0])] + FormatMessages(messages[1..])
  }

  /** The chat history as shown to the model: one line per message, oldest first. */
  function Transcript(messages: seq<Message>): (r: string)
    ensures |messages| == 0 ==> r == ""
    ensures |messages| == 1 ==> r == FormatMessage(messages[0])
  {
    Join(FormatMessages(messages), "\n")
  }

  /** The transcript of the stored history; an absent history is shown as an empty one. */
  function HistoryTranscript(s: State): (r: string)
    ensures s.previousMessages.None? ==> r == ""
    ensures s.previousMessages.Some? ==> r == Transcript(s.previousMessages.value)
  {
    Transcript(s.previousMessages.GetOr([]))
  }

  /** A later message becomes one more line at the end of the transcript. */
  lemma TranscriptSnoc(messages: seq<Message>, m: Message)
    requires |messages| > 0
    ensures Transcript(messages + [m]) == Transcript(messages) + "\n" + FormatMessage(m)
  {
    assert FormatMessages(messages + [m]) == FormatMessages(messages) + [FormatMessage(m)];
    JoinSnoc(FormatMessages(messages), FormatMessage(m), "\n");
  }

  /** When no message holds a line break, the transcript's lines are the messages. */
  lemma TranscriptLines(messages: seq<Message>)
    requires |messages| > 0
    requires forall i :: 0 <= i < |messages| ==> '\n' !in FormatMessage(messages[i])
    ensures SplitOn(Transcript(messages), '\n') == FormatMessages(messages)
  {
    SplitJoin(FormatMessages(messages), '\n');
  }

  /** Whether a message mentions the topic, ignoring ASCII case. */
  predicate MentionsTopic(m: Message, topicName: string) {
    Contains(Lower(m.content), Lower(topicName))
  }

  /** The messages that mention the topic, in their original order. */
  function RelevantMessages(messages: seq<Message>, topicName: string): (r: seq<Message>)
    ensures |r| <= |messages|
    ensures forall m :: m in r <==> m in messages && MentionsTopic(m, topicName)
    decreases |messages|
  {
    if |messages| == 0 then []
    else
      var rest := RelevantMessages(messages[1..], topicName);
      if MentionsTopic(messages[0], topicName) then [messages[0]] + rest else rest
  }

  /** `xs` is `ys` with some elements left out, the rest in their order. */
  ghost predicate IsSubsequence<T>(xs: seq<T>, ys: seq<T>)
    decreases |ys|
  {
    if |xs| == 0 then true
    else if |ys| == 0 then false
    else if xs[0] == ys[0] then IsSubsequence(xs[1..], ys[1..])
    else IsSubsequence(xs, ys[1..])
  }

  lemma {:induction false} RelevantMessagesIsSubsequence(messages: seq<Message>, topicName: string)
    ensures IsSubsequence(RelevantMessages(messages, topicName), messages)
    decreases |messages|
  {
    if |messages| > 0 {
      RelevantMessagesIsSubsequence(messages[1..], topicName);
    }
  }

  /** Filtering distributes over concatenation: the selection is made message by message. */
  lemma {:induction false} RelevantMessagesAppend(xs: seq<Message>, ys: seq<Message>, topicName: string)
    ensures RelevantMessages(xs + ys, topicName)
      == RelevantMessages(xs, topicName) + RelevantMessages(ys, topicName)
    decreases |xs|
  {
    if |xs| > 0 {
      assert (xs + ys)[1..] == xs[1..] + ys;
      RelevantMessagesAppend(xs[1..], ys, topicName);
    } else {
      assert xs + ys == ys;
    }
  }

  /** An empty topic is contained in every message, so it keeps them all. */
  lemma {:induction false} EmptyTopicKeepsAll(messages: seq<Message>)
    ensures RelevantMessages(messages, "") == messages
    decreases |messages|
  {
    if |messages| > 0 {
      ContainsEmpty(Lower(messages[0].content));
      EmptyTopicKeepsAll(messages[1..]);
    }
  }

  /**
   * The deterministic tail of the chat-history handler: the model's response is
   * passed on when the topic is relevant and replaced by the refusal otherwise,
   * and the relevant messages are those of the history mentioning the topic.
   */
  function ProcessChatHistoryQuery(s: State, answer: HistoryAnswer): (r: ChatHistoryResponse)
    requires s.message.Some?
    ensures r.isRelevantTopic == answer.isRelevantTopic && r.topicName == answer.topicName
    ensures r.response == if answer.isRelevantTopic then answer.response else REFUSAL
    ensures IsSubsequence(r.relevantMessages, s.previousMessages.GetOr([]))
    ensures forall m :: (m in r.relevantMessages
                         <==> m in s.previousMessages.GetOr([]) && MentionsTopic(m, answer.topicName))
    ensures answer.topicName == "" ==> r.relevantMessages == s.previousMessages.GetOr([])
    ensures r.relevantMessages == RelevantMessages(s.previousMessages.GetOr([]), answer.topicName)
  {
    var previous := s.previousMessages.GetOr([]);
    RelevantMessagesIsSubsequence(previous, answer.topicName);
    EmptyTopicKeepsAll(previous);
    ChatHistoryResponse(
      answer.isRelevantTopic,
      answer.topicName,
      if answer.isRelevantTopic then answer.response else REFUSAL,
      RelevantMessages(previous, answer.topicName))
  }
}
