/**
 * The Discord boundary of src/index.ts: the per-channel bounded history, the
 * input handed to the graph, and the texts the bot answers an `/ask` command
 * with. Discord itself (replies, threads, embeds, login) is reduced to the
 * strings and records the handler would send, and to a parameter saying how
 * thread creation went.
 */
module Bot {
  import opened Types
  import opened Strings
  import opened GraphState
  import opened Graph

  /** Messages kept per channel. */
  const HISTORY_CAPACITY: nat := 20

  /** A channel's history; a channel seen for the first time has none. */
  function HistoryOf(histories: map<string, seq<Message>>, channelId: string): seq<Message> {
    if channelId in histories then histories[channelId] else []
  }

  /** The last `n` elements of `s` (all of them when there are fewer). */
  function LastN(s: seq<Message>, n: nat): (r: seq<Message>)
    ensures |r| == if |s| < n then |s| else n
    ensures forall i :: 0 <= i < |r| ==> r[i] == s[|s| - |r| + i]
  {
    if |s| <= n then s else s[|s| - n..]
  }

  /** `history.push(m)` followed by a `shift()` when the history has grown past capacity. */
  function Pushed(history: seq<Message>, m: Message): (r: seq<Message>)
    ensures |r| > 0 && r[|r| - 1] == m
    ensures |history| < HISTORY_CAPACITY ==> r == history + [m]
    ensures |history| <= HISTORY_CAPACITY ==> |r| <= HISTORY_CAPACITY
    ensures |history| <= HISTORY_CAPACITY ==> r == LastN(history + [m], HISTORY_CAPACITY)
  {
    var pushed := history + [m];
    if |pushed| > HISTORY_CAPACITY then pushed[1..] else pushed
  }

  /** A full history drops exactly its oldest entry and keeps the rest in order. */
  lemma PushedFullDropsOldest(history: seq<Message>, m: Message)
    requires |history| == HISTORY_CAPACITY
    ensures Pushed(history, m) == history[1..] + [m]
  {
  }

  /** The graph input: the current message and a copy of the history before it. */
  function GraphInput(message: Message, previous: seq<Message>): (s: State)
    ensures s.message == Some(message) && s.previousMessages == Some(previous)
    ensures s.messageChoice.None? && s.supportTicket.None?
    ensures s.toolCallRequest.None? && s.finalAction.None?
  {
    State(Some(message), Some(previous), None, None, None, None)
  }

  const PROCESSING_TEXT: string := "Hmm... processing your request! \U{1F400}"
  const NO_ACTION_TEXT: string := "I'm sorry, I couldn't process your request."
  const NO_THREADS_TEXT: string := "Cannot create a thread in this channel"
  const THREAD_CREATED_TEXT: string := "I've created a thread for you: "
  const THREAD_FAILED_TEXT: string := "I tried to create a thread but failed. Here is your response:\n\n"
  const ERROR_TEXT: string := "sorry, I encountered an error while processing your request."
  const THREAD_PREFIX: string := "Action: "
  const THREAD_SUFFIX: string := "..."
  const THREAD_PROMPT_LENGTH: nat := 50
  const EMBED_COLOR: int := 0xffa500
  const EMBED_FOOTER: string := "Support System"

  /** A Discord mention of a user or role id. */
  function Mention(id: string): (r: string)
    ensures StartsWith(r, "<@") && r[|r| - 1] == '>'
    ensures r[2..|r| - 1] == id
  {
    "<@" + id + ">"
  }

  /** The prompt quoted after a speaking-head emoji. */
  function QuotedPrompt(prompt: string): (r: string)
    ensures |r| == |prompt| + 5
    ensures r[4..|r| - 1] == prompt
    ensures r[..4] == "\U{1F5E3}\U{FE0F} \"" && r[|r| - 1] == '"'
  {
    "\U{1F5E3}\U{FE0F} \"" + prompt + "\""
  }

  /** The text of a REPLY action: mention, blank line, quoted prompt, blank line, content. */
  function ReplyText(userId: string, prompt: string, content: string): (r: string)
    ensures StartsWith(r, Mention(userId))
    ensures |r| == |Mention(userId)| + |QuotedPrompt(prompt)| + |content| + 4
    ensures r[|r| - |content|..] == content
    ensures r[|r| - |content| - 2..|r| - |content|] == "\n\n"
    ensures r[|Mention(userId)|..|Mention(userId)| + 2] == "\n\n"
    ensures r[|Mention(userId)| + 2..|r| - |content| - 2] == QuotedPrompt(prompt)
  {
    Mention(userId) + "\n\n" + QuotedPrompt(prompt) + "\n\n" + content
  }

  /** Given the user and the prompt, the reply text determines the content. */
  lemma ReplyTextInjective(userId: string, prompt: string, c1: string, c2: string)
    requires ReplyText(userId, prompt, c1) == ReplyText(userId, prompt, c2)
    ensures c1 == c2
  {
  }

  /** The name of the thread a REPLY_IN_THREAD action opens. */
  function ThreadName(prompt: string): (r: string)
    ensures StartsWith(r, THREAD_PREFIX)
    ensures |THREAD_PREFIX| + |THREAD_SUFFIX| <= |r| <= |THREAD_PREFIX| + THREAD_PROMPT_LENGTH + |THREAD_SUFFIX|
    ensures r[|THREAD_PREFIX|..|r| - |THREAD_SUFFIX|] <= prompt
    ensures |prompt| <= THREAD_PROMPT_LENGTH ==> r[|THREAD_PREFIX|..|r| - |THREAD_SUFFIX|] == prompt
    ensures r[|r| - |THREAD_SUFFIX|..] == THREAD_SUFFIX
    ensures r[|THREAD_PREFIX|..|r| - |THREAD_SUFFIX|] == Take(prompt, THREAD_PROMPT_LENGTH)
  {
    THREAD_PREFIX + Take(prompt, THREAD_PROMPT_LENGTH) + THREAD_SUFFIX
  }

  /** The role mention of an embed: none for an absent or empty (falsy) role id. */
  function RolePing(roleToPing: Option<string>): (r: string)
    ensures r == "" <==> roleToPing.None? || roleToPing.value == ""
    ensures r != "" ==> r == Mention(roleToPing.value)
  {
    if roleToPing.Some? && roleToPing.value != "" then Mention(roleToPing.value) else ""
  }

  /** The reply content sent along with an embed. */
  function EmbedContent(userId: string, roleToPing: Option<string>): (r: string)
    ensures StartsWith(r, Mention(userId) + " ")
    ensures (roleToPing.None? || roleToPing.value == "") ==> r == Mention(userId) + " "
    ensures roleToPing.Some? && roleToPing.value != "" ==> r == Mention(userId) + " " + Mention(roleToPing.value)
  {
    Mention(userId) + " " + RolePing(roleToPing)
  }

  /**
   * How creating a thread went, for channels where it was tried: a thread was
   * created and its first message and the reply edit were sent, or one of those
   * three steps failed.
   */
  datatype ThreadResult = NoThreadSupport | ThreadCreated(url: string) | ThreadFailed

  datatype ThreadPost = ThreadPost(name: string, text: string)

  datatype Embed = Embed(color: int, title: string, description: string, footer: string)

  /**
   * What the user ends up seeing: the final content of the command's reply,
   * a thread opened with its first message, an embed, and an ephemeral
   * follow-up.
   */
  datatype Response = Response(
    reply: string,
    thread: Option<ThreadPost>,
    embed: Option<Embed>,
    followUp: Option<string>)

  /** Renders the graph's outcome; a failing graph is caught and reported as a follow-up. */
  function Render(outcome: Outcome, userId: string, prompt: string, threads: ThreadResult): (r: Response)
    ensures outcome.UnknownNode? ==> r == Response(PROCESSING_TEXT, None, None, Some(ERROR_TEXT))
    ensures outcome.Finished? && outcome.final.finalAction.None? ==>
      r == Response(NO_ACTION_TEXT, None, None, None)
    ensures outcome.Finished? && outcome.final.finalAction.Some? ==> r.followUp.None?
    ensures outcome.Finished? && outcome.final.finalAction.Some? ==>
      r == RenderAction(outcome.final.finalAction.value, userId, prompt, threads)
    ensures r.thread.Some? ==> r.thread.value.name == ThreadName(prompt)
    ensures r.embed.Some? ==> r.embed.value.color == EMBED_COLOR && r.embed.value.footer == EMBED_FOOTER
  {
    match outcome
    case UnknownNode(_, _) => Response(PROCESSING_TEXT, None, None, Some(ERROR_TEXT))
    case Finished(final, _) =>
      match final.finalAction
      case None => Response(NO_ACTION_TEXT, None, None, None)
      case Some(action) => RenderAction(action, userId, prompt, threads)
  }

  /** The texts for each kind of final action. */
  function RenderAction(action: FinalAction, userId: string, prompt: string, threads: ThreadResult): (r: Response)
    ensures r.followUp.None?
    ensures action.Reply? ==> r == Response(ReplyText(userId, prompt, action.content), None, None, None)
    ensures action.ReplyInThread? && threads.ThreadCreated? ==>
      r == Response(THREAD_CREATED_TEXT + threads.url,
                    Some(ThreadPost(ThreadName(prompt), ReplyText(userId, prompt, action.content))), None, None)
    ensures action.ReplyInThread? && threads.ThreadFailed? ==>
      r == Response(ReplyText(userId, prompt, THREAD_FAILED_TEXT + action.content), None, None, None)
    ensures action.ReplyInThread? && threads.NoThreadSupport? ==>
      r == Response(NO_THREADS_TEXT, None, None, None)
    ensures action.CreateEmbed? ==>
      r == Response(EmbedContent(userId, action.roleToPing),
                    None, Some(Embed(EMBED_COLOR, action.title, action.description, EMBED_FOOTER)), None)
    ensures r.embed.Some? ==> action.CreateEmbed?
    ensures r.thread.Some? ==> action.ReplyInThread? && threads.ThreadCreated?
    ensures r.thread.Some? ==> r.thread.value.name == ThreadName(prompt)
  {
    match action
    case Reply(content) => Response(ReplyText(userId, prompt, content), None, None, None)
    case ReplyInThread(content) =>
      (match threads
       case NoThreadSupport => Response(NO_THREADS_TEXT, None, None, None)
       case ThreadCreated(url) =>
         Response(THREAD_CREATED_TEXT + url,
                  Some(ThreadPost(ThreadName(prompt), ReplyText(userId, prompt, content))), None, None)
       case ThreadFailed => Response(ReplyText(userId, prompt, THREAD_FAILED_TEXT + content), None, None, None))
    case CreateEmbed(title, description, roleToPing) =>
      Response(EmbedContent(userId, roleToPing),
               None, Some(Embed(EMBED_COLOR, title, description, EMBED_FOOTER)), None)
  }

  /**
   * With the graph as wired and every model call answering, no reachable
   * handler sets a final action: an `/ask` ends with the fixed no-action text,
   * or, when the message is classified as a chat-history query, with the
   * caught-error follow-up.
   */
  lemma AskOutcome(message: Message, previous: seq<Message>, userId: string,
                   prompt: string, answers: Answers, threads: ThreadResult)
    ensures var r := Render(Run(GraphInput(message, previous), answers), userId, prompt, threads);
      if answers.messageLabel == ChatHistoryQuery then r == Response(PROCESSING_TEXT, None, None, Some(ERROR_TEXT))
      else r == Response(NO_ACTION_TEXT, None, None, None)
  {
  }

  /** The bot's per-channel histories (`channelHistories`). */
  class ChannelHistories {
    var histories: map<string, seq<Message>>

    /** No channel's history exceeds the capacity. */
    ghost predicate Valid()
      reads this
    {
      forall c :: c in histories ==> |histories[c]| <= HISTORY_CAPACITY
    }

    constructor ()
      ensures Valid() && histories == map[]
    {
      histories := map[];
    }

    /**
     * Records `message` in its channel and returns the copy of the history taken
     * before it was added; every other channel is left as it was.
     */
    method Record(channelId: string, message: Message) returns (previous: seq<Message>)
      requires Valid()
      modifies this
      ensures Valid()
      ensures previous == HistoryOf(old(histories), channelId)
      ensures channelId !in old(histories) ==> previous == []
      ensures histories == old(histories)[channelId := Pushed(previous, message)]
      ensures histories.Keys == old(histories.Keys) + {channelId}
      ensures |histories[channelId]| > 0 && histories[channelId][|histories[channelId]| - 1] == message
    {
      if channelId !in histories {
        histories := histories[channelId := []];
      }
      var messageHistory := histories[channelId];
      previous := messageHistory;
      messageHistory := messageHistory + [message];
      if |messageHistory| > HISTORY_CAPACITY {
        messageHistory := messageHistory[1..];
      }
      histories := histories[channelId := messageHistory];
    }

    /**
     * The `InteractionCreate` handler: anything but the `ask` chat command is
     * ignored; otherwise the prompt is recorded, the graph runs on the earlier
     * history, and its outcome is rendered.
     */
    method OnInteraction(isChatInputCommand: bool, commandName: string, channelId: string,
                         userId: string, username: string, prompt: string,
                         answers: Answers, threads: ThreadResult)
      returns (response: Option<Response>)
      requires Valid()
      modifies this
      ensures Valid()
      ensures !isChatInputCommand || commandName != "ask" ==>
        response.None? && histories == old(histories)
      ensures isChatInputCommand && commandName == "ask" ==>
        var previous := HistoryOf(old(histories), channelId);
        var message := Message(username, prompt);
        && histories == old(histories)[channelId := Pushed(previous, message)]
        && response == Some(Render(Run(GraphInput(message, previous), answers), userId, prompt, threads))
    {
      if !isChatInputCommand || commandName != "ask" {
        return None;
      }
      var currentUserMessage := Message(username, prompt);
      var previous := Record(channelId, currentUserMessage);
      var graphInput := GraphInput(currentUserMessage, previous);
      var outcome := Run(graphInput, answers);
      response := Some(Render(outcome, userId, prompt, threads));
    }
  }
}
