# Discord support bot: routing graph, nodes and channel history

This project models the deterministic core of a Discord bot that answers the
`/ask` slash command. Each prompt is recorded in a bounded per-channel
history. It then runs through a small LangGraph state graph. A classifier node
labels the message SUPPORT, OTHER or CHAT_HISTORY_QUERY. A router picks the next
node from that label. On the support path a second classifier labels the ticket
QUESTION or HELP, and a second router picks the question handler or the help
handler. The handler's effect on the state is what the boundary turns into the
Discord reply.

The modules follow the source files:

- `Types` (types.dfy): messages, labels, support tickets and final actions. These
  follow how the code uses them, not the declarations in `types/types.ts`.
  `CHAT_HISTORY_QUERY` is taken to be exported with the value
  `"CHAT_HISTORY_QUERY"`. The question record has `description`, `answer` and
  `links`. `FinalAction` is defined the way `src/index.ts` reads it.
  `ToolCallRequestAction` is only named (src/graph.ts:4 and :24), and no code
  reads its fields, so its `actionLog` and `status` fields are an assumption. No
  part of the model inspects them.
- `Strings` (strings.dfy): `join`, `includes`, ASCII `toLowerCase` and
  `substring(0, n)`. It also has a splitter, so that joining can be proved
  reversible.
- `GraphState` (graph_state.dfy): the six-field state and sparse patches
  (`Update`), merged by `Apply`. Each field is overwritten when the patch names
  it and kept otherwise. LangGraph's code is not part of this model: treating
  every field as an overwrite channel is an assumption.
- `Edges` (edges.dfy): the two routers.
- `Nodes` (nodes.dfy): the node bodies as functions of the state and the
  language model's answer. Each answer is a parameter drawn from the closed enum
  or record of its schema.
- `Graph` (graph.dfy): the registered nodes, the fixed edges, and `Run`, an
  interpreter for `graph.invoke`. The lemmas prove the following:
  - every run visits at most three nodes;
  - `process-tool-call` is registered, but no edge leads to it;
  - the route `process-chat-history-query` names no registered node, so a
    message classified CHAT_HISTORY_QUERY makes the run fail;
  - no reachable node sets `finalAction`.
- `Bot` (bot.dfy): the `channelHistories` map as a class. `Record` is the
  push-then-shift update. `OnInteraction` is the `InteractionCreate` handler.
  It is stated against the pure text builders for each final action. From
  these, `AskOutcome` proves what every `/ask` ends with as the graph is wired,
  when every model call answers:
  the fixed "couldn't process" text, or the caught-error follow-up for a
  chat-history query.

Three behaviours of the code deserve a note:

- The support router sends every type other than QUESTION (HELP, OTHER,
  unknown, unset) to the help handler (src/edges.ts:33-35).
- Array content whose parts are not strings normalises to one space between
  neighbouring empty parts, not to the empty string (src/nodes.ts:207-213).
  `Nodes.ObjectPartsGiveSpaces` states this.
- No handler on a reachable path returns `finalAction` (src/nodes.ts:171, 179,
  220-229), so every `/ask` that finishes the graph ends with the
  "couldn't process" text.

## Model

| member | source | states |
|---|---|---|
| `Edges.ProcessMessageEdges` | src/edges.ts:10-28 | The result is one of the four declared routes. SUPPORT, CHAT_HISTORY_QUERY and OTHER each route to their own handler, in both directions. An absent or any other label routes to `__end__`, and the function is total. |
| `Edges.ProcessSupportEdges` | src/edges.ts:30-36 | The ticket must exist (it is dereferenced without a guard). The result is `process-support-question` exactly when the type is QUESTION, and `process-support-help` for every other or unset type. |
| `GraphState.Apply` | src/graph.ts:19-26 | A patch overwrites exactly the fields it names. Every other field of the state is kept. |
| `GraphState.Then` | src/graph.ts:19-26 | Applying two patches in turn equals applying one merged patch, in which the later write of each field wins. |
| `Graph.Lookup` | src/graph.ts:35-41 | The registry of node names: a name resolves to the node registered under it, and only to that node. |
| `Graph.Target` | src/graph.ts:46-52 | The successors of process-message and process-support are exactly the values of their routers. Every other node goes to END. |
| `Graph.TargetsExact` | src/graph.ts:44-52 | Every target lies in the node's static target set, and every element of that set is reached by some state. |
| `Graph.TargetsDescend` | src/graph.ts:44-52 | Every edge to a registered node leads to a node of strictly lower rank, so the graph is acyclic. |
| `Graph.RegisteredIsLookup` | src/graph.ts:35-41 | The set of registered names is exactly the set of names `Lookup` resolves. |
| `Graph.ToolCallUnreachable` | src/graph.ts:41-52 | `process-tool-call` is registered (`Lookup` resolves it to the tool-call node), but it is neither START's target nor any node's target. |
| `Graph.ChatHistoryRouteUnregistered` | src/graph.ts:35-41 | `process-chat-history-query` is a possible target of process-message, but no node is registered under that name. |
| `Graph.Exec` | src/graph.ts:35-41 | No node of the model sets `message`. Only the tool-call node may set `finalAction`. Process-support always produces a ticket, so the support router's precondition holds after it. |
| `Graph.RunFrom` | src/graph.ts:44-52 | A run from a node starts with that node. It visits at most rank + 1 nodes, all of no higher rank, and it never reaches the tool-call node from any other node. |
| `Graph.Run` | src/graph.ts:44 | A run from START begins at process-message, visits between one and three nodes, and never visits process-tool-call. |
| `Graph.RunCases` | src/graph.ts:35-52 | The exact outcome for each classifier answer. OTHER gives [message, other]. SUPPORT plus HELP gives [message, support, help], and SUPPORT plus QUESTION gives [message, support, question], each with the resulting state. CHAT_HISTORY_QUERY fails at the unregistered route. |
| `Graph.RunNeverSetsFinalAction` | src/graph.ts:35-52 | A run that finishes leaves `finalAction` as its input had it. |
| `Nodes.ProcessMessage` | src/nodes.ts:14-54 | Needs the message (its content is sent to the model). The patch names only `messageChoice`, set to the answer's label from {SUPPORT, OTHER, CHAT_HISTORY_QUERY}. |
| `Nodes.ProcessSupport` | src/nodes.ts:125-164 | Needs the message, like the classifier. The patch names only `supportTicket`. It keeps the existing ticket's userId, help and question, and sets `type` to the answer's label from {QUESTION, HELP}. |
| `Nodes.ProcessOther` | src/nodes.ts:166-172 | The empty patch: the state is unchanged. |
| `Nodes.ProcessSupportHelp` | src/nodes.ts:174-180 | The empty patch: the state is unchanged. |
| `Nodes.NormaliseContent` | src/nodes.ts:204-218 | String content is returned unchanged. Other (non-array) content gives the fixed "No valid response" text. An empty array gives "" and a one-part array gives that part's text; longer arrays are described by `Nodes.NormaliseSnoc`. |
| `Nodes.NormaliseSnoc` | src/nodes.ts:206-213 | Array content is the part texts joined by single spaces: one more part appends a space and that part's text (an object part adds an empty text). Together with the one-part case this fixes the result for every array. |
| `Nodes.ArrayContentSplits` | src/nodes.ts:205-213 | When no part text holds a space, splitting the normalised array content at spaces gives back exactly the part texts, in order. |
| `Nodes.ObjectPartsGiveSpaces` | src/nodes.ts:207-213 | Non-string parts become empty strings that still take part in the join: n such parts give n - 1 spaces. |
| `Nodes.ProcessSupportQuestion` | src/nodes.ts:220-229 | The patch names only `supportTicket` and keeps every other ticket field. It sets `question` to {description = the message text, answer = the normalised reply, links = []}. |
| `Nodes.HistoryTranscript` | src/nodes.ts:67-71 | A present history is shown as its transcript, and an absent one as the empty transcript. |
| `Nodes.Transcript` | src/nodes.ts:69-71 | No messages give "" and one message gives "author: content". |
| `Nodes.TranscriptSnoc` | src/nodes.ts:69-71 | Each later message adds one newline-separated "author: content" line at the end. |
| `Nodes.TranscriptLines` | src/nodes.ts:69-71 | When no line holds a newline, splitting the transcript at newlines gives back one formatted line per message, in order. |
| `Nodes.RelevantMessages` | src/nodes.ts:118-120 | A message is kept exactly when it is in the history and its lower-cased content contains the lower-cased topic. The result is no longer than the history. |
| `Nodes.RelevantMessagesIsSubsequence` | src/nodes.ts:118-120 | The kept messages form an order-preserving subsequence of the history. |
| `Nodes.RelevantMessagesAppend` | src/nodes.ts:118-120 | Filtering a concatenation is the concatenation of the filtered parts, so each message is judged on its own. |
| `Nodes.EmptyTopicKeepsAll` | src/nodes.ts:118-120 | An empty topic keeps every message. |
| `Nodes.ProcessChatHistoryQuery` | src/nodes.ts:56-123 | The relevance flag and topic are passed on. The response is the model's when the topic is relevant, and the fixed refusal otherwise. The relevant messages are an order-preserving subsequence of the history (an absent history counts as empty), holding exactly the messages that mention the topic, with repeated messages kept as often as they occur: they are `RelevantMessages` of the history. An empty topic keeps them all. |
| `Strings.Join` | src/nodes.ts:69-71 | `join` of no parts is "" and of one part is that part. The length is the parts' total length plus one separator between each pair of neighbours. |
| `Strings.JoinSnoc` | src/nodes.ts:206-213 | Appending a part to a non-empty list extends the joined text by one separator and that part. |
| `Strings.SplitJoin` | src/nodes.ts:69-71 | Joining with a one-character separator is undone by splitting, provided no part contains that character. |
| `Strings.Contains` | src/nodes.ts:119 | `includes` holds exactly when the needle occurs at some position of the text. |
| `Strings.ContainsEmpty` | src/nodes.ts:119 | Every text contains the empty text. |
| `Strings.Lower` | src/nodes.ts:119 | Lower-casing keeps the length. It lowers each character on its own and leaves no upper-case ASCII letter. |
| `Strings.Take` | src/index.ts:114 | `substring(0, n)` is a prefix of length min(n, length). |
| `Bot.HistoryOf` | src/index.ts:60-62 | A channel seen for the first time gets an empty history. |
| `Bot.Pushed` | src/index.ts:74-75 | The current message becomes the last entry. For a history within capacity, the result is the last min(20, n + 1) entries of history + [message], so it never holds more than 20. |
| `Bot.PushedFullDropsOldest` | src/index.ts:74-75 | When the history is full, exactly the oldest entry is dropped and the rest keep their order. |
| `Bot.GraphInput` | src/index.ts:69-72 | The graph receives the current message and the earlier history, and nothing else is set. |
| `Bot.ChannelHistories.Record` | src/index.ts:60-75 | Returns the history as it was before the current message, which is empty for a new channel. It replaces that channel's history with the pushed one and leaves every other channel unchanged. |
| `Bot.ChannelHistories.OnInteraction` | src/index.ts:52-159 | Anything but the `ask` chat command is ignored and changes nothing. Otherwise the prompt is recorded, the graph runs on the earlier history, and the outcome is rendered. |
| `Bot.Mention` | src/index.ts:92 | A mention is `<@`, the id, then `>`. |
| `Bot.QuotedPrompt` | src/index.ts:95 | The text is the speaking-head emoji, a space and a double quote, then the prompt, then a closing double quote. |
| `Bot.ReplyText` | src/index.ts:98-101 | The REPLY text is the user mention, a blank line, the quoted prompt, a blank line and the content, each in its place; its length is mention + quoted prompt + content + 4. |
| `Bot.ReplyTextInjective` | src/index.ts:98-101 | Given the user and the prompt, the reply text determines the content. |
| `Bot.ThreadName` | src/index.ts:114 | The thread name is "Action: ", then exactly the first 50 characters of the prompt (`Take`), then "...". A prompt of 50 characters or fewer appears whole. |
| `Bot.RolePing` | src/index.ts:140 | The role mention is empty exactly when the role id is absent or empty (falsy), and is `<@role>` otherwise. |
| `Bot.EmbedContent` | src/index.ts:140-143 | The embed's reply text is the user mention and a space, followed by `<@role>` for a non-empty role id and by nothing otherwise. |
| `Bot.RenderAction` | src/index.ts:92-147 | Each case gives the whole response, so only the thread branch posts into a thread and only the embed branch sends an embed. REPLY gives the reply text. REPLY_IN_THREAD gives one of three results: a thread with the computed name, posting the reply text, plus the "created a thread" link reply; the "tried but failed" reply when creating the thread, sending into it or editing the reply fails; or the "cannot create a thread" text when the channel has no threads. CREATE_EMBED gives the mention text and an orange "Support System" embed with the action's title and description. |
| `Bot.Render` | src/index.ts:82-158 | A present final action is rendered exactly as `RenderAction` renders it. A missing final action gives the fixed "couldn't process" text. A failed run leaves the processing reply and adds the error follow-up. Any thread is named by `ThreadName` and any embed is orange with the "Support System" footer. |
| `Bot.AskOutcome` | src/index.ts:77-158 | With the graph as wired and every model call answering, an `/ask` classified CHAT_HISTORY_QUERY ends with the error follow-up. Every other `/ask` ends with the "couldn't process" text. |

## Left out

- Every language-model call (`ChatOpenAI`, `withStructuredOutput`, `invoke`) and its prompt text: each answer is a parameter ranging over its schema (`MessageLabel`, `SupportLabel`, `Content`, `HistoryAnswer`). A failing model call is not modelled: an API error or a structured-output parse failure (src/nodes.ts:31, 87, 142, 193) makes `graph.invoke` reject (src/index.ts:82), and the handler then sends the error follow-up (src/index.ts:149-157).
- `processToolCall`: src/graph.ts imports it, but it is not defined in src/nodes.ts and its code is not part of this model. Its patch is an input (`Answers.toolCallPatch`), and no run reaches it.
- The LangGraph runtime (`Annotation`, `StateGraph`, `compile`, `invoke`): `Graph.Run` is an interpreter under the assumption of overwrite channels. That a route naming no node makes `invoke` fail is also an assumption about the library. So is what it does with the `chatHistoryResponse` key, which is not one of the six state fields: `Nodes.ProcessChatHistoryQuery` models that node's result on its own, since the node is never registered.
- Discord I/O: the handler event loop, `reply`, `editReply`, `followUp`, `threads.create`, `thread.send` and `client.login`. How thread creation goes is a parameter (`ThreadResult`), and the texts sent are the model's output. The embed's timestamp, the `ephemeral` flag and `autoArchiveDuration` are not modelled. Neither is the catch branch taken when the first reply itself fails.
- `ThreadResult`: `ThreadFailed` stands for every failure caught at src/index.ts:124. That includes `thread.send` (line 118) or `editReply` (line 121) failing after `threads.create` succeeded; the thread then exists, but the model reports no thread (`thread == None`).
- Concurrency: several `/ask` handlers can run interleaved on the shared history map. `OnInteraction` models one handler running to completion.
- Logging (`console.log`, `utils/logger.ts`), environment validation (`utils/env-validator.ts`), slash-command registration (`utils/slash-deploy.ts`): I/O and configuration only.
- `Strings.Lower`: lowers ASCII letters only, not the full Unicode case mapping of `toLowerCase`.
- `Bot.ThreadName`: `substring` counts UTF-16 code units. The model counts characters (Unicode scalar values), so it differs for prompts with characters outside the Basic Multilingual Plane.
- `Strings.Take`: counts characters, not UTF-16 code units, for the same reason.
- `processChatHistoryQuery`'s prompt contains the transcript, but the prompt text itself is left out: only `Nodes.HistoryTranscript` is modelled.
