# Context-aware web assistant, modelled in Dafny

The system is a chat assistant embedded in a web page. The page keeps a
*context* snapshot (which page the user is on, what they selected), and
every chat turn sends it along. A Node server builds the prompt from a
system template, the chat history and the context, asks a language model
for a reply, and returns the reply text and any *tool calls* the model
asked for. The tool declarations are schemas only: the browser runs the
tools by name from its own registry. Each tool's result is stored per tool
name and rendered in a side drawer or in a page area. The page can also
push *agent messages*, which show up as notifications and are merged into
the chat when the chat drawer opens.

The model has one Dafny module per source file:

- `agent_service.dfy` (`AgentService`): the server turn. It builds the message list, extracts text from string or block content, and normalises tool calls, synthesising ids where needed.
- `tools_service.dfy` (`ToolsService`): the two tool schemas and their conversion to the provider's tool format.
- `chat_controller.dfy` (`ChatApi`): `POST /chat`, with its 200, 400 and 500 outcomes.
- `config.dfy` (`AppConfig`): the environment-driven configuration and its validation at startup.
- `tools_config.dfy` (`ToolsConfig`): the client's tool registry, its two fetch executors, and `registerTool`.
- `tool_handler.dfy` (`ToolHandler`): dispatch by tool name, and the renderer and render-location lookups with their defaults.
- `assistant_context.dfy` (`AssistantContext`): the session state. It covers the context merge, replace and clear, the tool results upserted by name, the agent messages, and the drawer and component-area views.
- `assistant.dfy` (`Assistant`): the assistant component. It covers the send turn, its rollback, the sequential tool loop, notification selection, and the de-duplicating merge of agent messages.
- `chat_input.dfy` (`ChatInputForm`): the input field, submitting on the button or on Enter, and the send button's enabled state.
- `example_routes.dfy` (`ExampleRoutes`): the sample-data route and the report store, whose records go from `processing` to `completed`.
- `values.dfy` (`Values`) and `text.dfy` (`Text`): shared helpers. They cover JavaScript values, truthiness, destructuring defaults, object spread, `String.prototype.trim` and ASCII case conversion.

Operations that change state in place are methods of classes:

- `AssistantSession`, `AssistantView`, `ChatInput`, `Registry` and `ReportStore` each have `modifies` frames.
- Each state-changing method states its whole new state in terms of specification functions.
- The properties are lemmas about those functions.
- `AssistantView.Valid()` keeps the transcript to tool markers and user or assistant messages. That is the precondition under which `ClientHistoryReachesModel` shows the whole history reaching the model.

The loops of the source are methods with loop invariants:

- `BuildMessages` and `ExtractToolCalls`;
- the tool loop, `RunToolCalls`;
- the agent-message merge, `MergeAgentMessages`.

Inputs the code cannot compute or observe are parameters:

- the language model (`Service.llm`);
- the prompt files and the template renderer;
- `JSON.stringify` (`prettyJson`);
- `fetch`, `encodeURIComponent` and host-registered executors (`World`);
- the chat server as seen by the browser (`server`);
- `Date.now()`, ISO timestamps and `Math.random()`;
- the health check's outcome.

Where the code and its documented design differ, the model follows the code:

- A request body that is `null` or missing cannot be destructured, so `POST /chat` answers 500 rather than 400.
- `replaceContext` uses `newContext || {}`, so every falsy value, not only a missing one, resets the context to `{}`.
- An agent message's options are spread after `read: false`, so they can mark the message read at creation. The "mark all read, then push, gives exactly one unread message" property therefore needs the options not to set a truthy `read`.
- An unknown tool name is not rendered as a card of its own. The dispatcher throws "Unknown tool: …", and the turn reports "Failed to execute tool: …" without adding a marker or a result.

## Model

| member | source | states |
|---|---|---|
| AgentService.NewService | api/services/aiAgentService.js:11-41 | The service is built exactly when the prompt file `<name>.md` exists and parses, and then holds that template. Otherwise the error is "Prompt file not found: <name>.md". |
| AgentService.ContextBlock | api/services/aiAgentService.js:46-48 | The context block is empty exactly when the context is falsy or has no own keys. |
| AgentService.ContextBlockEmptyIff | api/services/aiAgentService.js:46-48 | The context block is empty iff the context is falsy or has no own keys. Otherwise it is the fixed preamble, the pretty-printed context and the fixed closing sentence. |
| AgentService.ContextBlockExamples | api/services/aiAgentService.js:46-48 | `{}` gives no context block. `{page: "x"}` gives the framed JSON. |
| AgentService.HistoryMessages | api/services/aiAgentService.js:57-69 | The only way converting the history can fail is a TypeError. A successful conversion has at most one message per entry. |
| AgentService.RoleMessage | api/services/aiAgentService.js:58-68 | An entry yields a message iff its role is user, assistant or system. The message carries the entry's `content`. It is a human message iff the role is user, and an AI message iff the role is assistant. |
| AgentService.Assemble | api/services/aiAgentService.js:43-74 | Building the message list fails only with a TypeError: a non-array history, or a null or undefined entry. |
| AgentService.HistoryErrorSticks | api/services/aiAgentService.js:57-69 | Once a prefix of the history throws, the whole history throws the same error. |
| AgentService.HistoryOkIff | api/services/aiAgentService.js:57-69 | Converting the history succeeds iff no entry is null or undefined. |
| AgentService.HistoryAppend | api/services/aiAgentService.js:57-69 | The messages for two concatenated histories are the concatenation of their messages. |
| AgentService.HistoryDropsUnknown | api/services/aiAgentService.js:58-68 | An entry whose role is not user, assistant or system adds no message. |
| AgentService.HistoryIsKnownEntries | api/services/aiAgentService.js:57-69 | There is one message per entry with a known role, in order, of the message class its role selects. |
| AgentService.AllKnownKeepsEveryEntry | api/services/aiAgentService.js:57-69 | When every entry is non-null and has a known role, message k is the conversion of entry k. |
| AgentService.AllKnownEntries | api/services/aiAgentService.js:58-68 | When every role is known, the known-role filter keeps every entry. |
| AgentService.AssembleShape | api/services/aiAgentService.js:43-74 | The list is built iff the history is an array with no null entry. It is then the system prompt, one message per known-role entry, and the user message last. |
| AgentService.BuildMessages | api/services/aiAgentService.js:43-74 | The pushed list equals the assembled list for the rendered system prompt, the history and the message. |
| AgentService.TextBlocksAppend | api/services/aiAgentService.js:82-83 | Selecting the `text` blocks distributes over concatenation. |
| AgentService.JoinTextsAppend | api/services/aiAgentService.js:84-85 | Joining the block texts distributes over concatenation. |
| AgentService.BlockTextConcatenates | api/services/aiAgentService.js:80-86 | The text of a block list is the concatenation of its parts' texts. A single block contributes its text only if its type is `text`. |
| AgentService.ExtractTextContent | api/services/aiAgentService.js:76-88 | String content is the text itself. Content that is neither a string nor a block list gives the empty text, and so does a block list without text blocks. |
| AgentService.NoTextBlocksNoText | api/services/aiAgentService.js:80-87 | Block content without a `text` block yields the empty text. |
| AgentService.ExtractToolCalls | api/services/aiAgentService.js:90-102 | There is one call per raw tool call, in order, with `toolName` = name and `parameters` = `args` or `{}`. The id is the given one, or else `call_<stamp>_<random>`, so it is never empty. A missing or empty `tool_calls` gives no calls. |
| AgentService.ToolCallsOf | api/services/aiAgentService.js:90-102 | There is one normalised call per raw call. Each keeps the raw call's name and has a non-empty id. |
| AgentService.ChatOutcome | api/services/aiAgentService.js:17-28 | A turn fails only with a TypeError from the history or with the provider's error. A successful turn's tool calls all have non-empty ids. |
| AgentService.ChatOutcomeOk | api/services/aiAgentService.js:17-28 | A successful turn invoked the provider on the assembled list, whose last message is the user message. It returned the provider's text and exactly one normalised call per raw call. |
| AgentService.ProcessChat | api/services/aiAgentService.js:17-28 | The result is the turn's outcome with history defaulting to `[]` and context to `{}`. A provider failure is the provider's own error on the assembled messages. |
| ToolsService.ToolsAreTheTwoSchemas | api/services/toolsService.js:8-37 | There are exactly two tools, getCurrentTime and getSampleData, with distinct names. Each schema is an object type with no required properties. |
| ToolsService.Convert | api/services/toolsService.js:42-48 | There is one provider tool per definition, in order. Name and description are copied, and the schema becomes `input_schema`. |
| ToolsService.ConvertToLangChainTools | api/services/toolsService.js:42-48 | The result is the two tools in declaration order, each with its definition's description and schema. |
| ChatApi.Chat | api/controllers/chatController.js:6-26 | Every response is 200, 400 or 500. 400 happens iff the body is present and `message` is falsy or not a string, and 400 and 500 carry their fixed error texts. For a valid message, the response is 200 iff the turn succeeds, and then the body is the turn's result. |
| AppConfig.LoadConfig | api/config.js:4-20 | Each unset or empty variable takes its default: provider ollama, prompt `default`, name "AI Assistant", port 8080. `currentModel` is the Claude model iff the provider is claude. |
| AppConfig.ValidateConfig | api/config.js:22-30 | Validation passes iff the provider is ollama, or claude with a non-empty key. The error names the missing key when the provider is claude, and the bad provider otherwise. |
| AppConfig.EmptyEnvironmentStarts | api/config.js:4-30 | An empty environment validates and uses `mistral-small`. |
| AppConfig.ClaudeNeedsKey | api/config.js:20-30 | With provider claude, startup succeeds iff the key is set. The model is then `CLAUDE_MODEL` or its default. |
| ToolsConfig.QueryString | web/src/ai-assistant/tools/toolsConfig.js:36 | A falsy parameter adds no query. Otherwise the query is `?key=` followed by the encoded value. |
| ToolsConfig.FetchJson | web/src/ai-assistant/tools/toolsConfig.js:38-44 | A network failure propagates. A response that is not ok fails with the executor's fixed message. An ok response yields its parsed JSON. |
| ToolsConfig.BuiltInExecutorUrls | web/src/ai-assistant/tools/toolsConfig.js:34-66 | The time executor fetches `/api/time`, with `?timezone=` only for a truthy timezone. The sample-data executor fetches `/api/sample-data`, with `?category=` likewise. Each uses its own failure text. |
| ToolsConfig.RunExecutor | web/src/ai-assistant/tools/toolsConfig.js:34-66 | A host executor's result is the host's. A built-in executor on null or undefined parameters fails to destructure them. A built-in executor succeeds only when the fetch of its route answered ok. |
| ToolsConfig.Registry.constructor | web/src/ai-assistant/tools/toolsConfig.js:28-86 | The registry starts with exactly the two built-in entries. |
| ToolsConfig.Registry.RegisterTool | web/src/ai-assistant/tools/toolsConfig.js:94-96 | The named entry is set or overwritten with the given config. Every other entry is unchanged. |
| ToolHandler.ExecuteToolCall | web/src/ai-assistant/tools/toolHandler.js:14-22 | A missing entry, or one without an executor, fails with "Unknown tool: <name>". Otherwise the result is the entry's executor's outcome. |
| ToolHandler.GetToolRenderer | web/src/ai-assistant/tools/toolHandler.js:29-32 | The renderer is the entry's component if there is one, otherwise none. |
| ToolHandler.GetToolRenderLocation | web/src/ai-assistant/tools/toolHandler.js:39-42 | The location is the entry's stated non-empty location, otherwise `drawer`. It is never empty. |
| ToolHandler.RenderLocationIsASurface | web/src/ai-assistant/tools/toolHandler.js:34-42 | When registered locations are surfaces, every lookup answers `drawer` or `component-area`. |
| ToolHandler.DefaultRegistryLocations | web/src/ai-assistant/tools/toolsConfig.js:28-86 | The time tool renders TimeDisplay in the drawer, and sample data renders SampleDataList in the component area. Any other name gets the drawer and no renderer. |
| ToolHandler.RegisterKeepsLocationsWellFormed | web/src/ai-assistant/tools/toolsConfig.js:94-96 | Registering an entry with a surface location keeps every location a surface. |
| ToolHandler.DispatchAfterRegister | web/src/ai-assistant/tools/toolsConfig.js:94-96 | After registration the name dispatches to the new executor. Dispatch and location for every other name are unchanged. |
| AssistantContext.MergeContext | web/src/ai-assistant/AIAssistantContext.js:51-63 | The new context is an object with the keys of the old context and of the patch. The patch's values win, and the other old values are kept. For an updater, the patch is its result on the old context. |
| AssistantContext.MergeTwice | web/src/ai-assistant/AIAssistantContext.js:58-61 | Two successive merges equal one merge of the two patches spread together, the later winning. |
| AssistantContext.MergeAfterClear | web/src/ai-assistant/AIAssistantContext.js:68-70 | Merging into the cleared context gives exactly the patch's own properties. |
| AssistantContext.FindIndex | web/src/ai-assistant/AIAssistantContext.js:84 | The result is -1 iff no entry has the name. Otherwise it is the first index with that name. |
| AssistantContext.Upsert | web/src/ai-assistant/AIAssistantContext.js:82-93 | A present name is replaced at its first index and every other entry is kept. An absent name is appended. |
| AssistantContext.RemoveNamedAppend | web/src/ai-assistant/AIAssistantContext.js:98-100 | Removal distributes over concatenation, so order is kept. |
| AssistantContext.RemoveNamedContents | web/src/ai-assistant/AIAssistantContext.js:98-100 | After removal no entry has the name, and exactly the entries of other names remain. |
| AssistantContext.RemoveNamed | web/src/ai-assistant/AIAssistantContext.js:98-100 | Removal never lengthens the list, and no remaining entry has the name. |
| AssistantContext.RemoveAbsentIsNoOp | web/src/ai-assistant/AIAssistantContext.js:98-100 | Removing an absent name changes nothing. |
| AssistantContext.RemoveIdempotent | web/src/ai-assistant/AIAssistantContext.js:98-100 | Removing twice equals removing once. |
| AssistantContext.UpsertKeepsUnique | web/src/ai-assistant/AIAssistantContext.js:82-93 | An upsert keeps tool names unique. |
| AssistantContext.RemoveKeepsUnique | web/src/ai-assistant/AIAssistantContext.js:98-100 | A removal keeps tool names unique. |
| AssistantContext.OpsKeepNamesUnique | web/src/ai-assistant/AIAssistantContext.js:82-107 | Any sequence of adds, removes and clears keeps at most one entry per tool name. |
| AssistantContext.AddAllAppend | web/src/ai-assistant/AIAssistantContext.js:82-93 | Adding two runs of results is adding the first run, then the second. |
| AssistantContext.UpsertSameNameTwice | web/src/ai-assistant/AIAssistantContext.js:82-93 | Adding two results of the same name equals adding only the second. |
| AssistantContext.RepeatedAddsKeepFirstIndex | web/src/ai-assistant/AIAssistantContext.js:82-93 | Results sharing a name leave one entry at the index of first insertion, holding the latest result. |
| AssistantContext.AtLocationAppend | web/src/ai-assistant/AIAssistantContext.js:145-155 | A view distributes over concatenation, so it keeps the list's order. |
| AssistantContext.AtLocationMembers | web/src/ai-assistant/AIAssistantContext.js:145-155 | A view holds exactly the results whose render location is its surface. |
| AssistantContext.AssistantSession.DrawerTools | web/src/ai-assistant/AIAssistantContext.js:151-155 | The drawer view holds exactly the stored results whose render location is `drawer`. |
| AssistantContext.AssistantSession.ComponentAreaTools | web/src/ai-assistant/AIAssistantContext.js:145-149 | The component-area view holds exactly the stored results whose render location is `component-area`. |
| AssistantContext.ViewsPartition | web/src/ai-assistant/AIAssistantContext.js:145-155 | The drawer and component-area views are disjoint. When locations are surfaces, their sizes add up to the whole list. |
| AssistantContext.NewAgentMessage | web/src/ai-assistant/AIAssistantContext.js:116-123 | The message has id `agent_msg_<now>`, the given content, the timestamp and `read: false`, each unless the options override it. The remaining options are kept with their values. |
| AssistantContext.UnreadOf | web/src/ai-assistant/AIAssistant.js:50 | The unread list is no longer than the messages, and every message in it is unread. |
| AssistantContext.MarkAllRead | web/src/ai-assistant/AIAssistantContext.js:133 | Same length, and each message is unchanged except `read: true`. |
| AssistantContext.UnreadOfAllRead | web/src/ai-assistant/AIAssistantContext.js:132-135 | When every message is read, there are no unread messages. |
| AssistantContext.MarkReadThenPush | web/src/ai-assistant/AIAssistantContext.js:116-135 | Marking all read, then pushing a message whose options do not mark it read, leaves exactly that message unread. |
| AssistantContext.AssistantSession.constructor | web/src/ai-assistant/AIAssistantContext.js:43-46 | The session starts with context `{}`, no results, no agent messages and no unread flag. |
| AssistantContext.AssistantSession.SetContext | web/src/ai-assistant/AIAssistantContext.js:51-63 | The context is the previous one shallow-merged with the patch, or with the function's output on the previous context. The keys are the union. |
| AssistantContext.AssistantSession.ClearContext | web/src/ai-assistant/AIAssistantContext.js:68-70 | The context becomes `{}`. |
| AssistantContext.AssistantSession.ReplaceContext | web/src/ai-assistant/AIAssistantContext.js:75-77 | A truthy value replaces the context. Any falsy value gives `{}`. |
| AssistantContext.AssistantSession.AddToolResult | web/src/ai-assistant/AIAssistantContext.js:82-93 | The list becomes the upsert of the result. Its length grows iff the name was new, and names stay unique. |
| AssistantContext.AssistantSession.RemoveToolResult | web/src/ai-assistant/AIAssistantContext.js:98-100 | The list becomes the filtered list, which has no entry of that name. |
| AssistantContext.AssistantSession.ClearToolResults | web/src/ai-assistant/AIAssistantContext.js:105-107 | The list becomes empty. |
| AssistantContext.AssistantSession.SendAgentMessage | web/src/ai-assistant/AIAssistantContext.js:116-127 | Exactly the new message is appended, and the unread flag is set. |
| AssistantContext.AssistantSession.MarkAgentMessagesAsRead | web/src/ai-assistant/AIAssistantContext.js:132-135 | All messages are marked read and none is deleted. No message is unread and the flag is cleared. |
| AssistantContext.AssistantSession.ClearAgentMessages | web/src/ai-assistant/AIAssistantContext.js:140-143 | No messages remain and the flag is cleared. |
| Assistant.SentHistoryIsChats | web/src/ai-assistant/AIAssistant.js:96-101 | The history sent is the non-tool transcript entries, in order, each reduced to `{role, content}`. |
| Assistant.SentHistoryAccepted | web/src/ai-assistant/AIAssistant.js:96-103 | Whatever the transcript, the server accepts the history the client sends. |
| Assistant.EntryReachesModel | web/src/ai-assistant/AIAssistant.js:98-101 | A projected user or assistant entry is non-null, has a known role, and becomes the message of its role. |
| Assistant.ChatHistoryMessages | web/src/ai-assistant/AIAssistant.js:96-103 | The server turns the client's history into one model message per chat message, in order. |
| Assistant.ClientHistoryReachesModel | web/src/ai-assistant/AIAssistant.js:96-103 | For a transcript of user and assistant messages, the server's list is the system prompt, every chat message in order, then the new message. |
| Assistant.MarkersMatchSuccesses | web/src/ai-assistant/AIAssistant.js:122-146 | The k-th marker records the same tool name, id and data as the k-th stored result. There are no more of them than calls. |
| Assistant.MarkersAppend | web/src/ai-assistant/AIAssistant.js:122-152 | Markers and stored results of two runs of calls concatenate, so a failure does not stop later calls. |
| Assistant.ToolErrorIff | web/src/ai-assistant/AIAssistant.js:122-152 | The tool error is clear iff every call succeeded, which is iff every call left a marker. Otherwise it names a call that failed. |
| Assistant.LeadTextIsTrimTest | web/src/ai-assistant/AIAssistant.js:108 | The lead text is the standby text exactly when the reply's text is empty or trims to empty. |
| Assistant.LeadMessageFirst | web/src/ai-assistant/AIAssistant.js:106-121 | With tool calls, exactly one assistant message comes first: the standby text if the reply's text is blank, otherwise the text. Only markers follow it. |
| Assistant.MarkersAllMarkers | web/src/ai-assistant/AIAssistant.js:122-146 | The tool loop appends only tool markers. |
| Assistant.TextOnlyReply | web/src/ai-assistant/AIAssistant.js:153-159 | Without tool calls, an assistant message is appended iff the text is non-empty. |
| Assistant.TimeToolScenario | web/src/ai-assistant/AIAssistant.js:105-146 | Blank text plus one successful getCurrentTime call gives the standby text and one marker. One result is stored under getCurrentTime, there is no error, and the drawer shows that result. |
| Assistant.MergeIntoExtends | web/src/ai-assistant/AIAssistant.js:69-80 | Merging keeps the transcript as a prefix and adds at most one message per agent message, each built from one. |
| Assistant.ShownPersists | web/src/ai-assistant/AIAssistant.js:71-75 | An agent message already present stays present as the transcript grows. |
| Assistant.MergeIntoCovers | web/src/ai-assistant/AIAssistant.js:61-85 | After merging, every merged agent message has a matching assistant entry. |
| Assistant.MergeShownIsNoOp | web/src/ai-assistant/AIAssistant.js:69-80 | Messages that already have a matching entry add nothing. |
| Assistant.MergeIdempotent | web/src/ai-assistant/AIAssistant.js:61-85 | Merging the same messages twice equals merging them once. |
| Assistant.FirstUnshown | web/src/ai-assistant/AIAssistant.js:52 | The result is none iff every id is already shown. Otherwise it is the first message whose id is not shown. |
| Assistant.UnreadOfMembers | web/src/ai-assistant/AIAssistant.js:50 | The unread list holds exactly the messages whose `read` is falsy. |
| Assistant.AssistantView.constructor | web/src/ai-assistant/AIAssistant.js:29-34 | The view starts with an empty transcript, both drawers closed, not loading, no error and no notification. |
| Assistant.AssistantView.ReportHealth | web/src/ai-assistant/AIAssistant.js:36-47 | A failed health check sets "Unable to connect to the AI assistant." A passed one changes nothing. |
| Assistant.AssistantView.HandleSendMessage | web/src/ai-assistant/AIAssistant.js:87-168 | The request carries the message, the history from before the append and the context. On failure the transcript and results are as before, and the error is the message or the fallback text. On success the transcript gains the user message and the reply's messages, the results gain the successes, and the error is the last tool failure. Loading ends false. |
| Assistant.AssistantView.ShowReply | web/src/ai-assistant/AIAssistant.js:105-159 | The transcript gains the reply's messages. The results gain the tool successes, and a tool failure sets the error. |
| Assistant.AssistantView.ShowToolReply | web/src/ai-assistant/AIAssistant.js:105-152 | After the lead message, the transcript gains the markers of the calls. The results gain the successes, and the error is the last failure. |
| Assistant.AssistantView.ShowTextReply | web/src/ai-assistant/AIAssistant.js:153-159 | Without tool calls the transcript gains the reply's messages. No result is stored and the error is kept. |
| Assistant.AssistantView.AppendMessage | web/src/ai-assistant/AIAssistant.js:113-158 | The transcript gains the message at its end. It keeps holding only tool markers and user or assistant messages. |
| Assistant.AssistantView.RunToolCalls | web/src/ai-assistant/AIAssistant.js:122-152 | For all calls in order, the markers accumulate, the results are upserted, and the error is the last failure. |
| Assistant.AssistantView.RunToolCall | web/src/ai-assistant/AIAssistant.js:123-151 | A success stores the result and appends its marker. A failure sets "Failed to execute tool: <name>". |
| Assistant.AssistantView.SelectNotification | web/src/ai-assistant/AIAssistant.js:49-59 | With one current, nothing changes. Otherwise the first unread message with an unshown id becomes current and its id is recorded. No id becomes current twice. |
| Assistant.AssistantView.MergeAgentMessages | web/src/ai-assistant/AIAssistant.js:61-85 | With the chat open and messages present, each unread message is appended unless already shown, then all are marked read. Otherwise nothing changes. |
| Assistant.AssistantView.HandleOpenChat | web/src/ai-assistant/AIAssistant.js:170-173 | The chat is open and the notification cleared. The tool drawer is open iff the drawer view is non-empty. |
| Assistant.AssistantView.HandleCloseChat | web/src/ai-assistant/AIAssistant.js:175-177 | The chat is closed, and with it the tool drawer. |
| Assistant.AssistantView.IsToolDrawerOpen | web/src/ai-assistant/AIAssistant.js:187 | The tool drawer is open iff the chat is open and some stored result renders in the drawer. |
| Assistant.AssistantView.HandleNotificationDismiss | web/src/ai-assistant/AIAssistant.js:179-181 | The notification is cleared and its id stays recorded as shown. |
| Assistant.AssistantView.HandleRemoveTool | web/src/ai-assistant/AIAssistant.js:183-185 | The named result is removed, and the drawer view no longer shows it. |
| ChatInputForm.SubmitSendsIffEnabled | web/src/ai-assistant/components/AIChat/ChatInput.js:7-38 | A submit sends iff the send button is enabled. It sends the trimmed, non-blank text. |
| ChatInputForm.ChatInput.ButtonEnabled | web/src/ai-assistant/components/AIChat/ChatInput.js:38 | The send button is enabled iff a submit would send. Then the form is not disabled and the text is not blank. |
| ChatInputForm.ResubmitSendsSame | web/src/ai-assistant/components/AIChat/ChatInput.js:10 | Submitting the sent text again sends the same text. |
| ChatInputForm.BlankNeverSends | web/src/ai-assistant/components/AIChat/ChatInput.js:10-14 | A whitespace-only field never sends. |
| ChatInputForm.ChatInput.constructor | web/src/ai-assistant/components/AIChat/ChatInput.js:5 | The field starts empty. |
| ChatInputForm.ChatInput.OnChange | web/src/ai-assistant/components/AIChat/ChatInput.js:29 | The field holds the typed value. |
| ChatInputForm.ChatInput.HandleSubmit | web/src/ai-assistant/components/AIChat/ChatInput.js:7-15 | The sent text is the submission for the old text. It sends iff the button was enabled, and the field is cleared only when it sends. |
| ChatInputForm.ChatInput.HandleKeyDown | web/src/ai-assistant/components/AIChat/ChatInput.js:17-22 | Enter without Shift suppresses the newline and submits. Any other key, Shift+Enter included, sends nothing and keeps the field. |
| ExampleRoutes.CategoryTitle | api/routes/examples.js:98 | The title has the category's length, its first character upper-cased, and the rest unchanged. |
| ExampleRoutes.InCategoryIsFilter | api/routes/examples.js:93-95 | The filter distributes over concatenation, so order is kept. It keeps exactly the items whose category matches ignoring case. |
| ExampleRoutes.SampleDataRoute | api/routes/examples.js:62-108 | The route answers 500 with "Failed to get sample data" iff the category is structured. Otherwise every listed item is a sample item, and for a non-empty category every item has that category, ignoring case. |
| ExampleRoutes.CategoryCaseInsensitive | api/routes/examples.js:94 | Categories equal up to case select the same items. |
| ExampleRoutes.SampleDataForCategory | api/routes/examples.js:93-100 | A non-empty category yields its title-cased name and exactly the matching items. |
| ExampleRoutes.AllItemsAreBooks | api/routes/examples.js:66-95 | The category filter with "books" keeps all three sample items. |
| ExampleRoutes.BooksQuery | api/routes/examples.js:66-100 | "books" gives all three items titled "Books". "BOOKS" gives the same items titled "BOOKS". |
| ExampleRoutes.OtherQueries | api/routes/examples.js:66-100 | "movies" gives no items, titled "Movies". An absent category and an empty one get the same answer. |
| ExampleRoutes.EstimatedSeconds | api/routes/examples.js:121-145 | The estimate is the ceiling of the processing time in seconds, between 3 and 5. |
| ExampleRoutes.StatusIn | api/routes/examples.js:149-158 | An unknown id gives 404 "Report not found". Otherwise the result is the stored record. |
| ExampleRoutes.TransitionsKeepWellFormed | api/routes/examples.js:114-139 | Generating and completing keep every record either processing without a result, or completed with its time and data. |
| ExampleRoutes.ReportLifecycle | api/routes/examples.js:110-158 | A generated report is found processing. After its callback it is completed with the same id, type and creation time. Its summary names Usage or Performance, and Usage when no type was given. |
| ExampleRoutes.CompletedStaysCompleted | api/routes/examples.js:123-139 | A completed record stays completed under any completion, and is untouched by generating another id. |
| ExampleRoutes.ReportStore.constructor | api/routes/examples.js:19 | The store starts empty. |
| ExampleRoutes.ReportStore.Generate | api/routes/examples.js:110-147 | A null or missing body throws and stores nothing. Otherwise the store gains `report_<now>` as processing with the type defaulting to usage, and the reply gives its id and the estimate in seconds. |
| ExampleRoutes.ReportStore.Complete | api/routes/examples.js:123-140 | An existing record becomes completed with its data. A missing record is a no-op. |
| ExampleRoutes.ReportStore.Status | api/routes/examples.js:149-158 | Not found iff the id is absent, otherwise the stored record. |
| Text.LeadingSpaceIsMaximal | web/src/ai-assistant/components/AIChat/ChatInput.js:10 | The leading run that `trim` drops is all whitespace, and the first character after it is not whitespace. |
| Text.TrailingSpaceIsMaximal | web/src/ai-assistant/components/AIChat/ChatInput.js:10 | The trailing run that `trim` drops is all whitespace, and the last character before it is not whitespace. |
| Text.Trim | web/src/ai-assistant/components/AIChat/ChatInput.js:10 | The trimmed text is no longer than the input, and it neither starts nor ends with whitespace. |
| Text.TrimIsSlice | web/src/ai-assistant/components/AIChat/ChatInput.js:10 | The trimmed text is the infix after the leading whitespace, with only whitespace on either side of it. |
| Text.TrimEmptyIffAllSpace | web/src/ai-assistant/AIAssistant.js:108 | The trimmed text is empty iff the text is all whitespace. |
| Text.TrimIdempotent | web/src/ai-assistant/components/AIChat/ChatInput.js:10 | Trimming twice equals trimming once. |
| Values.Spread | web/src/ai-assistant/AIAssistantContext.js:53-61 | `{...a, ...b}` is an object whose keys are the union, with b's values winning. |

## Left out

- Network and process I/O are parameters and not modelled:
  - the HTTP transport;
  - `fetch` in the chat service and in the executors;
  - the provider SDKs (`llmProviderService.js` is not part of this model);
  - reading the prompt file and the mustache template engine;
  - `dotenv`;
  - the Express wiring in `server.js`, `app.js` and `routes/chat.js`.
- JSON serialisation is not modelled: the browser's request and the server's result are assumed to arrive as the same values.
- The `/health` route and `GET /api/time` are not modelled, because they format dates with time zones. `ReportHealth` takes the health check's outcome as a flag.
- Report metrics are not modelled (random floats), nor the `toLocaleDateString` text, which is a parameter.
- Timers and polling are not modelled:
  - the report's completion delay is the explicit `Complete` step;
  - the notification popup's visibility and auto-dismiss timers, and report polling in the demo page, are not part of this model.
- React scheduling is not modelled:
  - effects are methods the host calls when their dependencies change;
  - state-update batching and stale closures are not captured;
  - the history is the transcript from before the user message is appended;
  - nothing but the disabled input prevents a second send while one is in flight, and overlapping turns are not modelled.
- The `Value` numbers are integers: floating point and `NaN` are left out. Object key order is not modelled, since objects are maps.
- Strict equality and `Set` membership on objects and arrays compare by reference in JavaScript. `Matches` and `FirstUnshown` compare agent-message contents and ids structurally instead.
- `String.prototype.toLowerCase`/`toUpperCase` are modelled for ASCII letters only. Strings are sequences of Unicode scalar values, so UTF-16 surrogate pairs are not represented.
- Assistant.AssistantView.HandleSendMessage: the turn is atomic. No other transcript update runs during the two awaits at web/src/ai-assistant/AIAssistant.js:103 and :125, such as the agent-message merge effect of lines 61-85. The rollback at line 164 removes whatever entry is last when it runs. The model removes the user's message, which is that entry only when nothing was appended in between.
- Assistant.AssistantView.HandleSendMessage: the reply is typed as the server's result, with text a string and toolCalls a sequence. A body of another shape is not modelled, for example a string or an object with a `length` property as `toolCalls`, or a non-string text whose `trim` would throw.
- AgentService.BlockText: a block's `text` is a string or absent. `join` turning other values (numbers, `null`) into text is not modelled.
- Ids and timestamps from `Date.now()`, `new Date().toISOString()` and `Math.random()` are parameters, and their uniqueness is not asserted.
- The `useAIAssistant` hook's error outside a provider, the `updateContext` alias, and all rendering components are not modelled.
