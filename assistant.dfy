/**
  The assistant component: the chat transcript, the loading and error
  state, the notification shown for agent messages, and the turn that
  sends a message, shows the reply and runs the tools it asks for.

  The chat request goes through `server`, a function from the request to
  the reply or to the message of the error `sendChatMessage` rejects with;
  the tool executors see the outside world through `w`. React effects are
  methods the host calls when their dependencies change.
 */
module Assistant {
  import opened Values
  import opened Text
  import opened AgentService
  import opened ToolsConfig
  import opened ToolHandler
  import opened AssistantContext

  /** A transcript entry: a chat message (`timestamp` is `undefined` unless it came from an agent message), or a tool marker. */
  datatype ChatMessage =
    | Chat(role: string, content: Value, timestamp: Value)
    | ToolMarker(toolName: string, toolId: string, data: Value)

  /** The body `sendChatMessage` posts. */
  datatype ChatRequest = ChatRequest(message: string, chatHistory: Value, context: Value)

  const StandbyText: string := "I've created a component for you."
  const SendFailedFallback: string := "Failed to send message. Please try again."
  const Unreachable: string := "Unable to connect to the AI assistant."

  function ToolFailed(toolName: string): string {
    "Failed to execute tool: " + toolName
  }

  /** `err.message || fallback` */
  function SendFailure(message: string): string {
    if message != "" then message else SendFailedFallback
  }

  function RoleOf(m: ChatMessage): string {
    if m.ToolMarker? then "tool" else m.role
  }

  function UserMessage(text: string): ChatMessage {
    Chat("user", Str(text), Undefined)
  }

  function AssistantMessage(text: string): ChatMessage {
    Chat("assistant", Str(text), Undefined)
  }

  // ---------------------------------------------------------------------
  // The history sent with a turn

  /** `{role, content}` of a transcript entry. */
  function HistoryEntry(m: ChatMessage): Value {
    Obj(map["role" := Str(RoleOf(m)), "content" := if m.Chat? then m.content else Undefined])
  }

  /** `messages.filter(msg => msg.role !== 'tool').map(msg => ({role, content}))` */
  function SentHistory(t: seq<ChatMessage>): seq<Value>
    decreases |t|
  {
    if t == [] then []
    else SentHistory(t[..|t| - 1]) + (if RoleOf(t[|t| - 1]) != "tool" then [HistoryEntry(t[|t| - 1])] else [])
  }

  /** The transcript's chat messages: what the history keeps. */
  function ChatsOf(t: seq<ChatMessage>): seq<ChatMessage>
    decreases |t|
  {
    if t == [] then []
    else ChatsOf(t[..|t| - 1]) + (if RoleOf(t[|t| - 1]) != "tool" then [t[|t| - 1]] else [])
  }

  /** The history is the non-tool entries, in order, each reduced to its role and content. */
  lemma {:induction false} SentHistoryIsChats(t: seq<ChatMessage>)
    ensures |SentHistory(t)| == |ChatsOf(t)|
    ensures forall k :: 0 <= k < |ChatsOf(t)| ==>
              RoleOf(ChatsOf(t)[k]) != "tool" && SentHistory(t)[k] == HistoryEntry(ChatsOf(t)[k])
    ensures forall m :: m in ChatsOf(t) <==> m in t && RoleOf(m) != "tool"
    decreases |t|
  {
    if t != [] {
      var init := t[..|t| - 1];
      SentHistoryIsChats(init);
      assert t == init + [t[|t| - 1]];
    }
  }

  /** Whatever the transcript, the history is one the server accepts: an array of non-null entries. */
  lemma SentHistoryAccepted(t: seq<ChatMessage>, prompt: string, message: string)
    ensures Assemble(prompt, Arr(SentHistory(t)), message).Ok?
  {
    SentHistoryIsChats(t);
    AssembleShape(prompt, Arr(SentHistory(t)), message);
  }

  /** The model message for a user or assistant transcript entry. */
  function ModelMessage(m: ChatMessage): LcMessage {
    if RoleOf(m) == "user" then HumanMessage(if m.Chat? then m.content else Undefined)
    else AIMessage(if m.Chat? then m.content else Undefined)
  }

  lemma EntryReachesModel(m: ChatMessage)
    requires m.Chat? && m.role in {"user", "assistant"}
    ensures !Nullish(HistoryEntry(m)) && KnownRole(HistoryEntry(m))
    ensures RoleMessage(HistoryEntry(m)) == Some(ModelMessage(m))
  {
    var e := HistoryEntry(m);
    assert Prop(e, "role") == Str(m.role);
    assert Prop(e, "content") == m.content;
  }

  /** The model messages for a transcript's chat messages, in order. */
  function ModelMessages(t: seq<ChatMessage>): seq<LcMessage>
    decreases |t|
  {
    if t == [] then []
    else ModelMessages(t[..|t| - 1]) + (if RoleOf(t[|t| - 1]) != "tool" then [ModelMessage(t[|t| - 1])] else [])
  }

  /** The server turns the history of a user-and-assistant transcript into one model message per chat message. */
  lemma {:induction false} ChatHistoryMessages(t: seq<ChatMessage>)
    requires forall k :: 0 <= k < |t| ==> t[k].ToolMarker? || t[k].role in {"user", "assistant"}
    ensures HistoryMessages(SentHistory(t)) == Ok(ModelMessages(t))
    decreases |t|
  {
    if t != [] {
      var init := t[..|t| - 1];
      var last := t[|t| - 1];
      ChatHistoryMessages(init);
      if RoleOf(last) != "tool" {
        var h := SentHistory(init);
        var e := HistoryEntry(last);
        EntryReachesModel(last);
        assert SentHistory(t) == h + [e];
        assert (h + [e])[..|h|] == h;
        assert HistoryMessages(h + [e]) == Ok(ModelMessages(init) + [ModelMessage(last)]);
        assert ModelMessages(t) == ModelMessages(init) + [ModelMessage(last)];
      } else {
        assert SentHistory(t) == SentHistory(init);
        assert ModelMessages(t) == ModelMessages(init);
      }
    }
  }

  /**
    A transcript of user and assistant messages reaches the model whole:
    the server puts each chat message, in order, between the system
    prompt and the new message.
   */
  lemma ClientHistoryReachesModel(t: seq<ChatMessage>, prompt: string, message: string)
    requires forall k :: 0 <= k < |t| ==> t[k].ToolMarker? || t[k].role in {"user", "assistant"}
    ensures Assemble(prompt, Arr(SentHistory(t)), message)
         == Ok([SystemMessage(Str(prompt))] + ModelMessages(t) + [HumanMessage(Str(message))])
  {
    ChatHistoryMessages(t);
  }

  // ---------------------------------------------------------------------
  // The reply

  function Outcome(call: ToolInvocation, registry: map<string, ToolEntry>, w: World): Result<Value, string> {
    ExecuteToolCall(registry, call.toolName, call.parameters, w)
  }

  /** The tool markers appended for the calls that succeed, in call order. */
  function Markers(calls: seq<ToolInvocation>, registry: map<string, ToolEntry>, w: World): seq<ChatMessage>
    decreases |calls|
  {
    if calls == [] then []
    else
      var c := calls[|calls| - 1];
      Markers(calls[..|calls| - 1], registry, w) + MarkerOf(c, registry, w)
  }

  /** The marker one call leaves: one on success, none on failure. */
  function MarkerOf(c: ToolInvocation, registry: map<string, ToolEntry>, w: World): seq<ChatMessage> {
    match Outcome(c, registry, w)
    case Ok(d) => [ToolMarker(c.toolName, c.id, d)]
    case Err(_) => []
  }

  /** The result one call stores: one on success, none on failure. */
  function SuccessOf(c: ToolInvocation, registry: map<string, ToolEntry>, w: World): seq<ToolResult> {
    match Outcome(c, registry, w)
    case Ok(d) => [ToolResult(c.toolName, c.id, d)]
    case Err(_) => []
  }

  /** The results handed to `addToolResult`, in call order. */
  function Successes(calls: seq<ToolInvocation>, registry: map<string, ToolEntry>, w: World): seq<ToolResult>
    decreases |calls|
  {
    if calls == [] then []
    else
      var c := calls[|calls| - 1];
      Successes(calls[..|calls| - 1], registry, w) + SuccessOf(c, registry, w)
  }

  /** The error left by the tool loop: that of the last call that failed. */
  function ToolError(calls: seq<ToolInvocation>, registry: map<string, ToolEntry>, w: World): Option<string>
    decreases |calls|
  {
    if calls == [] then None
    else
      var c := calls[|calls| - 1];
      if Outcome(c, registry, w).Err? then Some(ToolFailed(c.toolName))
      else ToolError(calls[..|calls| - 1], registry, w)
  }

  /** The assistant text shown before tool output: the standby text when the reply's text is blank (empty or all whitespace). */
  function LeadText(text: string): string {
    if text == "" || AllSpace(text) then StandbyText else text
  }

  /** The blank test is the component's own: no text, or text whose `trim()` is empty. */
  lemma LeadTextIsTrimTest(text: string)
    ensures LeadText(text) == if text == "" || Trim(text) == "" then StandbyText else text
  {
    TrimEmptyIffAllSpace(text);
  }

  /** Concatenation regroups. */
  lemma Associative<T>(a: seq<T>, b: seq<T>, c: seq<T>)
    ensures a + b + c == a + (b + c)
  {
  }

  /** The messages a successful reply appends after the user's message. */
  function ReplyMessages(reply: ChatResult, registry: map<string, ToolEntry>, w: World): seq<ChatMessage> {
    if |reply.toolCalls| > 0 then [AssistantMessage(LeadText(reply.text))] + Markers(reply.toolCalls, registry, w)
    else if reply.text != "" then [AssistantMessage(reply.text)]
    else []
  }

  /** Each marker records the same call and data as the result stored beside it. */
  lemma {:induction false} MarkersMatchSuccesses(calls: seq<ToolInvocation>, registry: map<string, ToolEntry>, w: World)
    ensures |Markers(calls, registry, w)| == |Successes(calls, registry, w)| <= |calls|
    ensures forall k :: 0 <= k < |Markers(calls, registry, w)| ==>
              var m := Markers(calls, registry, w)[k];
              var s := Successes(calls, registry, w)[k];
              m == ToolMarker(s.toolName, s.toolId, s.data)
    decreases |calls|
  {
    if calls != [] {
      MarkersMatchSuccesses(calls[..|calls| - 1], registry, w);
    }
  }

  /** A failing call does not stop the later ones: the markers of two runs of calls are concatenated. */
  lemma {:induction false} MarkersAppend(a: seq<ToolInvocation>, b: seq<ToolInvocation>, registry: map<string, ToolEntry>, w: World)
    ensures Markers(a + b, registry, w) == Markers(a, registry, w) + Markers(b, registry, w)
    ensures Successes(a + b, registry, w) == Successes(a, registry, w) + Successes(b, registry, w)
    decreases |b|
  {
    if b == [] {
      assert a + b == a;
    } else {
      var init, c := b[..|b| - 1], b[|b| - 1];
      assert (a + b)[..|a + b| - 1] == a + init && (a + b)[|a + b| - 1] == c;
      MarkersAppend(a, init, registry, w);
      assert Markers(a + b, registry, w) == Markers(a + init, registry, w) + MarkerOf(c, registry, w);
      assert Successes(a + b, registry, w) == Successes(a + init, registry, w) + SuccessOf(c, registry, w);
      Associative(Markers(a, registry, w), Markers(init, registry, w), MarkerOf(c, registry, w));
      Associative(Successes(a, registry, w), Successes(init, registry, w), SuccessOf(c, registry, w));
    }
  }

  /** The tool error is clear exactly when every call succeeded, and otherwise names a call that failed. */
  lemma {:induction false} ToolErrorIff(calls: seq<ToolInvocation>, registry: map<string, ToolEntry>, w: World)
    ensures ToolError(calls, registry, w).None? <==> forall k :: 0 <= k < |calls| ==> Outcome(calls[k], registry, w).Ok?
    ensures ToolError(calls, registry, w).None? <==> |Markers(calls, registry, w)| == |calls|
    ensures ToolError(calls, registry, w).Some? ==>
              exists k :: 0 <= k < |calls| && Outcome(calls[k], registry, w).Err?
                          && ToolError(calls, registry, w).value == ToolFailed(calls[k].toolName)
    decreases |calls|
  {
    if calls != [] {
      var init := calls[..|calls| - 1];
      ToolErrorIff(init, registry, w);
      MarkersMatchSuccesses(init, registry, w);
      assert forall k :: 0 <= k < |init| ==> init[k] == calls[k];
      if Outcome(calls[|calls| - 1], registry, w).Ok? {
        if ToolError(init, registry, w).Some? {
          var k :| 0 <= k < |init| && Outcome(init[k], registry, w).Err?
                   && ToolError(init, registry, w).value == ToolFailed(init[k].toolName);
          assert calls[k] == init[k];
        }
      }
    }
  }

  /** A reply with tool calls shows exactly one assistant message, first, and tool markers after it. */
  lemma LeadMessageFirst(reply: ChatResult, registry: map<string, ToolEntry>, w: World)
    requires |reply.toolCalls| > 0
    ensures var ms := ReplyMessages(reply, registry, w);
            && |ms| >= 1
            && ms[0] == AssistantMessage(if Trim(reply.text) == "" then StandbyText else reply.text)
            && forall k :: 1 <= k < |ms| ==> ms[k].ToolMarker?
  {
    LeadTextIsTrimTest(reply.text);
    MarkersAllMarkers(reply.toolCalls, registry, w);
  }

  lemma {:induction false} MarkersAllMarkers(calls: seq<ToolInvocation>, registry: map<string, ToolEntry>, w: World)
    ensures forall m :: m in Markers(calls, registry, w) ==> m.ToolMarker?
    decreases |calls|
  {
    if calls != [] {
      MarkersAllMarkers(calls[..|calls| - 1], registry, w);
    }
  }

  /** With no tool calls, an assistant message is shown if and only if the text is not empty. */
  lemma TextOnlyReply(reply: ChatResult, registry: map<string, ToolEntry>, w: World)
    requires reply.toolCalls == []
    ensures ReplyMessages(reply, registry, w) == if reply.text != "" then [AssistantMessage(reply.text)] else []
  {
  }

  /**
    A reply with blank text and one `getCurrentTime` call whose fetch
    succeeds shows the standby text and one marker, stores one result
    under the tool's name, and the drawer view then holds exactly it.
   */
  lemma TimeToolScenario(id: string, w: World, data: Value)
    requires w.fetch(w.baseUrl + "/api/time") == Reply(true, Ok(data))
    ensures var reply := ChatResult("", [ToolInvocation(id, "getCurrentTime", EmptyObject)]);
            var stored := AddAll([], Successes(reply.toolCalls, DefaultEntries, w));
            && ReplyMessages(reply, DefaultEntries, w) == [AssistantMessage(StandbyText), ToolMarker("getCurrentTime", id, data)]
            && ToolError(reply.toolCalls, DefaultEntries, w).None?
            && stored == [ToolResult("getCurrentTime", id, data)]
            && AtLocation(stored, DefaultEntries, DrawerLocation) == stored
  {
    var call := ToolInvocation(id, "getCurrentTime", EmptyObject);
    assert ExecutorUrl(w.baseUrl, "/api/time", "timezone", EmptyObject, w.encode) == w.baseUrl + "/api/time" + "";
    assert w.baseUrl + "/api/time" + "" == w.baseUrl + "/api/time";
    assert Outcome(call, DefaultEntries, w) == Ok(data);
    assert [call][..0] == [];
    assert Markers([call], DefaultEntries, w) == [ToolMarker("getCurrentTime", id, data)];
    assert LeadText("") == StandbyText;
    DefaultRegistryLocations();
  }

  // ---------------------------------------------------------------------
  // Agent messages in the transcript and as notifications

  /** `m.role === 'assistant' && m.content === a.content && m.timestamp === a.timestamp` */
  predicate Matches(m: ChatMessage, a: AgentMessage) {
    m.Chat? && m.role == "assistant" && m.content == a.content && m.timestamp == a.timestamp
  }

  predicate Shown(t: seq<ChatMessage>, a: AgentMessage) {
    exists k :: 0 <= k < |t| && Matches(t[k], a)
  }

  function AsChat(a: AgentMessage): ChatMessage {
    Chat("assistant", a.content, a.timestamp)
  }

  /** The transcript after the unread messages `ms` are merged in, one at a time. */
  function MergeInto(t: seq<ChatMessage>, ms: seq<AgentMessage>): seq<ChatMessage>
    decreases |ms|
  {
    if ms == [] then t
    else
      var p := MergeInto(t, ms[..|ms| - 1]);
      var a := ms[|ms| - 1];
      if Shown(p, a) then p else p + [AsChat(a)]
  }

  /** Merging only appends, and only messages drawn from `ms`. */
  lemma {:induction false} MergeIntoExtends(t: seq<ChatMessage>, ms: seq<AgentMessage>)
    ensures |t| <= |MergeInto(t, ms)| <= |t| + |ms|
    ensures MergeInto(t, ms)[..|t|] == t
    ensures forall k :: |t| <= k < |MergeInto(t, ms)| ==> exists a :: a in ms && MergeInto(t, ms)[k] == AsChat(a)
    decreases |ms|
  {
    if ms != [] {
      var init := ms[..|ms| - 1];
      MergeIntoExtends(t, init);
      var p := MergeInto(t, init);
      forall k | |t| <= k < |MergeInto(t, ms)| ensures exists a :: a in ms && MergeInto(t, ms)[k] == AsChat(a) {
        if k < |p| {
          var a :| a in init && p[k] == AsChat(a);
          assert a in ms;
        } else {
          assert MergeInto(t, ms)[k] == AsChat(ms[|ms| - 1]);
        }
      }
    }
  }

  /** A message shown stays shown as the transcript grows. */
  lemma ShownPersists(t: seq<ChatMessage>, u: seq<ChatMessage>, a: AgentMessage)
    requires Shown(t, a)
    ensures Shown(t + u, a)
  {
    var k :| 0 <= k < |t| && Matches(t[k], a);
    assert (t + u)[k] == t[k];
  }

  /** After merging, every merged message appears in the transcript. */
  lemma {:induction false} MergeIntoCovers(t: seq<ChatMessage>, ms: seq<AgentMessage>)
    ensures forall a :: a in ms ==> Shown(MergeInto(t, ms), a)
    decreases |ms|
  {
    if ms != [] {
      var init := ms[..|ms| - 1];
      var last := ms[|ms| - 1];
      MergeIntoCovers(t, init);
      var p := MergeInto(t, init);
      forall a | a in ms ensures Shown(MergeInto(t, ms), a) {
        if a in init {
          if !Shown(p, last) {
            ShownPersists(p, [AsChat(last)], a);
          }
        } else {
          assert a == last;
          if !Shown(p, last) {
            assert (p + [AsChat(last)])[|p|] == AsChat(last);
          }
        }
      }
    }
  }

  /** Messages already in the transcript add nothing. */
  lemma {:induction false} MergeShownIsNoOp(t: seq<ChatMessage>, ms: seq<AgentMessage>)
    requires forall a :: a in ms ==> Shown(t, a)
    ensures MergeInto(t, ms) == t
    decreases |ms|
  {
    if ms != [] {
      MergeShownIsNoOp(t, ms[..|ms| - 1]);
      assert ms[|ms| - 1] in ms;
    }
  }

  /** Merging the same messages twice is merging them once. */
  lemma MergeIdempotent(t: seq<ChatMessage>, ms: seq<AgentMessage>)
    ensures MergeInto(MergeInto(t, ms), ms) == MergeInto(t, ms)
  {
    MergeIntoCovers(t, ms);
    MergeShownIsNoOp(MergeInto(t, ms), ms);
  }

  /** `unreadMessages.find(msg => !shownNotificationIds.has(msg.id))` */
  function FirstUnshown(ms: seq<AgentMessage>, shown: set<Value>): (r: Option<AgentMessage>)
    ensures r.None? <==> forall k :: 0 <= k < |ms| ==> ms[k].id in shown
    ensures r.Some? ==> exists k :: 0 <= k < |ms| && ms[k] == r.value && r.value.id !in shown
                                    && forall j :: 0 <= j < k ==> ms[j].id in shown
    decreases |ms|
  {
    if ms == [] then None
    else if ms[0].id !in shown then Some(ms[0])
    else
      var r := FirstUnshown(ms[1..], shown);
      if r.Some? then
        assert exists k :: 0 <= k < |ms[1..]| && ms[1..][k] == r.value && r.value.id !in shown
                           && forall j :: 0 <= j < k ==> ms[1..][j].id in shown;
        var k :| 0 <= k < |ms[1..]| && ms[1..][k] == r.value && r.value.id !in shown
                 && forall j :: 0 <= j < k ==> ms[1..][j].id in shown;
        assert ms[k + 1] == r.value;
        r
      else r
  }

  lemma {:induction false} UnreadOfMembers(ms: seq<AgentMessage>)
    ensures forall a :: a in UnreadOf(ms) <==> a in ms && Unread(a)
    decreases |ms|
  {
    if ms != [] {
      UnreadOfMembers(ms[..|ms| - 1]);
      assert ms == ms[..|ms| - 1] + [ms[|ms| - 1]];
    }
  }

  // ---------------------------------------------------------------------
  // The component's state

  class AssistantView {
    var messages: seq<ChatMessage>
    var isChatDrawerOpen: bool
    var isLoading: bool
    var error: Option<string>
    var currentNotification: Option<AgentMessage>
    var shownNotificationIds: set<Value>
    /** The ids that became the current notification, in order. */
    ghost var shownLog: seq<Value>
    const session: AssistantSession
    const registry: Registry

    /**
      The transcript holds only tool markers and user or assistant messages;
      each id becomes the current notification at most once, and the current
      one is recorded as shown.
     */
    ghost predicate Valid()
      reads this, session
    {
      && session.Valid()
      && (forall k :: 0 <= k < |messages| ==> messages[k].ToolMarker? || messages[k].role in {"user", "assistant"})
      && (forall i, j :: 0 <= i < j < |shownLog| ==> shownLog[i] != shownLog[j])
      && (forall v :: v in shownNotificationIds <==> v in shownLog)
      && (currentNotification.Some? ==> currentNotification.value.id in shownNotificationIds)
    }

    constructor (session: AssistantSession, registry: Registry)
      requires session.Valid()
      ensures Valid()
      ensures this.session == session && this.registry == registry
      ensures messages == [] && !isChatDrawerOpen && !isLoading && error.None?
      ensures currentNotification.None? && shownNotificationIds == {}
    {
      this.session := session;
      this.registry := registry;
      messages := [];
      isChatDrawerOpen := false;
      isLoading := false;
      error := None;
      currentNotification := None;
      shownNotificationIds := {};
      shownLog := [];
    }

    /** The health effect: an unreachable API leaves the connection error. */
    method ReportHealth(healthy: bool)
      requires Valid()
      modifies this`error
      ensures Valid()
      ensures error == if healthy then old(error) else Some(Unreachable)
    {
      if !healthy {
        error := Some(Unreachable);
      }
    }

    /**
      `handleSendMessage(userMessage)`. The history sent is the transcript
      from before the user's message was appended; a failed request takes
      that message back out.
     */
    method HandleSendMessage(userMessage: string, server: ChatRequest -> Result<ChatResult, string>, w: World)
      returns (request: ChatRequest)
      requires Valid()
      modifies this`messages, this`isLoading, this`error, session`toolResults
      ensures Valid()
      ensures request == ChatRequest(userMessage, Arr(SentHistory(old(messages))), old(session.context))
      ensures !isLoading
      ensures server(request).Err? ==>
                && messages == old(messages)
                && error == Some(SendFailure(server(request).error))
                && session.toolResults == old(session.toolResults)
      ensures server(request).Ok? ==>
                var reply := server(request).value;
                && messages == old(messages) + [UserMessage(userMessage)] + ReplyMessages(reply, registry.entries, w)
                && session.toolResults == AddAll(old(session.toolResults), Successes(reply.toolCalls, registry.entries, w))
                && error == ToolError(reply.toolCalls, registry.entries, w)
    {
      error := None;
      var chatHistory := SentHistory(messages);
      messages := messages + [UserMessage(userMessage)];
      isLoading := true;
      request := ChatRequest(userMessage, Arr(chatHistory), session.context);
      var response := server(request);
      match response {
        case Err(message) =>
          error := Some(SendFailure(message));
          messages := messages[..|messages| - 1];
        case Ok(reply) =>
          ShowReply(reply, w);
      }
      isLoading := false;
    }

    /** The `try` block after the response arrives: the assistant's text, then the tool loop. */
    method ShowReply(reply: ChatResult, w: World)
      requires Valid()
      modifies this`messages, this`error, session`toolResults
      ensures Valid()
      ensures messages == old(messages) + ReplyMessages(reply, registry.entries, w)
      ensures session.toolResults == AddAll(old(session.toolResults), Successes(reply.toolCalls, registry.entries, w))
      ensures error == if ToolError(reply.toolCalls, registry.entries, w).Some? then ToolError(reply.toolCalls, registry.entries, w) else old(error)
    {
      if |reply.toolCalls| > 0 {
        ghost var before := messages;
        var lead := AssistantMessage(LeadText(reply.text));
        ShowToolReply(lead, reply.toolCalls, w);
        Associative(before, [lead], Markers(reply.toolCalls, registry.entries, w));
      } else {
        ShowTextReply(reply, w);
      }
    }

    /** A reply with tool calls: its lead message, then the tool loop. */
    method ShowToolReply(lead: ChatMessage, calls: seq<ToolInvocation>, w: World)
      requires Valid() && lead.Chat? && lead.role == "assistant"
      modifies this`messages, this`error, session`toolResults
      ensures Valid()
      ensures messages == old(messages) + [lead] + Markers(calls, registry.entries, w)
      ensures session.toolResults == AddAll(old(session.toolResults), Successes(calls, registry.entries, w))
      ensures error == if ToolError(calls, registry.entries, w).Some? then ToolError(calls, registry.entries, w) else old(error)
    {
      AppendMessage(lead);
      RunToolCalls(calls, w);
    }

    /** A reply without tool calls: its text, when there is any. */
    method ShowTextReply(reply: ChatResult, w: World)
      requires Valid() && |reply.toolCalls| == 0
      modifies this`messages, this`error, session`toolResults
      ensures Valid()
      ensures messages == old(messages) + ReplyMessages(reply, registry.entries, w)
      ensures session.toolResults == AddAll(old(session.toolResults), Successes(reply.toolCalls, registry.entries, w))
      ensures error == if ToolError(reply.toolCalls, registry.entries, w).Some? then ToolError(reply.toolCalls, registry.entries, w) else old(error)
    {
      assert Successes(reply.toolCalls, registry.entries, w) == [] && ToolError(reply.toolCalls, registry.entries, w).None?;
      if reply.text != "" {
        AppendMessage(AssistantMessage(reply.text));
      }
    }

    /** `setMessages(prev => [...prev, m])` */
    method AppendMessage(m: ChatMessage)
      requires Valid() && (m.ToolMarker? || m.role in {"user", "assistant"})
      modifies this`messages
      ensures Valid()
      ensures messages == old(messages) + [m]
    {
      messages := messages + [m];
    }

    /** The `for` loop over the reply's tool calls: run each in order, store and mark each success, record each failure. */
    method RunToolCalls(calls: seq<ToolInvocation>, w: World)
      requires Valid()
      modifies this`messages, this`error, session`toolResults
      ensures Valid()
      ensures messages == old(messages) + Markers(calls, registry.entries, w)
      ensures session.toolResults == AddAll(old(session.toolResults), Successes(calls, registry.entries, w))
      ensures error == if ToolError(calls, registry.entries, w).Some? then ToolError(calls, registry.entries, w) else old(error)
    {
      for i := 0 to |calls|
        invariant Valid()
        invariant messages == old(messages) + Markers(calls[..i], registry.entries, w)
        invariant session.toolResults == AddAll(old(session.toolResults), Successes(calls[..i], registry.entries, w))
        invariant error == if ToolError(calls[..i], registry.entries, w).Some? then ToolError(calls[..i], registry.entries, w) else old(error)
      {
        ghost var prefix := calls[..i];
        assert calls[..i + 1][..i] == prefix && calls[..i + 1][i] == calls[i];
        assert Markers(calls[..i + 1], registry.entries, w) == Markers(prefix, registry.entries, w) + MarkerOf(calls[i], registry.entries, w);
        assert Successes(calls[..i + 1], registry.entries, w) == Successes(prefix, registry.entries, w) + SuccessOf(calls[i], registry.entries, w);
        AddAllAppend(old(session.toolResults), Successes(prefix, registry.entries, w), SuccessOf(calls[i], registry.entries, w));
        Associative(old(messages), Markers(prefix, registry.entries, w), MarkerOf(calls[i], registry.entries, w));
        RunToolCall(calls[i], w);
      }
      assert calls[..|calls|] == calls;
    }

    /** One pass of the tool loop: the call's result is stored and marked, or its failure is recorded. */
    method RunToolCall(call: ToolInvocation, w: World)
      requires Valid()
      modifies this`messages, this`error, session`toolResults
      ensures Valid()
      ensures messages == old(messages) + MarkerOf(call, registry.entries, w)
      ensures session.toolResults == AddAll(old(session.toolResults), SuccessOf(call, registry.entries, w))
      ensures error == if Outcome(call, registry.entries, w).Err? then Some(ToolFailed(call.toolName)) else old(error)
    {
      var toolResult := ExecuteToolCall(registry.entries, call.toolName, call.parameters, w);
      match toolResult {
        case Ok(data) =>
          session.AddToolResult(ToolResult(call.toolName, call.id, data));
          messages := messages + [ToolMarker(call.toolName, call.id, data)];
        case Err(_) =>
          error := Some(ToolFailed(call.toolName));
      }
    }

    /** The notification effect: with none current, show the first unread message whose id has not been shown. */
    method SelectNotification()
      requires Valid()
      modifies this`currentNotification, this`shownNotificationIds, this`shownLog
      ensures Valid()
      ensures old(currentNotification).Some? ==>
                currentNotification == old(currentNotification) && shownNotificationIds == old(shownNotificationIds)
      ensures old(currentNotification).None? ==>
                var next := FirstUnshown(UnreadOf(session.agentMessages), old(shownNotificationIds));
                && currentNotification == next
                && shownNotificationIds == old(shownNotificationIds) + (if next.Some? then {next.value.id} else {})
      ensures currentNotification.Some? && old(currentNotification).None? ==>
                currentNotification.value in session.agentMessages && Unread(currentNotification.value)
                && currentNotification.value.id !in old(shownNotificationIds)
    {
      var unreadMessages := UnreadOf(session.agentMessages);
      if |unreadMessages| > 0 && currentNotification.None? {
        var latestMessage := FirstUnshown(unreadMessages, shownNotificationIds);
        if latestMessage.Some? {
          UnreadOfMembers(session.agentMessages);
          currentNotification := latestMessage;
          shownNotificationIds := shownNotificationIds + {latestMessage.value.id};
          shownLog := shownLog + [latestMessage.value.id];
        }
      }
    }

    /** The drawer-open effect: append each unread agent message not already shown, then mark all read. */
    method MergeAgentMessages()
      requires Valid()
      modifies this`messages, session`agentMessages, session`hasUnreadAgentMessages
      ensures Valid()
      ensures isChatDrawerOpen && |old(session.agentMessages)| > 0 ==>
                && messages == MergeInto(old(messages), UnreadOf(old(session.agentMessages)))
                && session.agentMessages == MarkAllRead(old(session.agentMessages))
                && !session.hasUnreadAgentMessages
      ensures !(isChatDrawerOpen && |old(session.agentMessages)| > 0) ==>
                messages == old(messages) && session.agentMessages == old(session.agentMessages)
                && session.hasUnreadAgentMessages == old(session.hasUnreadAgentMessages)
    {
      if isChatDrawerOpen && |session.agentMessages| > 0 {
        var unreadMessages := UnreadOf(session.agentMessages);
        for i := 0 to |unreadMessages|
          invariant messages == MergeInto(old(messages), unreadMessages[..i])
          invariant forall k :: 0 <= k < |messages| ==> messages[k].ToolMarker? || messages[k].role in {"user", "assistant"}
          invariant session.agentMessages == old(session.agentMessages)
          invariant session.hasUnreadAgentMessages == old(session.hasUnreadAgentMessages)
        {
          assert unreadMessages[..i + 1][..i] == unreadMessages[..i];
          var agentMsg := unreadMessages[i];
          if !Shown(messages, agentMsg) {
            messages := messages + [AsChat(agentMsg)];
          }
        }
        assert unreadMessages[..|unreadMessages|] == unreadMessages;
        session.MarkAgentMessagesAsRead();
      }
    }

    /** `handleOpenChat` */
    method HandleOpenChat()
      requires Valid()
      modifies this`isChatDrawerOpen, this`currentNotification
      ensures Valid()
      ensures isChatDrawerOpen && currentNotification.None?
      ensures IsToolDrawerOpen() <==> |session.DrawerTools(registry.entries)| > 0
    {
      isChatDrawerOpen := true;
      currentNotification := None;
    }

    /** `handleCloseChat` */
    method HandleCloseChat()
      requires Valid()
      modifies this`isChatDrawerOpen
      ensures Valid()
      ensures !isChatDrawerOpen && !IsToolDrawerOpen()
    {
      isChatDrawerOpen := false;
    }

    /** `handleNotificationDismiss`: the id stays recorded, so the message is not offered again. */
    method HandleNotificationDismiss()
      requires Valid()
      modifies this`currentNotification
      ensures Valid()
      ensures currentNotification.None? && shownNotificationIds == old(shownNotificationIds)
    {
      currentNotification := None;
    }

    /** `handleRemoveTool` */
    method HandleRemoveTool(toolName: string)
      requires Valid()
      modifies session`toolResults
      ensures Valid()
      ensures session.toolResults == RemoveNamed(old(session.toolResults), toolName)
      ensures !HasName(session.DrawerTools(registry.entries), toolName)
    {
      session.RemoveToolResult(toolName);
      AtLocationMembers(session.toolResults, registry.entries, DrawerLocation);
    }

    /** `isChatDrawerOpen && drawerTools.length > 0` */
    predicate IsToolDrawerOpen()
      reads this, session, registry
      ensures IsToolDrawerOpen() <==>
                isChatDrawerOpen
                && exists x :: x in session.toolResults && GetToolRenderLocation(registry.entries, x.toolName) == DrawerLocation
    {
      var drawer := session.DrawerTools(registry.entries);
      assert |drawer| > 0 ==> drawer[0] in drawer;
      isChatDrawerOpen && |drawer| > 0
    }
  }
}
