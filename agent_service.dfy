/**
  The server's agent service (AIAgentService): it assembles the
  role-tagged message list for one chat turn, calls the bound provider,
  and reduces the provider's reply to `{text, toolCalls}`.

  The mustache renderer, `JSON.stringify(context, null, 2)`, the provider
  call, `Date.now()` and `Math.random()` are inputs of the model.
 */
module AgentService {
  import opened Values

  /** The LangChain message classes the service builds. */
  datatype LcMessage =
    | SystemMessage(content: Value)
    | HumanMessage(content: Value)
    | AIMessage(content: Value)

  /** One typed block of a block-list reply; `text` is absent on non-text blocks. */
  datatype Block = Block(kind: string, text: Option<string>)

  /** The `content` of a provider reply: a string, a list of typed blocks, or anything else. */
  datatype Content =
    | StrContent(s: string)
    | BlockContent(blocks: seq<Block>)
    | OtherContent

  /** One entry of the provider's `tool_calls`; `id` may be missing or empty, `args` any value. */
  datatype RawToolCall = RawToolCall(id: Option<string>, name: string, args: Value)

  datatype Response = Response(content: Content, toolCalls: Option<seq<RawToolCall>>)

  /** A normalised tool invocation `{id, toolName, parameters}`. */
  datatype ToolInvocation = ToolInvocation(id: string, toolName: string, parameters: Value)

  datatype ChatResult = ChatResult(text: string, toolCalls: seq<ToolInvocation>)

  datatype Failure =
    | TypeError
    | ProviderError(message: string)
    | TemplateNotFound(message: string)

  /** What the constructor fixes: the bound provider, the assistant's name and the prompt template text. */
  datatype Service = Service(
    llm: seq<LcMessage> -> Result<Response, string>,
    assistantName: string,
    template: string)

  /** Renders a mustache template with the variables `assistantName` and `context`. */
  type Renderer = (string, string, string) -> string

  // ---------------------------------------------------------------------
  // Construction: loading the prompt template

  function PromptFile(promptName: string): string {
    promptName + ".md"
  }

  /**
    `new AIAgentService(llm, config)`. `promptFiles` maps the file names of
    the prompts directory to their text; `parses` says whether
    `PromptTemplate.fromTemplate` accepts a text. A missing file and a
    rejected template are both reported as a missing prompt file.
   */
  function NewService(llm: seq<LcMessage> -> Result<Response, string>, assistantName: string,
                      systemPrompt: string, promptFiles: map<string, string>,
                      parses: string -> bool): (r: Result<Service, Failure>)
    ensures r.Ok? <==> PromptFile(systemPrompt) in promptFiles && parses(promptFiles[PromptFile(systemPrompt)])
    ensures r.Ok? ==> (r.value.template == promptFiles[PromptFile(systemPrompt)]
                       && r.value.assistantName == assistantName)
    ensures r.Err? ==> r.error == TemplateNotFound("Prompt file not found: " + systemPrompt + ".md")
  {
    var file := PromptFile(systemPrompt);
    if file in promptFiles && parses(promptFiles[file]) then
      Ok(Service(llm, assistantName, promptFiles[file]))
    else
      Err(TemplateNotFound("Prompt file not found: " + systemPrompt + ".md"))
  }

  // ---------------------------------------------------------------------
  // Prompt assembly

  const ContextPrefix: string := "The user's current context is:\n"
  const ContextSuffix: string := "\n\nUse this context to provide more relevant and personalized responses."

  /** `context && Object.keys(context).length > 0` */
  predicate HasContext(context: Value) {
    Truthy(context) && OwnEntries(context) != map[]
  }

  /** The context block substituted into the system prompt. */
  function ContextBlock(context: Value, prettyJson: Value -> string): (r: string)
    ensures r == "" <==> !HasContext(context)
  {
    if HasContext(context) then ContextPrefix + prettyJson(context) + ContextSuffix else ""
  }

  /** The context block is empty exactly when the context is falsy or has no keys. */
  lemma ContextBlockEmptyIff(context: Value, prettyJson: Value -> string)
    ensures ContextBlock(context, prettyJson) == "" <==> !HasContext(context)
    ensures HasContext(context) ==>
      var b := ContextBlock(context, prettyJson);
      b[..|ContextPrefix|] == ContextPrefix
      && b[|ContextPrefix|..|b| - |ContextSuffix|] == prettyJson(context)
      && b[|b| - |ContextSuffix|..] == ContextSuffix
  {
    if HasContext(context) {
      var b := ContextBlock(context, prettyJson);
      assert |b| > 0;
      assert b[|ContextPrefix|..|b| - |ContextSuffix|] == prettyJson(context);
    }
  }

  /** An empty object and an object with a key, the two cases of the prompt's context block. */
  lemma ContextBlockExamples(prettyJson: Value -> string)
    ensures ContextBlock(EmptyObject, prettyJson) == ""
    ensures ContextBlock(Obj(map["page" := Str("x")]), prettyJson)
         == ContextPrefix + prettyJson(Obj(map["page" := Str("x")])) + ContextSuffix
  {
    assert "page" in OwnEntries(Obj(map["page" := Str("x")]));
  }

  function SystemPrompt(svc: Service, context: Value, render: Renderer, prettyJson: Value -> string): string {
    render(svc.template, svc.assistantName, ContextBlock(context, prettyJson))
  }

  predicate IsRole(msg: Value, role: string) {
    Prop(msg, "role") == Str(role)
  }

  /** The roles that reach the model. */
  predicate KnownRole(msg: Value) {
    IsRole(msg, "user") || IsRole(msg, "assistant") || IsRole(msg, "system")
  }

  /** The message the `switch` on `msg.role` pushes, if any. */
  function RoleMessage(msg: Value): (r: Option<LcMessage>)
    ensures r.Some? <==> KnownRole(msg)
    ensures r.Some? ==> r.value.content == Prop(msg, "content")
    ensures r.Some? ==> ((r.value.HumanMessage? <==> IsRole(msg, "user"))
                         && (r.value.AIMessage? <==> IsRole(msg, "assistant")))
  {
    if IsRole(msg, "user") then Some(HumanMessage(Prop(msg, "content")))
    else if IsRole(msg, "assistant") then Some(AIMessage(Prop(msg, "content")))
    else if IsRole(msg, "system") then Some(SystemMessage(Prop(msg, "content")))
    else None
  }

  /**
    The messages pushed for the history entries, in order. Reading `role`
    of a `null` or `undefined` entry throws a TypeError.
   */
  function HistoryMessages(items: seq<Value>): (r: Result<seq<LcMessage>, Failure>)
    ensures r.Err? ==> r.error == TypeError
    ensures r.Ok? ==> |r.value| <= |items|
    decreases |items|
  {
    if items == [] then Ok([])
    else
      var last := items[|items| - 1];
      match HistoryMessages(items[..|items| - 1])
      case Err(e) => Err(e)
      case Ok(ms) =>
        if Nullish(last) then Err(TypeError)
        else match RoleMessage(last)
          case None => Ok(ms)
          case Some(m) => Ok(ms + [m])
  }

  /** `_buildMessages` as a value: system prompt, mapped history, the new user message. */
  function Assemble(prompt: string, chatHistory: Value, message: string): (r: Result<seq<LcMessage>, Failure>)
    ensures r.Err? ==> r.error == TypeError
  {
    if !chatHistory.Arr? then Err(TypeError)    // `chatHistory.forEach` is not a function
    else match HistoryMessages(chatHistory.items)
      case Err(e) => Err(e)
      case Ok(ms) => Ok([SystemMessage(Str(prompt))] + ms + [HumanMessage(Str(message))])
  }

  /** Once a prefix of the history fails, the whole history fails the same way. */
  lemma {:induction false} HistoryErrorSticks(items: seq<Value>, k: nat)
    requires k <= |items| && HistoryMessages(items[..k]).Err?
    ensures HistoryMessages(items) == HistoryMessages(items[..k])
    decreases |items| - k
  {
    if k < |items| {
      var p := items[..k + 1];
      assert p[..|p| - 1] == items[..k];
      assert HistoryMessages(p) == HistoryMessages(items[..k]);
      HistoryErrorSticks(items, k + 1);
    } else {
      assert items[..k] == items;
    }
  }

  /** The history is accepted exactly when no entry is `null` or `undefined`. */
  lemma {:induction false} HistoryOkIff(items: seq<Value>)
    ensures HistoryMessages(items).Ok? <==> forall k :: 0 <= k < |items| ==> !Nullish(items[k])
    decreases |items|
  {
    if items != [] {
      var init := items[..|items| - 1];
      HistoryOkIff(init);
      assert forall k :: 0 <= k < |init| ==> init[k] == items[k];
    }
  }

  /** The history's messages for `a + b` are those for `a` followed by those for `b`: order is kept. */
  lemma {:induction false} HistoryAppend(a: seq<Value>, b: seq<Value>)
    requires HistoryMessages(a).Ok? && HistoryMessages(b).Ok?
    ensures HistoryMessages(a + b) == Ok(HistoryMessages(a).value + HistoryMessages(b).value)
    decreases |b|
  {
    if b == [] {
      assert a + b == a;
      assert HistoryMessages(a).value + HistoryMessages(b).value == HistoryMessages(a).value;
    } else {
      var b' := b[..|b| - 1];
      assert (a + b)[..|a + b| - 1] == a + b';
      assert (a + b)[|a + b| - 1] == b[|b| - 1];
      assert HistoryMessages(b').Ok?;
      HistoryAppend(a, b');
      var x, y := HistoryMessages(a).value, HistoryMessages(b').value;
      var last := b[|b| - 1];
      assert !Nullish(last);
      match RoleMessage(last)
      case None =>
        assert HistoryMessages(b).value == y;
      case Some(m) =>
        assert HistoryMessages(b).value == y + [m];
        assert (x + y) + [m] == x + (y + [m]);
    }
  }

  /** An entry whose role is not user, assistant or system is dropped and changes nothing else. */
  lemma HistoryDropsUnknown(a: seq<Value>, e: Value, b: seq<Value>)
    requires HistoryMessages(a).Ok? && HistoryMessages(b).Ok?
    requires !Nullish(e) && !KnownRole(e)
    ensures HistoryMessages(a + [e] + b) == HistoryMessages(a + b)
  {
    assert HistoryMessages([e]) == Ok([]) by {
      assert [e][..0] == [];
    }
    HistoryAppend(a, [e]);
    assert HistoryMessages(a + [e]) == HistoryMessages(a);
    HistoryAppend(a + [e], b);
    HistoryAppend(a, b);
  }

  /** The entries whose role reaches the model. */
  function KnownEntries(items: seq<Value>): seq<Value>
    decreases |items|
  {
    if items == [] then []
    else KnownEntries(items[..|items| - 1]) + (if KnownRole(items[|items| - 1]) then [items[|items| - 1]] else [])
  }

  /** One message per known-role entry, converted in order. */
  lemma {:induction false} HistoryIsKnownEntries(items: seq<Value>)
    requires HistoryMessages(items).Ok?
    ensures |HistoryMessages(items).value| == |KnownEntries(items)|
    ensures forall k :: 0 <= k < |KnownEntries(items)| ==>
              Some(HistoryMessages(items).value[k]) == RoleMessage(KnownEntries(items)[k])
    decreases |items|
  {
    if items != [] {
      var init := items[..|items| - 1];
      HistoryIsKnownEntries(init);
    }
  }

  /** When all roles are known, every entry becomes the message at the same position. */
  lemma AllKnownKeepsEveryEntry(items: seq<Value>)
    requires forall k :: 0 <= k < |items| ==> !Nullish(items[k]) && KnownRole(items[k])
    ensures HistoryMessages(items).Ok?
    ensures |HistoryMessages(items).value| == |items|
    ensures forall k :: 0 <= k < |items| ==> Some(HistoryMessages(items).value[k]) == RoleMessage(items[k])
  {
    HistoryOkIff(items);
    HistoryIsKnownEntries(items);
    AllKnownEntries(items);
  }

  lemma {:induction false} AllKnownEntries(items: seq<Value>)
    requires forall k :: 0 <= k < |items| ==> KnownRole(items[k])
    ensures KnownEntries(items) == items
    decreases |items|
  {
    if items != [] {
      var init, last := items[..|items| - 1], items[|items| - 1];
      assert forall k :: 0 <= k < |init| ==> KnownRole(init[k]) by {
        forall k | 0 <= k < |init| ensures KnownRole(init[k]) { assert init[k] == items[k]; }
      }
      AllKnownEntries(init);
      assert KnownRole(last) by { assert last == items[|items| - 1]; }
      assert items == init + [last];
    }
  }

  /**
    The assembled list is the system prompt, one message per known-role
    history entry, then the new message as a human message.
   */
  lemma AssembleShape(prompt: string, chatHistory: Value, message: string)
    ensures Assemble(prompt, chatHistory, message).Ok? <==>
              chatHistory.Arr? && forall k :: 0 <= k < |chatHistory.items| ==> !Nullish(chatHistory.items[k])
    ensures Assemble(prompt, chatHistory, message).Ok? ==>
              var ms := Assemble(prompt, chatHistory, message).value;
              |ms| == 2 + |KnownEntries(chatHistory.items)|
              && ms[0] == SystemMessage(Str(prompt))
              && ms[|ms| - 1] == HumanMessage(Str(message))
  {
    if chatHistory.Arr? {
      HistoryOkIff(chatHistory.items);
      if HistoryMessages(chatHistory.items).Ok? {
        HistoryIsKnownEntries(chatHistory.items);
      }
    }
  }

  /** `_buildMessages`: pushes the system prompt, then each history entry's message, then the user message. */
  method BuildMessages(svc: Service, message: string, chatHistory: Value, context: Value,
                       render: Renderer, prettyJson: Value -> string)
    returns (r: Result<seq<LcMessage>, Failure>)
    ensures r == Assemble(SystemPrompt(svc, context, render, prettyJson), chatHistory, message)
  {
    var contextString := ContextBlock(context, prettyJson);
    var systemPrompt := render(svc.template, svc.assistantName, contextString);
    var messages := [SystemMessage(Str(systemPrompt))];
    if !chatHistory.Arr? {
      return Err(TypeError);
    }
    var items := chatHistory.items;
    var i := 0;
    while i < |items|
      invariant 0 <= i <= |items|
      invariant HistoryMessages(items[..i]).Ok?
      invariant messages == [SystemMessage(Str(systemPrompt))] + HistoryMessages(items[..i]).value
    {
      var msg := items[i];
      assert items[..i + 1][..i] == items[..i];
      if Nullish(msg) {
        HistoryErrorSticks(items, i + 1);
        return Err(TypeError);
      }
      if IsRole(msg, "user") {
        messages := messages + [HumanMessage(Prop(msg, "content"))];
      } else if IsRole(msg, "assistant") {
        messages := messages + [AIMessage(Prop(msg, "content"))];
      } else if IsRole(msg, "system") {
        messages := messages + [SystemMessage(Prop(msg, "content"))];
      }
      i := i + 1;
    }
    assert items[..i] == items;
    messages := messages + [HumanMessage(Str(message))];
    r := Ok(messages);
  }

  // ---------------------------------------------------------------------
  // Response normalisation

  function BlockText(b: Block): string {
    match b.text
    case Some(t) => t
    case None => ""    // `join` prints a missing text as the empty string
  }

  /** `blocks.filter(block => block.type === 'text')` */
  function TextBlocks(blocks: seq<Block>): seq<Block>
    decreases |blocks|
  {
    if blocks == [] then []
    else (if blocks[0].kind == "text" then [blocks[0]] else []) + TextBlocks(blocks[1..])
  }

  /** `.map(block => block.text).join('')` */
  function JoinTexts(blocks: seq<Block>): string
    decreases |blocks|
  {
    if blocks == [] then "" else BlockText(blocks[0]) + JoinTexts(blocks[1..])
  }

  /** `_extractTextContent` */
  function ExtractTextContent(content: Content): (r: string)
    ensures content.StrContent? ==> r == content.s
    ensures content.OtherContent? ==> r == ""
    ensures content.BlockContent? && TextBlocks(content.blocks) == [] ==> r == ""
  {
    match content
    case StrContent(s) => s
    case BlockContent(blocks) => JoinTexts(TextBlocks(blocks))
    case OtherContent => ""
  }

  lemma {:induction false} TextBlocksAppend(a: seq<Block>, b: seq<Block>)
    ensures TextBlocks(a + b) == TextBlocks(a) + TextBlocks(b)
    decreases |a|
  {
    if a != [] {
      assert (a + b)[1..] == a[1..] + b;
      TextBlocksAppend(a[1..], b);
    } else {
      assert a + b == b;
    }
  }

  lemma {:induction false} JoinTextsAppend(a: seq<Block>, b: seq<Block>)
    ensures JoinTexts(a + b) == JoinTexts(a) + JoinTexts(b)
    decreases |a|
  {
    if a != [] {
      assert (a + b)[1..] == a[1..] + b;
      JoinTextsAppend(a[1..], b);
    } else {
      assert a + b == b;
    }
  }

  /**
    Block-list text is the in-order concatenation over the blocks: text
    blocks contribute their text, every other block contributes nothing.
   */
  lemma BlockTextConcatenates(a: seq<Block>, b: seq<Block>)
    ensures ExtractTextContent(BlockContent(a + b))
         == ExtractTextContent(BlockContent(a)) + ExtractTextContent(BlockContent(b))
    ensures forall x: Block :: ExtractTextContent(BlockContent([x])) == if x.kind == "text" then BlockText(x) else ""
  {
    TextBlocksAppend(a, b);
    JoinTextsAppend(TextBlocks(a), TextBlocks(b));
    forall x: Block ensures ExtractTextContent(BlockContent([x])) == if x.kind == "text" then BlockText(x) else "" {
      assert [x][1..] == [];
      assert TextBlocks([x]) == if x.kind == "text" then [x] else [];
      assert JoinTexts([x]) == BlockText(x);
    }
  }

  /** A block list with only non-text blocks (tool-use blocks, say) gives the empty text. */
  lemma {:induction false} NoTextBlocksNoText(blocks: seq<Block>)
    requires forall k :: 0 <= k < |blocks| ==> blocks[k].kind != "text"
    ensures TextBlocks(blocks) == [] && ExtractTextContent(BlockContent(blocks)) == ""
    decreases |blocks|
  {
    if blocks != [] {
      NoTextBlocksNoText(blocks[1..]);
    }
  }

  function RawCalls(response: Response): seq<RawToolCall> {
    match response.toolCalls
    case Some(calls) => calls
    case None => []
  }

  /** `call_<timestamp>_<random>` */
  function SynthesizedId(stamp: string, random: string): (id: string)
    ensures id != ""
  {
    "call_" + stamp + "_" + random
  }

  /** A provided non-empty id is kept, otherwise the synthesized one is used. */
  function NormalizedCall(raw: RawToolCall, synthesized: string): (c: ToolInvocation)
    ensures c.toolName == raw.name
    ensures synthesized != "" ==> c.id != ""
  {
    ToolInvocation(
      if raw.id.Some? && raw.id.value != "" then raw.id.value else synthesized,
      raw.name,
      Or(raw.args, EmptyObject))
  }

  /**
    The normalised tool calls of a reply. `stamp(k)` and `random(k)` stand
    for the `Date.now()` and `Math.random()` texts read for the k-th call.
   */
  function ToolCallsOf(response: Response, stamp: nat -> string, random: nat -> string): (r: seq<ToolInvocation>)
    ensures |r| == |RawCalls(response)|
    ensures forall k :: 0 <= k < |r| ==> r[k].toolName == RawCalls(response)[k].name && r[k].id != ""
  {
    var raw := RawCalls(response);
    var calls := seq(|raw|, k requires 0 <= k < |raw| => NormalizedCall(raw[k], SynthesizedId(stamp(k), random(k))));
    assert forall k :: 0 <= k < |calls| ==> calls[k] == NormalizedCall(raw[k], SynthesizedId(stamp(k), random(k)));
    calls
  }

  /** `_extractToolCalls` */
  method ExtractToolCalls(response: Response, stamp: nat -> string, random: nat -> string)
    returns (calls: seq<ToolInvocation>)
    ensures calls == ToolCallsOf(response, stamp, random)
    ensures response.toolCalls.None? || response.toolCalls == Some([]) ==> calls == []
    ensures |calls| == |RawCalls(response)|
    ensures forall k :: 0 <= k < |calls| ==>
              var raw := RawCalls(response)[k];
              && calls[k].toolName == raw.name
              && calls[k].parameters == (if Truthy(raw.args) then raw.args else EmptyObject)
              && calls[k].id == (if raw.id.Some? && raw.id.value != "" then raw.id.value
                                 else SynthesizedId(stamp(k), random(k)))
              && calls[k].id != ""
  {
    calls := [];
    if response.toolCalls.Some? && |response.toolCalls.value| > 0 {
      var raw := response.toolCalls.value;
      for i := 0 to |raw|
        invariant |calls| == i
        invariant forall k :: 0 <= k < i ==> calls[k] == NormalizedCall(raw[k], SynthesizedId(stamp(k), random(k)))
      {
        var toolCall := raw[i];
        var id := if toolCall.id.Some? && toolCall.id.value != "" then toolCall.id.value
                  else SynthesizedId(stamp(i), random(i));
        calls := calls + [ToolInvocation(id, toolCall.name, Or(toolCall.args, EmptyObject))];
      }
    }
  }

  // ---------------------------------------------------------------------
  // One turn

  /** What `processChat` resolves to, or the error it rejects with. */
  function ChatOutcome(svc: Service, message: string, chatHistory: Value, context: Value,
                       render: Renderer, prettyJson: Value -> string,
                       stamp: nat -> string, random: nat -> string): (r: Result<ChatResult, Failure>)
    ensures r.Err? ==> r.error == TypeError || r.error.ProviderError?
    ensures r.Ok? ==> forall k :: 0 <= k < |r.value.toolCalls| ==> r.value.toolCalls[k].id != ""
  {
    var history := Default(chatHistory, Arr([]));
    var ctx := Default(context, EmptyObject);
    match Assemble(SystemPrompt(svc, ctx, render, prettyJson), history, message)
    case Err(e) => Err(e)
    case Ok(messages) =>
      match svc.llm(messages)
      case Err(why) => Err(ProviderError(why))
      case Ok(response) => Ok(ChatResult(ExtractTextContent(response.content), ToolCallsOf(response, stamp, random)))
  }

  /** A successful turn returns exactly the text and the tool calls of the provider's reply. */
  lemma ChatOutcomeOk(svc: Service, message: string, chatHistory: Value, context: Value,
                      render: Renderer, prettyJson: Value -> string,
                      stamp: nat -> string, random: nat -> string)
    requires ChatOutcome(svc, message, chatHistory, context, render, prettyJson, stamp, random).Ok?
    ensures var history := Default(chatHistory, Arr([]));
            var prompt := SystemPrompt(svc, Default(context, EmptyObject), render, prettyJson);
            var messages := Assemble(prompt, history, message).value;
            && Assemble(prompt, history, message).Ok?
            && |messages| == 2 + |KnownEntries(history.items)|
            && messages[|messages| - 1] == HumanMessage(Str(message))
            && svc.llm(messages).Ok?
            && var r := ChatOutcome(svc, message, chatHistory, context, render, prettyJson, stamp, random).value;
               r.text == ExtractTextContent(svc.llm(messages).value.content)
               && |r.toolCalls| == |RawCalls(svc.llm(messages).value)|
  {
    var history := Default(chatHistory, Arr([]));
    var prompt := SystemPrompt(svc, Default(context, EmptyObject), render, prettyJson);
    AssembleShape(prompt, history, message);
  }

  /** `processChat`: build the messages, invoke the provider, extract text and tool calls. */
  method ProcessChat(svc: Service, message: string, chatHistory: Value, context: Value,
                     render: Renderer, prettyJson: Value -> string,
                     stamp: nat -> string, random: nat -> string)
    returns (r: Result<ChatResult, Failure>)
    ensures r == ChatOutcome(svc, message, chatHistory, context, render, prettyJson, stamp, random)
    ensures r.Err? && r.error.ProviderError? ==>
              var prompt := SystemPrompt(svc, Default(context, EmptyObject), render, prettyJson);
              var messages := Assemble(prompt, Default(chatHistory, Arr([])), message);
              messages.Ok? && svc.llm(messages.value) == Err(r.error.message)
  {
    var history := Default(chatHistory, Arr([]));
    var ctx := Default(context, EmptyObject);
    var messages := BuildMessages(svc, message, history, ctx, render, prettyJson);
    if messages.Err? {
      return Err(messages.error);
    }
    var response := svc.llm(messages.value);
    if response.Err? {
      return Err(ProviderError(response.error));
    }
    var text := ExtractTextContent(response.value.content);
    var toolCalls := ExtractToolCalls(response.value, stamp, random);
    r := Ok(ChatResult(text, toolCalls));
  }
}
