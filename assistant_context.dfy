/**
  The client's session state (the AIAssistantProvider): the context
  snapshot sent with every chat turn, the per-tool-name result list, and
  the agent-initiated messages with their unread flag.

  `Date.now()` and `new Date().toISOString()` are passed in as text.
 */
module AssistantContext {
  import opened Values
  import opened ToolsConfig
  import opened ToolHandler

  /** `{toolName, toolId, data}` */
  datatype ToolResult = ToolResult(toolName: string, toolId: string, data: Value)

  /**
    An agent message `{id, content, timestamp, read, ...options}`. Options
    are spread last, so they may replace any of the four fields; their
    other properties (such as `title`) are kept in `extra`.
   */
  datatype AgentMessage = AgentMessage(id: Value, content: Value, timestamp: Value, read: Value, extra: map<string, Value>)

  /** The argument of `setContext`: an object to merge, or a function of the previous context. */
  datatype ContextUpdate = Patch(value: Value) | Updater(f: Value -> Value)

  // ---------------------------------------------------------------------
  // Context

  /** The context after `setContext(update)`: a shallow merge in which the new values win. */
  function MergeContext(previous: Value, update: ContextUpdate): (r: Value)
    ensures var patch := if update.Patch? then update.value else update.f(previous);
            && r.Obj?
            && r.fields.Keys == OwnEntries(previous).Keys + OwnEntries(patch).Keys
            && (forall k :: k in OwnEntries(patch) ==> r.fields[k] == OwnEntries(patch)[k])
            && (forall k :: k in OwnEntries(previous) && k !in OwnEntries(patch) ==> r.fields[k] == OwnEntries(previous)[k])
  {
    match update
    case Patch(v) => Spread(previous, v)
    case Updater(f) => Spread(previous, f(previous))
  }

  /** Two merges in a row are one merge of the two patches, the later one winning. */
  lemma MergeTwice(previous: Value, a: Value, b: Value)
    ensures MergeContext(MergeContext(previous, Patch(a)), Patch(b)) == MergeContext(previous, Patch(Spread(a, b)))
  {
    var p, ea, eb := OwnEntries(previous), OwnEntries(a), OwnEntries(b);
    assert MergeContext(MergeContext(previous, Patch(a)), Patch(b)) == Obj(p + ea + eb) by {
      assert MergeContext(previous, Patch(a)) == Obj(p + ea);
    }
    assert MergeContext(previous, Patch(Spread(a, b))) == Obj(p + (ea + eb)) by {
      assert Spread(a, b) == Obj(ea + eb);
    }
    UnionAssociative(p, ea, eb);
  }

  lemma UnionAssociative<K, V>(x: map<K, V>, y: map<K, V>, z: map<K, V>)
    ensures x + y + z == x + (y + z)
  {
  }

  /** Merging over the empty context gives the patch's own properties, whatever the context was replaced by before. */
  lemma MergeAfterClear(v: Value)
    ensures MergeContext(EmptyObject, Patch(v)) == Obj(OwnEntries(v))
  {
    assert map[] + OwnEntries(v) == OwnEntries(v);
  }

  // ---------------------------------------------------------------------
  // Tool results

  /** `findIndex(item => item.toolName === name)` */
  function FindIndex(s: seq<ToolResult>, name: string): (i: int)
    ensures -1 <= i < |s|
    ensures i == -1 <==> forall k :: 0 <= k < |s| ==> s[k].toolName != name
    ensures i >= 0 ==> s[i].toolName == name && forall k :: 0 <= k < i ==> s[k].toolName != name
    decreases |s|
  {
    if s == [] then -1
    else if s[0].toolName == name then 0
    else
      var j := FindIndex(s[1..], name);
      if j == -1 then -1 else j + 1
  }

  /** The result list after `addToolResult(r)`: the first entry of that name is replaced in place, else `r` is appended. */
  function Upsert(s: seq<ToolResult>, r: ToolResult): (u: seq<ToolResult>)
    ensures FindIndex(s, r.toolName) >= 0 ==>
              var i := FindIndex(s, r.toolName);
              |u| == |s| && u[i] == r && forall k :: 0 <= k < |s| && k != i ==> u[k] == s[k]
    ensures FindIndex(s, r.toolName) == -1 ==> u == s + [r]
  {
    var i := FindIndex(s, r.toolName);
    if i != -1 then s[i := r] else s + [r]
  }

  /** `filter(item => item.toolName !== name)` */
  function RemoveNamed(s: seq<ToolResult>, name: string): (r: seq<ToolResult>)
    ensures |r| <= |s|
    ensures forall k :: 0 <= k < |r| ==> r[k].toolName != name
    decreases |s|
  {
    if s == [] then []
    else (if s[0].toolName != name then [s[0]] else []) + RemoveNamed(s[1..], name)
  }

  predicate NamesUnique(s: seq<ToolResult>) {
    forall i, j :: 0 <= i < j < |s| ==> s[i].toolName != s[j].toolName
  }

  predicate HasName(s: seq<ToolResult>, name: string) {
    exists k :: 0 <= k < |s| && s[k].toolName == name
  }

  /** Removal keeps every other entry, in order: it distributes over concatenation. */
  lemma {:induction false} RemoveNamedAppend(a: seq<ToolResult>, b: seq<ToolResult>, name: string)
    ensures RemoveNamed(a + b, name) == RemoveNamed(a, name) + RemoveNamed(b, name)
    decreases |a|
  {
    if a == [] {
      assert a + b == b;
    } else {
      assert (a + b)[1..] == a[1..] + b;
      RemoveNamedAppend(a[1..], b, name);
    }
  }

  /** What removal leaves: exactly the entries of other names. */
  lemma {:induction false} RemoveNamedContents(s: seq<ToolResult>, name: string)
    ensures !HasName(RemoveNamed(s, name), name)
    ensures forall x :: x in RemoveNamed(s, name) <==> x in s && x.toolName != name
    ensures |RemoveNamed(s, name)| <= |s|
    decreases |s|
  {
    if s != [] {
      RemoveNamedContents(s[1..], name);
      var t := RemoveNamed(s, name);
      assert t == (if s[0].toolName != name then [s[0]] else []) + RemoveNamed(s[1..], name);
      forall x ensures x in s <==> x == s[0] || x in s[1..] {
        assert s == [s[0]] + s[1..];
      }
    }
  }

  /** Removing a name that is absent changes nothing. */
  lemma {:induction false} RemoveAbsentIsNoOp(s: seq<ToolResult>, name: string)
    requires !HasName(s, name)
    ensures RemoveNamed(s, name) == s
    decreases |s|
  {
    if s != [] {
      assert !HasName(s[1..], name) by {
        forall k | 0 <= k < |s[1..]| ensures s[1..][k].toolName != name {
          assert s[1..][k] == s[k + 1];
        }
      }
      RemoveAbsentIsNoOp(s[1..], name);
      assert s == [s[0]] + s[1..];
    }
  }

  /** `removeToolResult` is idempotent. */
  lemma RemoveIdempotent(s: seq<ToolResult>, name: string)
    ensures RemoveNamed(RemoveNamed(s, name), name) == RemoveNamed(s, name)
  {
    RemoveNamedContents(s, name);
    RemoveAbsentIsNoOp(RemoveNamed(s, name), name);
  }

  lemma UpsertKeepsUnique(s: seq<ToolResult>, r: ToolResult)
    requires NamesUnique(s)
    ensures NamesUnique(Upsert(s, r))
  {
  }

  lemma {:induction false} RemoveKeepsUnique(s: seq<ToolResult>, name: string)
    requires NamesUnique(s)
    ensures NamesUnique(RemoveNamed(s, name))
    decreases |s|
  {
    if s != [] {
      RemoveKeepsUnique(s[1..], name);
      RemoveNamedContents(s[1..], name);
      var t := RemoveNamed(s[1..], name);
      if s[0].toolName != name {
        forall k | 0 <= k < |t| ensures t[k].toolName != s[0].toolName {
          assert t[k] in s[1..];
        }
      }
    }
  }

  /** The operations a session applies to its result list. */
  datatype ToolOp = AddOp(result: ToolResult) | RemoveOp(name: string) | ClearOp

  function ApplyOp(s: seq<ToolResult>, op: ToolOp): seq<ToolResult> {
    match op
    case AddOp(r) => Upsert(s, r)
    case RemoveOp(n) => RemoveNamed(s, n)
    case ClearOp => []
  }

  function ApplyOps(s: seq<ToolResult>, ops: seq<ToolOp>): seq<ToolResult>
    decreases |ops|
  {
    if ops == [] then s else ApplyOps(ApplyOp(s, ops[0]), ops[1..])
  }

  /** Starting from the empty list, any sequence of adds, removes and clears keeps at most one entry per tool name. */
  lemma {:induction false} OpsKeepNamesUnique(s: seq<ToolResult>, ops: seq<ToolOp>)
    requires NamesUnique(s)
    ensures NamesUnique(ApplyOps(s, ops))
    decreases |ops|
  {
    if ops != [] {
      match ops[0] {
        case AddOp(r) => UpsertKeepsUnique(s, r);
        case RemoveOp(n) => RemoveKeepsUnique(s, n);
        case ClearOp =>
      }
      OpsKeepNamesUnique(ApplyOp(s, ops[0]), ops[1..]);
    }
  }

  function AddAll(s: seq<ToolResult>, rs: seq<ToolResult>): seq<ToolResult>
    decreases |rs|
  {
    if rs == [] then s else AddAll(Upsert(s, rs[0]), rs[1..])
  }

  /** Adding two runs of results is adding the first, then the second. */
  lemma {:induction false} AddAllAppend(s: seq<ToolResult>, rs: seq<ToolResult>, more: seq<ToolResult>)
    ensures AddAll(s, rs + more) == AddAll(AddAll(s, rs), more)
    decreases |rs|
  {
    if rs == [] {
      assert rs + more == more;
    } else {
      assert (rs + more)[1..] == rs[1..] + more;
      AddAllAppend(Upsert(s, rs[0]), rs[1..], more);
    }
  }

  /**
    Adding several results that share a tool name leaves one entry for it,
    at the index where the name first appeared, holding the latest result.
   */
  lemma {:induction false} RepeatedAddsKeepFirstIndex(s: seq<ToolResult>, rs: seq<ToolResult>, name: string)
    requires |rs| > 0 && forall k :: 0 <= k < |rs| ==> rs[k].toolName == name
    ensures var i := FindIndex(s, name);
            AddAll(s, rs) == if i >= 0 then s[i := rs[|rs| - 1]] else s + [rs[|rs| - 1]]
    decreases |rs|
  {
    var last := rs[|rs| - 1];
    if |rs| > 1 {
      var more := rs[1..];
      assert AddAll(s, rs) == AddAll(Upsert(s, rs[0]), more);
      assert more[|more| - 1] == last;
      RepeatedAddsKeepFirstIndex(Upsert(s, rs[0]), more, name);
      UpsertSameNameTwice(s, rs[0], last);
    }
  }

  /** A second result of the same name overwrites the first where it stands. */
  lemma UpsertSameNameTwice(s: seq<ToolResult>, a: ToolResult, b: ToolResult)
    requires a.toolName == b.toolName
    ensures Upsert(Upsert(s, a), b) == Upsert(s, b)
  {
    var i := FindIndex(s, a.toolName);
    var s1 := Upsert(s, a);
    if i >= 0 {
      assert FindIndex(s1, a.toolName) == i by {
        assert forall k :: 0 <= k < i ==> s1[k] == s[k];
      }
      assert s1[i := b] == s[i := b];
    } else {
      assert FindIndex(s1, a.toolName) == |s| by {
        assert s1 == s + [a];
        assert s1[|s|].toolName == a.toolName;
        assert forall k :: 0 <= k < |s| ==> s1[k] == s[k];
      }
      assert s1[|s| := b] == s + [b];
    }
  }

  // ---------------------------------------------------------------------
  // Derived views

  /** `toolResults.filter(tool => getToolRenderLocation(tool.toolName) === location)` */
  function AtLocation(s: seq<ToolResult>, registry: map<string, ToolEntry>, location: string): seq<ToolResult>
    decreases |s|
  {
    if s == [] then []
    else (if GetToolRenderLocation(registry, s[0].toolName) == location then [s[0]] else [])
         + AtLocation(s[1..], registry, location)
  }

  /** A view is an order-preserving filter: it distributes over concatenation, and holds only entries of its location. */
  lemma {:induction false} AtLocationAppend(a: seq<ToolResult>, b: seq<ToolResult>, registry: map<string, ToolEntry>, location: string)
    ensures AtLocation(a + b, registry, location) == AtLocation(a, registry, location) + AtLocation(b, registry, location)
    decreases |a|
  {
    if a == [] {
      assert a + b == b;
    } else {
      var head := if GetToolRenderLocation(registry, a[0].toolName) == location then [a[0]] else [];
      assert AtLocation(a + b, registry, location) == head + AtLocation(a[1..] + b, registry, location) by {
        assert (a + b)[0] == a[0] && (a + b)[1..] == a[1..] + b;
      }
      AtLocationAppend(a[1..], b, registry, location);
      assert head + (AtLocation(a[1..], registry, location) + AtLocation(b, registry, location))
          == head + AtLocation(a[1..], registry, location) + AtLocation(b, registry, location);
    }
  }

  lemma {:induction false} AtLocationMembers(s: seq<ToolResult>, registry: map<string, ToolEntry>, location: string)
    ensures forall x :: x in AtLocation(s, registry, location) <==>
              x in s && GetToolRenderLocation(registry, x.toolName) == location
    decreases |s|
  {
    if s != [] {
      AtLocationMembers(s[1..], registry, location);
      assert s == [s[0]] + s[1..];
    }
  }

  /**
    The drawer and component-area views are disjoint, and when every
    registered location is one of the two surfaces they split the whole
    list between them.
   */
  lemma {:induction false} ViewsPartition(s: seq<ToolResult>, registry: map<string, ToolEntry>)
    ensures forall x :: !(x in AtLocation(s, registry, DrawerLocation) && x in AtLocation(s, registry, ComponentAreaLocation))
    ensures LocationsWellFormed(registry) ==>
              |AtLocation(s, registry, DrawerLocation)| + |AtLocation(s, registry, ComponentAreaLocation)| == |s|
    decreases |s|
  {
    AtLocationMembers(s, registry, DrawerLocation);
    AtLocationMembers(s, registry, ComponentAreaLocation);
    if s != [] {
      ViewsPartition(s[1..], registry);
      if LocationsWellFormed(registry) {
        RenderLocationIsASurface(registry, s[0].toolName);
      }
    }
  }

  // ---------------------------------------------------------------------
  // Agent messages

  const ReplacedByOptions: set<string> := {"id", "content", "timestamp", "read"}

  /** `{id: 'agent_msg_' + now, content: message, timestamp, read: false, ...options}` */
  function NewAgentMessage(message: Value, options: Value, now: string, timestamp: string): (m: AgentMessage)
    ensures var o := OwnEntries(options);
            && m.content == (if "content" in o then o["content"] else message)
            && m.read == (if "read" in o then o["read"] else Bool(false))
            && m.id == (if "id" in o then o["id"] else Str("agent_msg_" + now))
            && m.timestamp == (if "timestamp" in o then o["timestamp"] else Str(timestamp))
            && m.extra.Keys == o.Keys - ReplacedByOptions
            && forall k :: k in m.extra ==> m.extra[k] == o[k]
  {
    var o := OwnEntries(options);
    AgentMessage(
      if "id" in o then o["id"] else Str("agent_msg_" + now),
      if "content" in o then o["content"] else message,
      if "timestamp" in o then o["timestamp"] else Str(timestamp),
      if "read" in o then o["read"] else Bool(false),
      o - ReplacedByOptions)
  }

  predicate Unread(m: AgentMessage) {
    !Truthy(m.read)
  }

  /** `prev.map(msg => ({...msg, read: true}))` */
  function MarkAllRead(ms: seq<AgentMessage>): (r: seq<AgentMessage>)
    ensures |r| == |ms|
    ensures forall k :: 0 <= k < |ms| ==> r[k] == ms[k].(read := Bool(true))
  {
    seq(|ms|, k requires 0 <= k < |ms| => ms[k].(read := Bool(true)))
  }

  /** `agentMessages.filter(msg => !msg.read)` */
  function UnreadOf(ms: seq<AgentMessage>): (r: seq<AgentMessage>)
    ensures |r| <= |ms|
    ensures forall k :: 0 <= k < |r| ==> Unread(r[k])
    decreases |ms|
  {
    if ms == [] then []
    else UnreadOf(ms[..|ms| - 1]) + (if Unread(ms[|ms| - 1]) then [ms[|ms| - 1]] else [])
  }

  lemma {:induction false} UnreadOfAllRead(ms: seq<AgentMessage>)
    requires forall k :: 0 <= k < |ms| ==> !Unread(ms[k])
    ensures UnreadOf(ms) == []
    decreases |ms|
  {
    if ms != [] {
      UnreadOfAllRead(ms[..|ms| - 1]);
    }
  }

  /** After marking all read, one pushed message (not marked read by its options) is the only unread one. */
  lemma MarkReadThenPush(ms: seq<AgentMessage>, message: Value, options: Value, now: string, timestamp: string)
    requires "read" !in OwnEntries(options) || !Truthy(OwnEntries(options)["read"])
    ensures UnreadOf(MarkAllRead(ms) + [NewAgentMessage(message, options, now, timestamp)])
         == [NewAgentMessage(message, options, now, timestamp)]
  {
    var all := MarkAllRead(ms) + [NewAgentMessage(message, options, now, timestamp)];
    assert all[..|all| - 1] == MarkAllRead(ms);
    UnreadOfAllRead(MarkAllRead(ms));
  }

  // ---------------------------------------------------------------------
  // The provider's state

  class AssistantSession {
    var context: Value
    var toolResults: seq<ToolResult>
    var agentMessages: seq<AgentMessage>
    var hasUnreadAgentMessages: bool

    /** The result list never holds two entries for one tool name. */
    ghost predicate Valid()
      reads this
    {
      NamesUnique(toolResults)
    }

    constructor ()
      ensures Valid()
      ensures context == EmptyObject && toolResults == [] && agentMessages == [] && !hasUnreadAgentMessages
    {
      context := EmptyObject;
      toolResults := [];
      agentMessages := [];
      hasUnreadAgentMessages := false;
    }

    /** `setContext`: shallow merge, new values winning; a function argument is applied to the previous context first. */
    method SetContext(update: ContextUpdate)
      modifies this`context
      ensures context == MergeContext(old(context), update)
      ensures context.Obj?
      ensures update.Patch? ==> context.fields.Keys == OwnEntries(old(context)).Keys + OwnEntries(update.value).Keys
    {
      context := MergeContext(context, update);
    }

    /** `clearContext` */
    method ClearContext()
      modifies this`context
      ensures context == EmptyObject
    {
      context := EmptyObject;
    }

    /** `replaceContext(newContext)`: `newContext || {}`, so any falsy value gives the empty object. */
    method ReplaceContext(newContext: Value)
      modifies this`context
      ensures Truthy(newContext) ==> context == newContext
      ensures !Truthy(newContext) ==> context == EmptyObject
    {
      context := Or(newContext, EmptyObject);
    }

    /** `addToolResult` */
    method AddToolResult(result: ToolResult)
      requires Valid()
      modifies this`toolResults
      ensures Valid()
      ensures toolResults == Upsert(old(toolResults), result)
      ensures |toolResults| == if HasName(old(toolResults), result.toolName) then |old(toolResults)| else |old(toolResults)| + 1
    {
      var existingIndex := FindIndex(toolResults, result.toolName);
      if existingIndex != -1 {
        toolResults := toolResults[existingIndex := result];
      } else {
        toolResults := toolResults + [result];
      }
      UpsertKeepsUnique(old(toolResults), result);
    }

    /** `removeToolResult` */
    method RemoveToolResult(toolName: string)
      requires Valid()
      modifies this`toolResults
      ensures Valid()
      ensures toolResults == RemoveNamed(old(toolResults), toolName)
      ensures !HasName(toolResults, toolName)
    {
      RemoveKeepsUnique(toolResults, toolName);
      RemoveNamedContents(toolResults, toolName);
      toolResults := RemoveNamed(toolResults, toolName);
    }

    /** `clearToolResults` */
    method ClearToolResults()
      modifies this`toolResults
      ensures Valid() && toolResults == []
    {
      toolResults := [];
    }

    /** `sendAgentMessage(message, options)`; `now` and `timestamp` are the clock's two readings. */
    method SendAgentMessage(message: Value, options: Value, now: string, timestamp: string)
      modifies this`agentMessages, this`hasUnreadAgentMessages
      ensures agentMessages == old(agentMessages) + [NewAgentMessage(message, options, now, timestamp)]
      ensures hasUnreadAgentMessages
    {
      agentMessages := agentMessages + [NewAgentMessage(message, options, now, timestamp)];
      hasUnreadAgentMessages := true;
    }

    /** `markAgentMessagesAsRead` */
    method MarkAgentMessagesAsRead()
      modifies this`agentMessages, this`hasUnreadAgentMessages
      ensures agentMessages == MarkAllRead(old(agentMessages))
      ensures UnreadOf(agentMessages) == []
      ensures !hasUnreadAgentMessages
    {
      agentMessages := MarkAllRead(agentMessages);
      hasUnreadAgentMessages := false;
      UnreadOfAllRead(agentMessages);
    }

    /** `clearAgentMessages` */
    method ClearAgentMessages()
      modifies this`agentMessages, this`hasUnreadAgentMessages
      ensures agentMessages == [] && !hasUnreadAgentMessages
    {
      agentMessages := [];
      hasUnreadAgentMessages := false;
    }

    /** `drawerTools` */
    function DrawerTools(registry: map<string, ToolEntry>): (r: seq<ToolResult>)
      reads this
      ensures forall x :: x in r <==> x in toolResults && GetToolRenderLocation(registry, x.toolName) == DrawerLocation
    {
      AtLocationMembers(toolResults, registry, DrawerLocation);
      AtLocation(toolResults, registry, DrawerLocation)
    }

    /** `componentAreaTools` */
    function ComponentAreaTools(registry: map<string, ToolEntry>): (r: seq<ToolResult>)
      reads this
      ensures forall x :: x in r <==> x in toolResults && GetToolRenderLocation(registry, x.toolName) == ComponentAreaLocation
    {
      AtLocationMembers(toolResults, registry, ComponentAreaLocation);
      AtLocation(toolResults, registry, ComponentAreaLocation)
    }
  }
}
