/** The Codex provider's stream state (internal/provider/codex/provider.go): one consumer of
    Responses events serves both the streamed and the collected answer. */
module CodexStream {
  import opened Bytes

  datatype Usage = Usage(prompt: int, completion: int, total: int, cached: int, reasoning: int, cacheCreation: int, present: bool)

  const NO_USAGE: Usage := Usage(0, 0, 0, 0, 0, 0, false)

  datatype Item = Item(kind: string, id: string, callId: Option<string>, name: string, arguments: string, reasoning: string)

  datatype Response = Response(id: string, model: string, usage: Option<Usage>)

  /** A decoded Responses event; an absent string reads as "". */
  datatype Event = Event(
    kind: string,
    delta: string,
    itemId: string,
    item: Option<Item>,
    outputIndex: Option<int>,
    response: Option<Response>)

  /** The event types consume tells apart. */
  datatype Kind = Started | TextDelta | ReasoningDelta | ItemAdded | ArgumentsDelta | ItemDone | Completed | Truncated | Failure | Other

  function KindOf(name: string): Kind {
    if name == "response.created" || name == "response.in_progress" then Started
    else if name == "response.output_text.delta" then TextDelta
    else if name == "response.reasoning_summary_text.delta" || name == "response.reasoning_content_text.delta"
            || name == "response.reasoning_text.delta" then ReasoningDelta
    else if name == "response.output_item.added" then ItemAdded
    else if name == "response.function_call_arguments.delta" then ArgumentsDelta
    else if name == "response.output_item.done" then ItemDone
    else if name == "response.completed" || name == "response.done" then Completed
    else if name == "response.incomplete" then Truncated
    else if name == "response.failed" || name == "error" then Failure
    else Other
  }

  predicate EmitsChunk(k: Kind) {
    k.TextDelta? || k.ReasoningDelta? || k.ItemAdded? || k.ArgumentsDelta? || k.Completed? || k.Truncated?
  }

  /** The delta of one streamed chunk. */
  datatype Part =
    | Role
    | Content(text: string)
    | Reasoning(text: string)
    | NewCall(index: nat, id: string, name: string, arguments: string)
    | MoreArguments(index: nat, arguments: string)
    | Finish(reason: string, usage: Usage)

  datatype Chunk = Chunk(id: string, model: string, part: Part)

  datatype ToolCall = ToolCall(id: string, itemId: string, name: string, arguments: string)

  /** streamState. A call is known by its position: the pointers of the item and output tables
      are positions in calls. */
  datatype State = State(
    id: string,
    model: string,
    roleSent: bool,
    text: string,
    reasoning: string,
    calls: seq<ToolCall>,
    byItem: map<string, nat>,
    byOutput: map<int, nat>,
    finishReason: string,
    usage: Usage,
    events: nat,
    completed: bool,
    failed: bool)

  function NewState(id: string, model: string): State {
    State(id, model, false, "", "", [], map[], map[], "", NO_USAGE, 0, false, false)
  }

  // ---------------------------------------------------------------- tool calls

  function FirstWithId(calls: seq<ToolCall>, id: string): (r: Option<nat>)
    ensures r.Some? ==> r.value < |calls|
  {
    if calls == [] then None
    else if calls[0].id == id then Some(0)
    else
      match FirstWithId(calls[1..], id) case None => None case Some(i) => Some(i + 1)
  }

  function ByOutput(s: State, index: int): Option<nat> {
    if index in s.byOutput then Some(s.byOutput[index]) else None
  }

  /** findToolCall: by item id of the event, by item, by call id, by output index, or the only call. */
  function FindCall(s: State, e: Event): Option<nat> {
    if e.itemId in s.byItem then Some(s.byItem[e.itemId])
    else if e.item.Some? && e.item.value.id in s.byItem then Some(s.byItem[e.item.value.id])
    else
      var byId := if e.item.Some? && e.item.value.callId.Some? then FirstWithId(s.calls, e.item.value.callId.value) else None;
      if byId.Some? then byId
      else if e.outputIndex.Some? then ByOutput(s, e.outputIndex.value)
      else if |s.calls| == 1 then Some(0)
      else None
  }

  /** addToolCall; random names a call that came without an id. */
  function AddCall(random: nat -> string, s: State, e: Event, item: Item, arguments: string): State {
    var index := |s.calls|;
    var id := if item.callId.Some? && item.callId.value != "" then item.callId.value else "call_" + random(index);
    s.(calls := s.calls + [ToolCall(id, item.id, item.name, arguments)],
       byItem := if item.id != "" then s.byItem[item.id := index] else s.byItem,
       byOutput := if e.outputIndex.Some? then s.byOutput[e.outputIndex.value := index] else s.byOutput)
  }

  function Extend(s: State, index: nat, arguments: string): State {
    if index >= |s.calls| then s
    else
      var call := s.calls[index];
      s.(calls := s.calls[index := call.(arguments := call.arguments + arguments)])
  }

  // ---------------------------------------------------------------- one event

  function Named(s: State, e: Event): State {
    if e.response.None? then s
    else
      var r := e.response.value;
      s.(id := if r.id != "" then r.id else s.id, model := if r.model != "" then r.model else s.model)
  }

  function Announce(s: State): Part
    requires s.calls != []
  {
    var call := s.calls[|s.calls| - 1];
    NewCall(|s.calls| - 1, call.id, call.name, call.arguments)
  }

  function OnAdded(random: nat -> string, s: State, e: Event): (State, Option<Part>) {
    if e.item.None? || e.item.value.kind != "function_call" then (s, None)
    else
      var s1 := AddCall(random, s, e, e.item.value, "");
      (s1, Some(Announce(s1)))
  }

  function OnArguments(s: State, e: Event): (State, Option<Part>) {
    var found := FindCall(s, e);
    if found.None? || e.delta == "" then (s, None)
    else (Extend(s, found.value, e.delta), Some(MoreArguments(found.value, e.delta)))
  }

  function OnDone(random: nat -> string, s: State, e: Event): (State, Option<Part>) {
    if e.item.None? then (s, None)
    else
      var item := e.item.value;
      if item.kind == "reasoning" && s.reasoning == "" && item.reasoning != "" then
        (s.(reasoning := item.reasoning), Some(Reasoning(item.reasoning)))
      else if item.kind != "function_call" then (s, None)
      else
        var found := FindCall(s, e);
        if found.None? then
          var s1 := AddCall(random, s, e, item, item.arguments);
          (s1, Some(Announce(s1)))
        else if found.value < |s.calls| && s.calls[found.value].arguments == "" && item.arguments != "" then
          (Extend(s, found.value, item.arguments), Some(MoreArguments(found.value, item.arguments)))
        else (s, None)
  }

  function OnEnd(s: State, e: Event, truncated: bool): (State, Option<Part>) {
    var s1 := Named(s, e).(completed := true);
    var s2 := if e.response.Some? && e.response.value.usage.Some? then s1.(usage := e.response.value.usage.value) else s1;
    var s3 := s2.(finishReason := if truncated then "length" else if s2.calls != [] then "tool_calls" else "stop");
    (s3, Some(Finish(s3.finishReason, s3.usage)))
  }

  function OnEvent(random: nat -> string, s: State, e: Event): (State, Option<Part>) {
    OnKind(random, s, e, KindOf(e.kind))
  }

  function OnKind(random: nat -> string, s: State, e: Event, kind: Kind): (State, Option<Part>) {
    match kind
    case Started => (Named(s, e), None)
    case TextDelta => if e.delta == "" then (s, None) else (s.(text := s.text + e.delta), Some(Content(e.delta)))
    case ReasoningDelta => if e.delta == "" then (s, None) else (s.(reasoning := s.reasoning + e.delta), Some(Reasoning(e.delta)))
    case ItemAdded => OnAdded(random, s, e)
    case ArgumentsDelta => OnArguments(s, e)
    case ItemDone => OnDone(random, s, e)
    case Completed => OnEnd(s, e, false)
    case Truncated => OnEnd(s, e, true)
    case Failure => (s.(failed := true), None)
    case Other => (s, None)
  }

  predicate SendsRole(s: State, e: Event) { !s.roleSent && EmitsChunk(KindOf(e.kind)) }

  function Counted(s: State, e: Event): State {
    s.(events := s.events + 1, roleSent := s.roleSent || SendsRole(s, e))
  }

  function RoleChunks(s: State, e: Event): seq<Chunk> {
    if SendsRole(s, e) then [Chunk(s.id, s.model, Role)] else []
  }

  function OwnChunks(s: State, part: Option<Part>): seq<Chunk> {
    if part.Some? then [Chunk(s.id, s.model, part.value)] else []
  }

  /** consume: the role chunk first, when this event may emit, then the event's own chunk. */
  function Consume(random: nat -> string, s: State, e: Event): (State, seq<Chunk>) {
    var (s1, part) := OnEvent(random, Counted(s, e), e);
    (s1, RoleChunks(s, e) + OwnChunks(s1, part))
  }

  /** The state after a list of events, and everything streamed on the way. */
  function ConsumeAll(random: nat -> string, s: State, es: seq<Event>): (State, seq<Chunk>) {
    if es == [] then (s, [])
    else
      var (s1, chunks) := ConsumeAll(random, s, es[..|es| - 1]);
      var (s2, more) := Consume(random, s1, es[|es| - 1]);
      (s2, chunks + more)
  }

  // ---------------------------------------------------------------- the two answers

  datatype Call = Call(id: string, name: string, arguments: string)

  datatype Message = Message(content: string, reasoning: string, calls: seq<Call>, finishReason: string)

  function CallsOf(calls: seq<ToolCall>): seq<Call> {
    seq(|calls|, i requires 0 <= i < |calls| => Call(calls[i].id, calls[i].name, calls[i].arguments))
  }

  /** The message completeResponse builds. */
  function Collected(s: State): Message {
    Message(s.text, s.reasoning, CallsOf(s.calls), s.finishReason)
  }

  /** A chat client putting chunks together. A call must be announced exactly once, under the
      next free index, before any more arguments come for it: anything else is rejected. */
  function Absorb(m: Message, part: Part): Option<Message> {
    match part
    case Role => Some(m)
    case Content(text) => Some(m.(content := m.content + text))
    case Reasoning(text) => Some(m.(reasoning := m.reasoning + text))
    case NewCall(index, id, name, arguments) =>
      if index == |m.calls| then Some(m.(calls := m.calls + [Call(id, name, arguments)])) else None
    case MoreArguments(index, arguments) =>
      if index < |m.calls| then
        Some(m.(calls := m.calls[index := m.calls[index].(arguments := m.calls[index].arguments + arguments)]))
      else None
    case Finish(reason, _) => Some(m.(finishReason := reason))
  }

  function Reassemble(chunks: seq<Chunk>): Option<Message> {
    if chunks == [] then Some(Message("", "", [], ""))
    else
      match Reassemble(chunks[..|chunks| - 1])
      case None => None
      case Some(m) => Absorb(m, chunks[|chunks| - 1].part)
  }

  // ---------------------------------------------------------------- agreement

  /** The tables only know calls that exist. */
  ghost predicate TablesOk(s: State) {
    && (forall k :: k in s.byItem ==> s.byItem[k] < |s.calls|)
    && (forall k :: k in s.byOutput ==> s.byOutput[k] < |s.calls|)
  }

  lemma FoundExists(s: State, e: Event)
    requires TablesOk(s)
    ensures FindCall(s, e).Some? ==> FindCall(s, e).value < |s.calls|
  {
    assert e.itemId in s.byItem ==> s.byItem[e.itemId] < |s.calls|;
    if e.item.Some? {
      assert e.item.value.id in s.byItem ==> s.byItem[e.item.value.id] < |s.calls|;
    }
    assert forall i: int :: ByOutput(s, i).Some? ==> ByOutput(s, i).value < |s.calls|;
  }

  lemma AddedCall(random: nat -> string, s: State, e: Event, item: Item, arguments: string)
    requires TablesOk(s)
    ensures var s1 := AddCall(random, s, e, item, arguments);
            TablesOk(s1) && Absorb(Collected(s), Announce(s1)) == Some(Collected(s1))
  {
    var s1 := AddCall(random, s, e, item, arguments);
    var call := s1.calls[|s.calls|];
    assert CallsOf(s1.calls) == CallsOf(s.calls) + [Call(call.id, call.name, call.arguments)];
  }

  lemma ExtendedCall(s: State, index: nat, arguments: string)
    requires TablesOk(s) && index < |s.calls|
    ensures var s1 := Extend(s, index, arguments);
            TablesOk(s1) && Absorb(Collected(s), MoreArguments(index, arguments)) == Some(Collected(s1))
  {
    var s1, call := Extend(s, index, arguments), s.calls[index];
    assert CallsOf(s1.calls) == CallsOf(s.calls)[index := Call(call.id, call.name, call.arguments + arguments)];
  }

  /** What a step streams is what it adds to the collected message. */
  ghost predicate Agrees(s: State, r: (State, Option<Part>)) {
    && TablesOk(r.0)
    && (r.1.None? ==> Collected(r.0) == Collected(s))
    && (r.1.Some? ==> Absorb(Collected(s), r.1.value) == Some(Collected(r.0)))
  }

  lemma AddedAgrees(random: nat -> string, s: State, e: Event)
    requires TablesOk(s)
    ensures Agrees(s, OnAdded(random, s, e))
  {
    if e.item.Some? {
      AddedCall(random, s, e, e.item.value, "");
    }
  }

  lemma ArgumentsAgree(s: State, e: Event)
    requires TablesOk(s)
    ensures Agrees(s, OnArguments(s, e))
  {
    FoundExists(s, e);
    if FindCall(s, e).Some? {
      ExtendedCall(s, FindCall(s, e).value, e.delta);
    }
  }

  lemma DoneAgrees(random: nat -> string, s: State, e: Event)
    requires TablesOk(s)
    ensures Agrees(s, OnDone(random, s, e))
  {
    if e.item.Some? {
      var item := e.item.value;
      FoundExists(s, e);
      if item.kind == "reasoning" && s.reasoning == "" && item.reasoning != "" {
        assert "" + item.reasoning == item.reasoning;
      } else if FindCall(s, e).None? {
        AddedCall(random, s, e, item, item.arguments);
      } else {
        ExtendedCall(s, FindCall(s, e).value, item.arguments);
      }
    }
  }

  lemma EndAgrees(s: State, e: Event, truncated: bool)
    requires TablesOk(s)
    ensures Agrees(s, OnEnd(s, e, truncated))
  {
  }

  lemma OneEvent(random: nat -> string, s: State, e: Event, kind: Kind)
    requires TablesOk(s)
    ensures Agrees(s, OnKind(random, s, e, kind))
  {
    match kind
    case ItemAdded => AddedAgrees(random, s, e);
    case ArgumentsDelta => ArgumentsAgree(s, e);
    case ItemDone => DoneAgrees(random, s, e);
    case Completed => EndAgrees(s, e, false);
    case Truncated => EndAgrees(s, e, true);
    case _ => QuietAgrees(random, s, e, kind);
  }

  lemma QuietAgrees(random: nat -> string, s: State, e: Event, kind: Kind)
    requires TablesOk(s)
    requires kind.Started? || kind.TextDelta? || kind.ReasoningDelta? || kind.Failure? || kind.Other?
    ensures Agrees(s, OnKind(random, s, e, kind))
  {
  }

  /** No chunk, or one more, at the end of a stream. */
  lemma ReassembleMore(chunks: seq<Chunk>, more: seq<Chunk>)
    requires |more| <= 1
    ensures Reassemble(chunks + more) ==
            if more == [] || Reassemble(chunks).None? then Reassemble(chunks)
            else Absorb(Reassemble(chunks).value, more[0].part)
  {
    if more == [] {
      assert chunks + more == chunks;
    } else {
      assert (chunks + more)[..|chunks|] == chunks;
    }
  }

  lemma ConsumeAgrees(random: nat -> string, s: State, e: Event, chunks: seq<Chunk>)
    requires TablesOk(s) && Reassemble(chunks) == Some(Collected(s))
    ensures var (s1, more) := Consume(random, s, e);
            TablesOk(s1) && Reassemble(chunks + more) == Some(Collected(s1))
  {
    var s0 := Counted(s, e);
    var (s1, part) := OnEvent(random, s0, e);
    OneEvent(random, s0, e, KindOf(e.kind));
    Absorbed(chunks, RoleChunks(s, e), OwnChunks(s1, part), Collected(s), part, Collected(s1));
  }

  lemma Absorbed(chunks: seq<Chunk>, first: seq<Chunk>, own: seq<Chunk>, m: Message, part: Option<Part>, m1: Message)
    requires Reassemble(chunks) == Some(m) && |first| <= 1 && (first != [] ==> first[0].part.Role?)
    requires if part.None? then own == [] && m1 == m else |own| == 1 && own[0].part == part.value && Absorb(m, part.value) == Some(m1)
    ensures Reassemble(chunks + (first + own)) == Some(m1)
  {
    ReassembleMore(chunks, first);
    ReassembleMore(chunks + first, own);
    assert chunks + (first + own) == chunks + first + own;
  }

  /** After any events, putting the streamed chunks together gives exactly the message
      completeResponse would build, with every tool call announced once, in index order,
      before its argument deltas. */
  lemma {:induction false} StreamAgreesWithCollected(random: nat -> string, id: string, model: string, es: seq<Event>)
    ensures var (s, chunks) := ConsumeAll(random, NewState(id, model), es);
            TablesOk(s) && Reassemble(chunks) == Some(Collected(s))
  {
    if es == [] {
      assert CallsOf([]) == [];
    } else {
      StreamAgreesWithCollected(random, id, model, es[..|es| - 1]);
      var (s, chunks) := ConsumeAll(random, NewState(id, model), es[..|es| - 1]);
      ConsumeAgrees(random, s, es[|es| - 1], chunks);
    }
  }
}
