/** The Messages wire (internal/api/messages.go): Chat Completions SSE bytes come in, cut
    anywhere; Anthropic events go out. One streaming attempt; keepalive pings left aside. */
module AnthropicTx {
  import opened Bytes

  datatype Call = Call(index: Option<int>, id: string, name: string, arguments: string)

  datatype Choice = Choice(content: string, calls: seq<Call>, finish: Option<string>)

  datatype Usage = Usage(input: nat, output: nat)

  /** One decoded line: its choices, and its usage object when it has one. */
  datatype Chunk = Chunk(choices: seq<Choice>, usage: Option<Usage>)

  datatype Kind = TextKind | ToolKind(id: string, name: string)

  datatype Event =
    | MessageStart(inputTokens: nat)
    | BlockStart(index: nat, kind: Kind)
    | TextDelta(index: nat, text: string)
    | InputDelta(index: nat, json: string)
    | BlockStop(index: nat)
    | MessageDelta(stopReason: string, outputTokens: nat)
    | MessageStop
    | ErrorEvent(message: string)

  /** A content block; input is what its partial_json builder holds. */
  datatype Block = Text(text: string) | ToolUse(id: string, name: string, input: string)

  // ---------------------------------------------------------------- upstream meaning

  /** What one chunk contributes, in the order line handles it. */
  datatype Delta = Says(text: string) | Calls(slot: int, id: string, name: string, arguments: string) | Ends(reason: string)

  /** A fragment without an index belongs to slot 0. */
  function CallDelta(call: Call): Delta {
    Calls(if call.index.Some? then call.index.value else 0, call.id, call.name, call.arguments)
  }

  function CallDeltas(calls: seq<Call>): seq<Delta> {
    if calls == [] then []
    else
      CallDeltas(calls[..|calls| - 1]) + [CallDelta(calls[|calls| - 1])]
  }

  function ChoiceDeltas(choice: Choice): seq<Delta> {
    (if choice.content != "" then [Says(choice.content)] else [])
    + CallDeltas(choice.calls)
    + (if choice.finish.Some? then [Ends(choice.finish.value)] else [])
  }

  function ChunkDeltas(choices: seq<Choice>): seq<Delta> {
    if choices == [] then [] else ChunkDeltas(choices[..|choices| - 1]) + ChoiceDeltas(choices[|choices| - 1])
  }

  /** The text the upstream sent. */
  function UpText(ds: seq<Delta>): string {
    if ds == [] then ""
    else UpText(ds[..|ds| - 1]) + if ds[|ds| - 1].Says? then ds[|ds| - 1].text else ""
  }

  /** The arguments the upstream sent for one tool slot. */
  function UpArguments(ds: seq<Delta>, slot: int): string {
    if ds == [] then ""
    else
      var d := ds[|ds| - 1];
      UpArguments(ds[..|ds| - 1], slot) + if d.Calls? && d.slot == slot then d.arguments else ""
  }

  /** The tool block the upstream spelled out for one slot: named by its first fragment, its
      input all fragments together. */
  function UpTool(ds: seq<Delta>, slot: int): Option<Block> {
    if ds == [] then None
    else
      var before, d := UpTool(ds[..|ds| - 1], slot), ds[|ds| - 1];
      if !d.Calls? || d.slot != slot then before
      else
        match before
        case None => Some(ToolUse(d.id, d.name, d.arguments))
        case Some(b) => if b.ToolUse? then Some(b.(input := b.input + d.arguments)) else before
  }

  // ---------------------------------------------------------------- the state and its steps

  datatype Tx = Tx(
    committed: bool,
    open: seq<nat>,
    blocks: seq<Block>,
    toolBlocks: map<int, nat>,
    usage: Usage,
    upstreamDone: bool,
    stopReason: string,
    events: seq<Event>)

  const INITIAL: Tx := Tx(false, [], [], map[], Usage(0, 0), false, "", [])

  function Emit(t: Tx, e: Event): Tx { t.(events := t.events + [e]) }

  function Start(t: Tx): Tx {
    if t.committed then t else Emit(t, MessageStart(t.usage.input)).(committed := true)
  }

  predicate TopIsText(t: Tx) {
    t.open != [] && t.open[|t.open| - 1] < |t.blocks| && t.blocks[t.open[|t.open| - 1]].Text?
  }

  function CloseLast(t: Tx): Tx {
    if t.open == [] then t
    else Emit(t, BlockStop(t.open[|t.open| - 1])).(open := t.open[..|t.open| - 1])
  }

  function OpenBlock(t: Tx, kind: Kind): Tx {
    var index := |t.blocks|;
    var block := if kind.TextKind? then Text("") else ToolUse(kind.id, kind.name, "");
    Emit(t, BlockStart(index, kind)).(blocks := t.blocks + [block], open := t.open + [index])
  }

  function AppendText(t: Tx, text: string): Tx
    requires TopIsText(t)
  {
    var index := t.open[|t.open| - 1];
    Emit(t, TextDelta(index, text)).(blocks := t.blocks[index := Text(t.blocks[index].text + text)])
  }

  /** The part of delta that finds or opens a text block on top. */
  function TextReady(t: Tx): (r: Tx)
    ensures TopIsText(r)
  {
    var t1 := Start(t);
    if TopIsText(t1) then t1 else OpenBlock(CloseLast(t1), TextKind)
  }

  /** delta. */
  function OnText(t: Tx, text: string): Tx { AppendText(TextReady(t), text) }

  /** The part of toolDelta that finds or opens the block of a slot. */
  function SlotBlock(t: Tx, slot: int, id: string, name: string): Tx {
    if slot in t.toolBlocks then t
    else
      var t1 := if TopIsText(t) then CloseLast(t) else t;
      OpenBlock(t1, ToolKind(id, name)).(toolBlocks := t.toolBlocks[slot := |t.blocks|])
  }

  function AppendInput(t: Tx, index: nat, arguments: string): Tx {
    if arguments == "" || index >= |t.blocks| || !t.blocks[index].ToolUse? then t
    else
      var block := t.blocks[index];
      Emit(t, InputDelta(index, arguments)).(blocks := t.blocks[index := block.(input := block.input + arguments)])
  }

  /** toolDelta. */
  function OnCall(t: Tx, slot: int, id: string, name: string, arguments: string): Tx {
    var t1 := SlotBlock(Start(t), slot, id, name);
    AppendInput(t1, if slot in t1.toolBlocks then t1.toolBlocks[slot] else 0, arguments)
  }

  function Step(t: Tx, d: Delta): Tx {
    match d
    case Says(text) => OnText(t, text)
    case Calls(slot, id, name, arguments) => OnCall(t, slot, id, name, arguments)
    case Ends(reason) => t.(upstreamDone := true, stopReason := reason)
  }

  function Steps(t: Tx, ds: seq<Delta>): Tx {
    if ds == [] then t else Step(Steps(t, ds[..|ds| - 1]), ds[|ds| - 1])
  }

  lemma {:induction false} StepsAppend(t: Tx, a: seq<Delta>, b: seq<Delta>)
    ensures Steps(t, a + b) == Steps(Steps(t, a), b)
  {
    if b == [] {
      assert a + b == a;
    } else {
      StepsAppend(t, a, b[..|b| - 1]);
      assert (a + b)[..|a + b| - 1] == a + b[..|b| - 1];
    }
  }

  /** line on a decoded chunk. */
  function OnChunk(t: Tx, chunk: Chunk): Tx {
    Steps(if chunk.usage.Some? then t.(usage := chunk.usage.value) else t, ChunkDeltas(chunk.choices))
  }

  function OnLine(read: bytes -> Option<Chunk>, t: Tx, line: bytes): Tx {
    match read(line) case None => t case Some(chunk) => OnChunk(t, chunk)
  }

  function OnLines(read: bytes -> Option<Chunk>, t: Tx, ls: seq<bytes>): Tx {
    if ls == [] then t else OnLine(read, OnLines(read, t, ls[..|ls| - 1]), ls[|ls| - 1])
  }

  lemma {:induction false} OnLinesAppend(read: bytes -> Option<Chunk>, t: Tx, a: seq<bytes>, b: seq<bytes>)
    ensures OnLines(read, t, a + b) == OnLines(read, OnLines(read, t, a), b)
  {
    if b == [] {
      assert a + b == a;
    } else {
      OnLinesAppend(read, t, a, b[..|b| - 1]);
      assert (a + b)[..|a + b| - 1] == a + b[..|b| - 1];
    }
  }

  /** All deltas of the lines of a stream. */
  function LineDeltas(read: bytes -> Option<Chunk>, ls: seq<bytes>): seq<Delta> {
    if ls == [] then []
    else
      var chunk := read(ls[|ls| - 1]);
      LineDeltas(read, ls[..|ls| - 1]) + if chunk.Some? then ChunkDeltas(chunk.value.choices) else []
  }

  /** The line syntax of the source: a data field holding a JSON object. */
  function ReadChat(decode: bytes -> Option<seq<Choice>>, usage: bytes -> Option<Usage>): bytes -> Option<Chunk> {
    (line: bytes) => ReadChatLine(decode, usage, line)
  }

  function ReadChatLine(decode: bytes -> Option<seq<Choice>>, usage: bytes -> Option<Usage>, line: bytes): Option<Chunk> {
    var text := TrimRightCR(line);
    if !HasPrefix(text, Ascii("data:")) then None
    else
      var payload := TrimSpace(text[5..]);
      if payload == [] || payload[0] != 123 || decode(payload).None? then None
      else Some(Chunk(decode(payload).value, usage(text)))
  }
}
