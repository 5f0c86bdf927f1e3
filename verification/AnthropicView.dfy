/** What a client reassembles from the Anthropic events, and why it is the upstream's answer. */
module AnthropicView {
  import opened Bytes
  import opened AnthropicTx

  /** A client in the middle of a message. */
  datatype View = View(started: bool, blocks: seq<Block>, stopped: set<nat>, ended: bool)

  const NOTHING: View := View(false, [], {}, false)

  /** A client that rejects every protocol violation: a second message_start or one after the end,
      a block out of sequence, a text delta to a block that is not an open text block, an input
      delta to a block that is no tool block, a second stop, or an end with a block still open. */
  function Accept(v: View, e: Event): Option<View> {
    match e
    case MessageStart(_) =>
      if v.started || v.ended then None else Some(v.(started := true))
    case BlockStart(i, kind) =>
      if !v.started || v.ended || i != |v.blocks| then None
      else Some(v.(blocks := v.blocks + [if kind.TextKind? then Text("") else ToolUse(kind.id, kind.name, "")]))
    case TextDelta(i, text) =>
      if v.ended || i >= |v.blocks| || !v.blocks[i].Text? || i in v.stopped then None
      else Some(v.(blocks := v.blocks[i := Text(v.blocks[i].text + text)]))
    case InputDelta(i, json) =>
      if v.ended || i >= |v.blocks| || !v.blocks[i].ToolUse? then None
      else Some(v.(blocks := v.blocks[i := v.blocks[i].(input := v.blocks[i].input + json)]))
    case BlockStop(i) =>
      if v.ended || i >= |v.blocks| || i in v.stopped then None else Some(v.(stopped := v.stopped + {i}))
    case MessageDelta(_, _) =>
      if !v.started || v.ended then None else Some(v)
    case MessageStop =>
      if !v.started || v.ended || (exists i :: 0 <= i < |v.blocks| && i !in v.stopped) then None else Some(v.(ended := true))
    case ErrorEvent(_) =>
      if v.ended then None else Some(v.(ended := true))
  }

  /** The whole event stream as the client takes it; None when it had to reject an event. */
  function Play(events: seq<Event>): Option<View> {
    if events == [] then Some(NOTHING)
    else
      match Play(events[..|events| - 1])
      case None => None
      case Some(v) => Accept(v, events[|events| - 1])
  }

  // ---------------------------------------------------------------- the invariant

  function Stopped(t: Tx): set<nat> { set i: nat | i < |t.blocks| && i !in t.open }

  /** The open list: in order, and only its top may be a text block, the latest block. */
  ghost predicate OpenListOk(t: Tx) {
    && (forall i, j :: 0 <= i < j < |t.open| ==> t.open[i] < t.open[j])
    && (forall i :: 0 <= i < |t.open| ==> t.open[i] < |t.blocks|)
    && (forall i :: 0 <= i < |t.open| - 1 ==> t.blocks[t.open[i]].ToolUse?)
    && (TopIsText(t) ==> t.open[|t.open| - 1] == |t.blocks| - 1)
  }

  /** The client has exactly the blocks of the transaction, stopped exactly those not open. */
  ghost predicate Shape(t: Tx) {
    && OpenListOk(t)
    && Play(t.events) == Some(View(t.committed, t.blocks, Stopped(t), false))
    && (!t.committed ==> t.blocks == [] && t.open == [] && t.events == [] && t.toolBlocks == map[])
  }

  /** Each slot has its own tool block and each tool block its slot. */
  ghost predicate SlotsOk(blocks: seq<Block>, slots: map<int, nat>) {
    && (forall s :: s in slots ==> slots[s] < |blocks| && blocks[slots[s]].ToolUse?)
    && (forall s, r :: s in slots && r in slots && s != r ==> slots[s] != slots[r])
    && (forall i :: 0 <= i < |blocks| && blocks[i].ToolUse? ==> exists s :: s in slots && slots[s] == i)
  }

  lemma EmitPlays(events: seq<Event>, e: Event)
    requires Play(events).Some?
    ensures Play(events + [e]) == Accept(Play(events).value, e)
  {
    assert (events + [e])[..|events|] == events;
  }

  lemma StartPlays(tokens: nat)
    ensures Play([] + [MessageStart(tokens)]) == Some(View(true, [], {}, false))
  {
    EmitPlays([], MessageStart(tokens));
  }

  lemma StartShape(t: Tx)
    requires Shape(t)
    ensures Shape(Start(t)) && Start(t).committed
  {
    if !t.committed {
      StartPlays(t.usage.input);
      assert Stopped(Start(t)) == {};
    }
  }

  lemma CloseLastShape(t: Tx)
    requires Shape(t) && t.open != []
    ensures Shape(CloseLast(t)) && !TopIsText(CloseLast(t))
  {
    var t1, top := CloseLast(t), t.open[|t.open| - 1];
    EmitPlays(t.events, BlockStop(top));
    PopOpen(t.open);
    assert Stopped(t1) == Stopped(t) + {top};
  }

  /** The top of an ordered open list is nowhere else in it. */
  lemma PopOpen(open: seq<nat>)
    requires open != [] && forall i, j :: 0 <= i < j < |open| ==> open[i] < open[j]
    ensures var rest, top := open[..|open| - 1], open[|open| - 1];
            && (forall i :: 0 <= i < |rest| ==> rest[i] == open[i] && rest[i] < top)
            && top !in rest && forall x :: x in open <==> x in rest || x == top
  {
    assert open == open[..|open| - 1] + [open[|open| - 1]];
  }

  lemma OpenBlockShape(t: Tx, kind: Kind)
    requires Shape(t) && t.committed && !TopIsText(t)
    ensures Shape(OpenBlock(t, kind)) && (kind.TextKind? <==> TopIsText(OpenBlock(t, kind)))
  {
    var t1 := OpenBlock(t, kind);
    EmitPlays(t.events, BlockStart(|t.blocks|, kind));
    assert Stopped(t1) == Stopped(t);
  }

  lemma AppendTextShape(t: Tx, text: string)
    requires Shape(t) && TopIsText(t)
    ensures Shape(AppendText(t, text))
  {
    var t1, top := AppendText(t, text), t.open[|t.open| - 1];
    assert top in t.open;
    EmitPlays(t.events, TextDelta(top, text));
    assert Stopped(t1) == Stopped(t);
  }

  lemma AppendInputShape(t: Tx, index: nat, arguments: string)
    requires Shape(t)
    ensures Shape(AppendInput(t, index, arguments))
  {
    var t1 := AppendInput(t, index, arguments);
    if t1 != t {
      EmitPlays(t.events, InputDelta(index, arguments));
      assert Stopped(t1) == Stopped(t);
      assert forall i :: 0 <= i < |t.blocks| ==> t1.blocks[i].ToolUse? == t.blocks[i].ToolUse?;
    }
  }

  lemma TextReadyShape(t: Tx)
    requires Shape(t)
    ensures Shape(TextReady(t)) && TextReady(t).toolBlocks == t.toolBlocks
  {
    StartShape(t);
    var t1 := Start(t);
    if !TopIsText(t1) {
      if t1.open != [] {
        CloseLastShape(t1);
      }
      OpenBlockShape(CloseLast(t1), TextKind);
    }
  }

  /** delta finds or opens an open text block on top, and adds to it. */
  lemma OnTextShape(t: Tx, text: string)
    requires Shape(t)
    ensures Shape(OnText(t, text)) && TopIsText(OnText(t, text))
  {
    TextReadyShape(t);
    AppendTextShape(TextReady(t), text);
  }

  lemma SlotBlockShape(t: Tx, slot: int, id: string, name: string)
    requires Shape(t) && t.committed && slot !in t.toolBlocks
    ensures var t1 := SlotBlock(t, slot, id, name);
            && Shape(t1) && t1.toolBlocks == t.toolBlocks[slot := |t.blocks|]
            && t1.blocks == t.blocks + [ToolUse(id, name, "")]
  {
    var t0 := if TopIsText(t) then CloseLast(t) else t;
    if TopIsText(t) {
      CloseLastShape(t);
    }
    OpenBlockShape(t0, ToolKind(id, name));
    SameShape(OpenBlock(t0, ToolKind(id, name)), SlotBlock(t, slot, id, name));
  }

  /** The slot table is not part of the shape. */
  lemma SameShape(t: Tx, r: Tx)
    requires Shape(t) && t.committed
    requires r == t.(toolBlocks := r.toolBlocks, upstreamDone := r.upstreamDone, stopReason := r.stopReason, usage := r.usage)
    ensures Shape(r)
  {
    assert Stopped(r) == Stopped(t);
  }

  /** A new block for a new slot. */
  lemma NewSlot(blocks: seq<Block>, slots: map<int, nat>, slot: int, b: Block)
    requires SlotsOk(blocks, slots) && slot !in slots && b.ToolUse?
    ensures SlotsOk(blocks + [b], slots[slot := |blocks|])
  {
    var blocks1, slots1 := blocks + [b], slots[slot := |blocks|];
    forall i | 0 <= i < |blocks1| && blocks1[i].ToolUse? ensures exists s :: s in slots1 && slots1[s] == i {
      if i < |blocks| {
        var s :| s in slots && slots[s] == i;
        assert s in slots1 && slots1[s] == i;
      } else {
        assert slot in slots1 && slots1[slot] == i;
      }
    }
  }

  /** Blocks keep their kinds, text blocks may be added: the slots stay in order. */
  lemma SameSlots(blocks: seq<Block>, slots: map<int, nat>, blocks1: seq<Block>)
    requires SlotsOk(blocks, slots) && |blocks| <= |blocks1|
    requires forall i :: 0 <= i < |blocks| ==> blocks1[i].ToolUse? == blocks[i].ToolUse?
    requires forall i :: |blocks| <= i < |blocks1| ==> blocks1[i].Text?
    ensures SlotsOk(blocks1, slots)
  {
    forall i | 0 <= i < |blocks1| && blocks1[i].ToolUse? ensures exists s :: s in slots && slots[s] == i {
      assert blocks[i].ToolUse?;
    }
  }

  // ---------------------------------------------------------------- contents

  /** The text blocks of an answer, put together. */
  function BlockText(blocks: seq<Block>): string {
    if blocks == [] then ""
    else BlockText(blocks[..|blocks| - 1]) + if blocks[|blocks| - 1].Text? then blocks[|blocks| - 1].text else ""
  }

  lemma BlockTextSnoc(blocks: seq<Block>, b: Block)
    ensures BlockText(blocks + [b]) == BlockText(blocks) + if b.Text? then b.text else ""
  {
    assert (blocks + [b])[..|blocks|] == blocks;
  }

  /** Adding to the last block adds to the text; changing a tool block does not. */
  lemma BlockTextLast(blocks: seq<Block>, text: string)
    requires blocks != [] && blocks[|blocks| - 1].Text?
    ensures BlockText(blocks[|blocks| - 1 := Text(blocks[|blocks| - 1].text + text)]) == BlockText(blocks) + text
  {
    var n := |blocks| - 1;
    assert blocks[n := Text(blocks[n].text + text)][..n] == blocks[..n];
  }

  lemma {:induction false} BlockTextTool(blocks: seq<Block>, i: nat, b: Block)
    requires i < |blocks| && blocks[i].ToolUse? && b.ToolUse?
    ensures BlockText(blocks[i := b]) == BlockText(blocks)
  {
    var n := |blocks| - 1;
    if i < n {
      BlockTextTool(blocks[..n], i, b);
      assert blocks[i := b][..n] == blocks[..n][i := b];
    } else {
      assert blocks[i := b][..n] == blocks[..n];
    }
  }

  /** The slots with a block are those the upstream used, and each block is what it spelled. */
  ghost predicate CallsOk(blocks: seq<Block>, slots: map<int, nat>, ds: seq<Delta>) {
    && (forall s :: s in slots <==> UpTool(ds, s).Some?)
    && (forall s :: s in slots ==> slots[s] < |blocks| && blocks[slots[s]] == UpTool(ds, s).value)
  }

  /** The blocks are the upstream's answer. */
  ghost predicate Answer(blocks: seq<Block>, slots: map<int, nat>, ds: seq<Delta>) {
    SlotsOk(blocks, slots) && BlockText(blocks) == UpText(ds) && CallsOk(blocks, slots, ds)
  }

  /** Everything a transaction owes the upstream's deltas ds. */
  ghost predicate Inv(t: Tx, ds: seq<Delta>) {
    Shape(t) && Answer(t.blocks, t.toolBlocks, ds)
  }

  /** The input of a slot's tool is the slot's arguments, concatenated. */
  lemma {:induction false} UpToolArguments(ds: seq<Delta>, slot: int)
    ensures UpTool(ds, slot).Some? ==> UpTool(ds, slot).value.ToolUse? && UpTool(ds, slot).value.input == UpArguments(ds, slot)
    ensures UpTool(ds, slot).None? ==> UpArguments(ds, slot) == ""
  {
    if ds != [] {
      UpToolArguments(ds[..|ds| - 1], slot);
    }
  }

  lemma NoCall(ds: seq<Delta>, d: Delta)
    requires !d.Calls?
    ensures forall s :: UpTool(ds + [d], s) == UpTool(ds, s)
    ensures UpText(ds + [d]) == UpText(ds) + if d.Says? then d.text else ""
  {
    assert (ds + [d])[..|ds|] == ds;
  }

  lemma OneCall(ds: seq<Delta>, d: Delta)
    requires d.Calls?
    ensures UpText(ds + [d]) == UpText(ds)
    ensures forall s :: s != d.slot ==> UpTool(ds + [d], s) == UpTool(ds, s)
    ensures UpTool(ds, d.slot).None? ==> UpTool(ds + [d], d.slot) == Some(ToolUse(d.id, d.name, d.arguments))
    ensures UpTool(ds, d.slot).Some? && UpTool(ds, d.slot).value.ToolUse? ==>
              UpTool(ds + [d], d.slot) ==
              Some(UpTool(ds, d.slot).value.(input := UpTool(ds, d.slot).value.input + d.arguments))
  {
    assert (ds + [d])[..|ds|] == ds;
  }

  /** The blocks after delta: the last text block grows by the text, or a new one holds it. */
  function Grown(blocks: seq<Block>, text: string): seq<Block>
    requires blocks != [] && blocks[|blocks| - 1].Text?
  {
    blocks[|blocks| - 1 := Text(blocks[|blocks| - 1].text + text)]
  }

  function GrownNew(blocks: seq<Block>, text: string): seq<Block> { blocks + [Text(text)] }

  /** What delta does to the blocks. */
  lemma OnTextBlocks(t: Tx, text: string)
    requires OpenListOk(t)
    ensures OnText(t, text).toolBlocks == t.toolBlocks
    ensures || OnText(t, text).blocks == GrownNew(t.blocks, text)
            || (t.blocks != [] && t.blocks[|t.blocks| - 1].Text? && OnText(t, text).blocks == Grown(t.blocks, text))
  {
    var ready := TextReady(t);
    if TopIsText(Start(t)) {
      assert ready == Start(t);
    } else {
      OneMoreText(t.blocks, text);
      assert ready.blocks == t.blocks + [Text("")];
    }
  }

  lemma OneMoreText(blocks: seq<Block>, text: string)
    ensures (blocks + [Text("")])[|blocks| := Text("" + text)] == blocks + [Text(text)]
  {
    assert "" + text == text;
  }

  lemma NewTextAnswer(blocks: seq<Block>, slots: map<int, nat>, ds: seq<Delta>, text: string)
    requires Answer(blocks, slots, ds)
    ensures Answer(GrownNew(blocks, text), slots, ds + [Says(text)])
  {
    NoCall(ds, Says(text));
    BlockTextSnoc(blocks, Text(text));
    SameSlots(blocks, slots, GrownNew(blocks, text));
  }

  lemma MoreTextAnswer(blocks: seq<Block>, slots: map<int, nat>, ds: seq<Delta>, text: string)
    requires Answer(blocks, slots, ds) && blocks != [] && blocks[|blocks| - 1].Text?
    ensures Answer(Grown(blocks, text), slots, ds + [Says(text)])
  {
    NoCall(ds, Says(text));
    BlockTextLast(blocks, text);
    SameSlots(blocks, slots, Grown(blocks, text));
  }

  lemma TextStep(t: Tx, ds: seq<Delta>, text: string)
    requires Inv(t, ds)
    ensures Inv(OnText(t, text), ds + [Says(text)])
  {
    OnTextShape(t, text);
    OnTextBlocks(t, text);
    NewTextAnswer(t.blocks, t.toolBlocks, ds, text);
    if t.blocks != [] && t.blocks[|t.blocks| - 1].Text? {
      MoreTextAnswer(t.blocks, t.toolBlocks, ds, text);
    }
  }

  lemma NewToolAnswer(blocks: seq<Block>, slots: map<int, nat>, ds: seq<Delta>, slot: int, id: string, name: string)
    requires Answer(blocks, slots, ds) && slot !in slots
    ensures Answer(blocks + [ToolUse(id, name, "")], slots[slot := |blocks|], ds + [Calls(slot, id, name, "")])
  {
    OneCall(ds, Calls(slot, id, name, ""));
    NewCall(blocks, slots, ds, Calls(slot, id, name, ""));
    NewSlot(blocks, slots, slot, ToolUse(id, name, ""));
    BlockTextSnoc(blocks, ToolUse(id, name, ""));
  }

  lemma NewCall(blocks: seq<Block>, slots: map<int, nat>, ds: seq<Delta>, d: Delta)
    requires CallsOk(blocks, slots, ds) && d.Calls? && d.slot !in slots
    ensures CallsOk(blocks + [ToolUse(d.id, d.name, d.arguments)], slots[d.slot := |blocks|], ds + [d])
  {
    OneCall(ds, d);
  }

  /** A fragment without arguments for a known slot changes nothing. */
  lemma NoArguments(blocks: seq<Block>, slots: map<int, nat>, ds: seq<Delta>, slot: int, id: string, name: string)
    requires Answer(blocks, slots, ds) && slot in slots
    ensures Answer(blocks, slots, ds + [Calls(slot, id, name, "")])
  {
    UpToolArguments(ds, slot);
    OneCall(ds, Calls(slot, id, name, ""));
    assert UpTool(ds, slot).value.input + "" == UpTool(ds, slot).value.input;
  }

  /** A slot with its block: the fragment's arguments are still to come. */
  lemma SlotStep(t: Tx, ds: seq<Delta>, slot: int, id: string, name: string)
    requires Inv(t, ds) && t.committed
    ensures var t1 := SlotBlock(t, slot, id, name);
            Inv(t1, ds + [Calls(slot, id, name, "")]) && slot in t1.toolBlocks
  {
    if slot in t.toolBlocks {
      NoArguments(t.blocks, t.toolBlocks, ds, slot, id, name);
    } else {
      SlotBlockShape(t, slot, id, name);
      NewToolAnswer(t.blocks, t.toolBlocks, ds, slot, id, name);
    }
  }

  /** What the arguments of a fragment do to the blocks. */
  lemma AppendInputBlocks(t: Tx, at: nat, arguments: string)
    requires at < |t.blocks| && t.blocks[at].ToolUse?
    ensures AppendInput(t, at, arguments).blocks == t.blocks[at := t.blocks[at].(input := t.blocks[at].input + arguments)]
    ensures AppendInput(t, at, arguments).toolBlocks == t.toolBlocks
  {
    if arguments == "" {
      assert t.blocks[at].input + arguments == t.blocks[at].input;
    }
  }

  lemma InputAnswer(blocks: seq<Block>, slots: map<int, nat>, ds: seq<Delta>, slot: int, id: string, name: string, arguments: string)
    requires Answer(blocks, slots, ds + [Calls(slot, id, name, "")]) && slot in slots
    ensures var at := slots[slot];
            Answer(blocks[at := blocks[at].(input := blocks[at].input + arguments)], slots, ds + [Calls(slot, id, name, arguments)])
  {
    var at := slots[slot];
    var blocks1 := blocks[at := blocks[at].(input := blocks[at].input + arguments)];
    BlockTextTool(blocks, at, blocks1[at]);
    SameSlots(blocks, slots, blocks1);
    SlotInput(ds, slot, id, name, arguments);
    forall s | s in slots ensures blocks1[slots[s]] == UpTool(ds + [Calls(slot, id, name, arguments)], s).value {
      if s != slot {
        assert slots[s] != at;
      }
    }
  }

  /** The arguments of a fragment, taken after its slot. */
  lemma SlotInput(ds: seq<Delta>, slot: int, id: string, name: string, arguments: string)
    ensures var none, some := ds + [Calls(slot, id, name, "")], ds + [Calls(slot, id, name, arguments)];
            && UpText(some) == UpText(none)
            && (forall s :: s != slot ==> UpTool(some, s) == UpTool(none, s))
            && UpTool(none, slot).Some? && UpTool(none, slot).value.ToolUse?
            && UpTool(some, slot) == Some(UpTool(none, slot).value.(input := UpTool(none, slot).value.input + arguments))
  {
    UpToolArguments(ds, slot);
    OneCall(ds, Calls(slot, id, name, ""));
    OneCall(ds, Calls(slot, id, name, arguments));
    assert "" + arguments == arguments;
    if UpTool(ds, slot).Some? {
      assert UpTool(ds, slot).value.input + "" == UpTool(ds, slot).value.input;
    }
  }

  lemma InputStep(t: Tx, ds: seq<Delta>, slot: int, id: string, name: string, arguments: string)
    requires Inv(t, ds + [Calls(slot, id, name, "")]) && slot in t.toolBlocks
    ensures Inv(AppendInput(t, t.toolBlocks[slot], arguments), ds + [Calls(slot, id, name, arguments)])
  {
    AppendInputShape(t, t.toolBlocks[slot], arguments);
    AppendInputBlocks(t, t.toolBlocks[slot], arguments);
    InputAnswer(t.blocks, t.toolBlocks, ds, slot, id, name, arguments);
  }

  lemma CallStep(t: Tx, ds: seq<Delta>, slot: int, id: string, name: string, arguments: string)
    requires Inv(t, ds)
    ensures Inv(OnCall(t, slot, id, name, arguments), ds + [Calls(slot, id, name, arguments)])
  {
    StartShape(t);
    SlotStep(Start(t), ds, slot, id, name);
    InputStep(SlotBlock(Start(t), slot, id, name), ds, slot, id, name, arguments);
  }

  lemma EndStep(t: Tx, ds: seq<Delta>, reason: string)
    requires Inv(t, ds)
    ensures Inv(Step(t, Ends(reason)), ds + [Ends(reason)])
  {
    NoCall(ds, Ends(reason));
    assert Stopped(Step(t, Ends(reason))) == Stopped(t);
  }

  lemma StepKeepsInv(t: Tx, ds: seq<Delta>, d: Delta)
    requires Inv(t, ds)
    ensures Inv(Step(t, d), ds + [d])
  {
    match d
    case Says(text) => TextStep(t, ds, text);
    case Calls(slot, id, name, arguments) => CallStep(t, ds, slot, id, name, arguments);
    case Ends(reason) => EndStep(t, ds, reason);
  }

  lemma StepCommits(t: Tx, d: Delta)
    ensures Step(t, d).committed <==> t.committed || !d.Ends?
  {
  }

  /** The reply commits with the first text or tool fragment: a finish_reason alone does not. */
  lemma {:induction false} CommitsOnOutput(t: Tx, ds: seq<Delta>)
    ensures Steps(t, ds).committed <==> t.committed || exists i :: 0 <= i < |ds| && !ds[i].Ends?
  {
    if ds != [] {
      var init := ds[..|ds| - 1];
      CommitsOnOutput(t, init);
      StepCommits(Steps(t, init), ds[|ds| - 1]);
      assert forall i :: 0 <= i < |init| ==> init[i] == ds[i];
    }
  }

  /** Every step keeps the invariant. */
  lemma {:induction false} StepsKeepInv(t: Tx, before: seq<Delta>, ds: seq<Delta>)
    requires Inv(t, before)
    ensures Inv(Steps(t, ds), before + ds)
  {
    if ds == [] {
      assert before + ds == before;
      return;
    }
    var init, d := ds[..|ds| - 1], ds[|ds| - 1];
    StepsKeepInv(t, before, init);
    LastApart(before, ds);
    StepKeepsInv(Steps(t, init), before + init, d);
  }

  lemma UsageKeepsInv(t: Tx, ds: seq<Delta>, usage: Usage)
    requires Inv(t, ds)
    ensures Inv(t.(usage := usage), ds)
  {
    assert Stopped(t.(usage := usage)) == Stopped(t);
  }

  lemma InitialInv()
    ensures Inv(INITIAL, [])
  {
    assert Stopped(INITIAL) == {};
  }

  /** After any lines the client has exactly the upstream's answer so far. */
  lemma {:induction false} LinesKeepInv(read: bytes -> Option<Chunk>, ls: seq<bytes>)
    ensures Inv(OnLines(read, INITIAL, ls), LineDeltas(read, ls))
  {
    if ls == [] {
      InitialInv();
      return;
    }
    var init, chunk := ls[..|ls| - 1], read(ls[|ls| - 1]);
    var t, ds := OnLines(read, INITIAL, init), LineDeltas(read, init);
    LinesKeepInv(read, init);
    if chunk.Some? {
      if chunk.value.usage.Some? {
        UsageKeepsInv(t, ds, chunk.value.usage.value);
      }
      StepsKeepInv(if chunk.value.usage.Some? then t.(usage := chunk.value.usage.value) else t, ds, ChunkDeltas(chunk.value.choices));
    } else {
      assert LineDeltas(read, ls) == ds;
    }
  }

  // ---------------------------------------------------------------- the end of a reply

  /** anthropicStopReason. */
  function StopReason(reason: string): string {
    if reason == "tool_calls" || reason == "function_call" then "tool_use"
    else if reason == "length" then "max_tokens"
    else "end_turn"
  }

  function Stops(open: seq<nat>): seq<Event> {
    if open == [] then [] else Stops(open[..|open| - 1]) + [BlockStop(open[|open| - 1])]
  }

  /** The terminal events of finished. */
  function FinishEvents(t: Tx, began: bool, failure: Option<string>): seq<Event> {
    if !t.committed && !began then []
    else if !t.committed then [ErrorEvent(if failure.Some? then failure.value else "upstream returned no reply")]
    else if failure.Some? then [ErrorEvent(failure.value)]
    else Stops(t.open) + [MessageDelta(StopReason(t.stopReason), t.usage.output), MessageStop]
  }

  function Members(open: seq<nat>): set<nat> { set i | i in open }

  ghost predicate CanStop(v: View, open: seq<nat>) {
    && !v.ended
    && (forall i :: 0 <= i < |open| ==> open[i] < |v.blocks| && open[i] !in v.stopped)
    && (forall i, j :: 0 <= i < j < |open| ==> open[i] != open[j])
  }

  lemma StopOne(v: View, init: seq<nat>, last: nat)
    requires CanStop(v, init + [last])
    ensures CanStop(v, init)
    ensures Accept(v.(stopped := v.stopped + Members(init)), BlockStop(last))
         == Some(v.(stopped := v.stopped + Members(init + [last])))
  {
    var open := init + [last];
    assert open[|init|] == last;
    assert forall i :: 0 <= i < |init| ==> init[i] == open[i] && open[i] != last;
    assert v.stopped + Members(init) + {last} == v.stopped + Members(open);
  }

  lemma {:induction false} StopsPlay(events: seq<Event>, v: View, open: seq<nat>)
    requires Play(events) == Some(v) && CanStop(v, open)
    ensures Play(events + Stops(open)) == Some(v.(stopped := v.stopped + Members(open)))
  {
    if open == [] {
      EmptyRight(events);
      assert v.stopped + Members(open) == v.stopped;
    } else {
      var init, last := open[..|open| - 1], open[|open| - 1];
      assert open == init + [last];
      StopOne(v, init, last);
      StopsPlay(events, v, init);
      assert Stops(open) == Stops(init) + [BlockStop(last)];
      Assoc(events, Stops(init), [BlockStop(last)]);
      EmitPlays(events + Stops(init), BlockStop(last));
    }
  }

  lemma EndPlays(events: seq<Event>, v: View, stopReason: string, tokens: nat)
    requires Play(events) == Some(v) && v.started && !v.ended
    requires forall i :: 0 <= i < |v.blocks| ==> i in v.stopped
    ensures Play(events + [MessageDelta(stopReason, tokens), MessageStop]) == Some(v.(ended := true))
  {
    EmitPlays(events, MessageDelta(stopReason, tokens));
    EmitPlays(events + [MessageDelta(stopReason, tokens)], MessageStop);
    assert events + [MessageDelta(stopReason, tokens), MessageStop]
        == events + [MessageDelta(stopReason, tokens)] + [MessageStop];
  }

  lemma ClosePlays(events: seq<Event>, v: View, open: seq<nat>, stopReason: string, tokens: nat)
    requires Play(events) == Some(v) && v.started && CanStop(v, open)
    requires forall i :: 0 <= i < |v.blocks| ==> i in v.stopped + Members(open)
    ensures Play(events + (Stops(open) + [MessageDelta(stopReason, tokens), MessageStop]))
         == Some(View(true, v.blocks, v.stopped + Members(open), true))
  {
    StopsPlay(events, v, open);
    EndPlays(events + Stops(open), v.(stopped := v.stopped + Members(open)), stopReason, tokens);
    assert events + (Stops(open) + [MessageDelta(stopReason, tokens), MessageStop])
        == events + Stops(open) + [MessageDelta(stopReason, tokens), MessageStop];
  }

  lemma OpenCanStop(t: Tx)
    requires Shape(t)
    ensures CanStop(View(t.committed, t.blocks, Stopped(t), false), t.open)
  {
    assert forall i :: 0 <= i < |t.open| ==> t.open[i] in t.open;
  }

  /** A successful finish: the client ends with all blocks of the answer, each stopped. */
  lemma FinishCompletes(t: Tx, ds: seq<Delta>, began: bool)
    requires Inv(t, ds) && t.committed
    ensures Play(t.events + FinishEvents(t, began, None)) == Some(View(true, t.blocks, Stopped(t) + Members(t.open), true))
    ensures forall i: nat :: i in Stopped(t) + Members(t.open) <==> i < |t.blocks|
  {
    OpenCanStop(t);
    ClosePlays(t.events, View(true, t.blocks, Stopped(t), false), t.open, StopReason(t.stopReason), t.usage.output);
  }

  lemma ErrorPlays(events: seq<Event>, v: View, message: string)
    requires Play(events) == Some(v) && !v.ended
    ensures Play(events + [ErrorEvent(message)]) == Some(v.(ended := true))
  {
    EmitPlays(events, ErrorEvent(message));
  }

  lemma InvPlays(t: Tx, ds: seq<Delta>)
    requires Inv(t, ds)
    ensures Play(t.events) == Some(View(t.committed, t.blocks, Stopped(t), false))
  {
  }

  /** A failed finish of a transaction whose events the client accepted. */
  lemma FailurePlays(t: Tx, v: View, began: bool, failure: Option<string>)
    requires Play(t.events) == Some(v) && !v.ended && (failure.Some? || !t.committed)
    ensures Play(t.events + FinishEvents(t, began, failure)) == Some(v.(ended := t.committed || began))
  {
    if !t.committed && !began {
      EmptyRight(t.events);
    } else {
      ErrorPlays(t.events, v, if failure.Some? then failure.value else "upstream returned no reply");
    }
  }

  /** A failed finish is a single error event, or silence when nothing was on the wire. */
  lemma FinishFails(t: Tx, ds: seq<Delta>, began: bool, failure: Option<string>)
    requires Inv(t, ds) && (failure.Some? || !t.committed)
    ensures Play(t.events).Some?
    ensures Play(t.events + FinishEvents(t, began, failure)) ==
            Some(Play(t.events).value.(ended := t.committed || began))
  {
    InvPlays(t, ds);
    FailurePlays(t, View(t.committed, t.blocks, Stopped(t), false), began, failure);
  }

  // ---------------------------------------------------------------- what acceptance means

  /** The indices of the block starts, in order. */
  function StartIndices(events: seq<Event>): seq<nat> {
    if events == [] then []
    else StartIndices(events[..|events| - 1]) + if events[|events| - 1].BlockStart? then [events[|events| - 1].index] else []
  }

  function CountStops(events: seq<Event>, i: nat): nat {
    if events == [] then 0
    else CountStops(events[..|events| - 1], i) + if events[|events| - 1] == BlockStop(i) then 1 else 0
  }

  function CountMessageStarts(events: seq<Event>): nat {
    if events == [] then 0
    else CountMessageStarts(events[..|events| - 1]) + if events[|events| - 1].MessageStart? then 1 else 0
  }

  /** The text deltas, put together. */
  function DeltaText(events: seq<Event>): string {
    if events == [] then ""
    else DeltaText(events[..|events| - 1]) + if events[|events| - 1].TextDelta? then events[|events| - 1].text else ""
  }

  lemma DeltaTextSnoc(events: seq<Event>, e: Event)
    ensures DeltaText(events + [e]) == DeltaText(events) + if e.TextDelta? then e.text else ""
  {
    assert (events + [e])[..|events|] == events;
  }

  lemma NoText(events: seq<Event>, e: Event)
    requires !e.TextDelta?
    ensures DeltaText(events + [e]) == DeltaText(events)
  {
    DeltaTextSnoc(events, e);
    EmptyRight(DeltaText(events));
  }

  /** Making room for a text block or for a slot sends no text. */
  lemma StartText(t: Tx)
    ensures DeltaText(Start(t).events) == DeltaText(t.events)
  {
    NoText(t.events, MessageStart(t.usage.input));
  }

  lemma CloseText(t: Tx)
    ensures DeltaText(CloseLast(t).events) == DeltaText(t.events)
  {
    if t.open != [] {
      NoText(t.events, BlockStop(t.open[|t.open| - 1]));
    }
  }

  lemma OpenText(t: Tx, kind: Kind)
    ensures DeltaText(OpenBlock(t, kind).events) == DeltaText(t.events)
  {
    NoText(t.events, BlockStart(|t.blocks|, kind));
  }

  lemma ReadyText(t: Tx)
    ensures DeltaText(TextReady(t).events) == DeltaText(t.events)
  {
    StartText(t);
    CloseText(Start(t));
    OpenText(CloseLast(Start(t)), TextKind);
  }

  lemma SlotText(t: Tx, slot: int, id: string, name: string)
    ensures DeltaText(SlotBlock(t, slot, id, name).events) == DeltaText(t.events)
  {
    CloseText(t);
    OpenText(t, ToolKind(id, name));
    OpenText(CloseLast(t), ToolKind(id, name));
  }

  lemma InputText(t: Tx, at: nat, arguments: string)
    ensures DeltaText(AppendInput(t, at, arguments).events) == DeltaText(t.events)
  {
    NoText(t.events, InputDelta(at, arguments));
  }

  lemma SaysText(t: Tx, text: string)
    requires TopIsText(t)
    ensures DeltaText(AppendText(t, text).events) == DeltaText(t.events) + text
  {
    DeltaTextSnoc(t.events, TextDelta(t.open[|t.open| - 1], text));
  }

  lemma CallText(t: Tx, slot: int, id: string, name: string, arguments: string)
    ensures DeltaText(OnCall(t, slot, id, name, arguments).events) == DeltaText(t.events)
  {
    StartText(t);
    SlotText(Start(t), slot, id, name);
    var t1 := SlotBlock(Start(t), slot, id, name);
    InputText(t1, if slot in t1.toolBlocks then t1.toolBlocks[slot] else 0, arguments);
  }

  /** A step sends the text it is given, and nothing else sends text. */
  lemma StepText(t: Tx, d: Delta)
    ensures DeltaText(Step(t, d).events) == DeltaText(t.events) + if d.Says? then d.text else ""
  {
    EmptyRight(DeltaText(t.events));
    match d
    case Says(text) =>
      ReadyText(t);
      SaysText(TextReady(t), text);
    case Calls(slot, id, name, arguments) => CallText(t, slot, id, name, arguments);
    case Ends(_) =>
  }

  lemma {:induction false} StepsText(t: Tx, before: seq<Delta>, ds: seq<Delta>)
    requires DeltaText(t.events) == UpText(before)
    ensures DeltaText(Steps(t, ds).events) == UpText(before + ds)
  {
    if ds == [] {
      EmptyRight(before);
    } else {
      var init, d := ds[..|ds| - 1], ds[|ds| - 1];
      StepsText(t, before, init);
      StepText(Steps(t, init), d);
      LastApart(before, ds);
      UpTextSnoc(before + init, d);
    }
  }

  lemma UpTextSnoc(ds: seq<Delta>, d: Delta)
    ensures UpText(ds + [d]) == UpText(ds) + if d.Says? then d.text else ""
  {
    assert (ds + [d])[..|ds|] == ds;
  }

  /** The text deltas of a stream, whole or not, put together are the text the upstream sent. */
  lemma {:induction false} TextArrives(read: bytes -> Option<Chunk>, ls: seq<bytes>)
    ensures DeltaText(OnLines(read, INITIAL, ls).events) == UpText(LineDeltas(read, ls))
  {
    if ls != [] {
      var init, chunk := ls[..|ls| - 1], read(ls[|ls| - 1]);
      var t, ds := OnLines(read, INITIAL, init), LineDeltas(read, init);
      TextArrives(read, init);
      if chunk.Some? {
        StepsText(if chunk.value.usage.Some? then t.(usage := chunk.value.usage.value) else t, ds, ChunkDeltas(chunk.value.choices));
      } else {
        EmptyRight(ds);
      }
    }
  }

  lemma {:induction false} StopsText(events: seq<Event>, open: seq<nat>)
    ensures DeltaText(events + Stops(open)) == DeltaText(events)
  {
    if open == [] {
      EmptyRight(events);
    } else {
      var init, last := open[..|open| - 1], open[|open| - 1];
      StopsText(events, init);
      Assoc(events, Stops(init), [BlockStop(last)]);
      NoText(events + Stops(init), BlockStop(last));
    }
  }

  /** The end of a reply sends no text. */
  lemma FinishText(t: Tx, began: bool, failure: Option<string>)
    ensures DeltaText(t.events + FinishEvents(t, began, failure)) == DeltaText(t.events)
  {
    var tail := FinishEvents(t, began, failure);
    if tail == [] {
      EmptyRight(t.events);
    } else if t.committed && failure.None? {
      var delta := MessageDelta(StopReason(t.stopReason), t.usage.output);
      StopsText(t.events, t.open);
      NoText(t.events + Stops(t.open), delta);
      NoText(t.events + Stops(t.open) + [delta], MessageStop);
      assert t.events + (Stops(t.open) + [delta, MessageStop]) == t.events + Stops(t.open) + [delta] + [MessageStop];
    } else {
      NoText(t.events, tail[0]);
    }
  }

  /** The partial_json sent to block i. */
  function DeltaInput(events: seq<Event>, i: nat): string {
    if events == [] then ""
    else
      var e := events[|events| - 1];
      DeltaInput(events[..|events| - 1], i) + if e.InputDelta? && e.index == i then e.json else ""
  }

  /** Event j starts block i. */
  predicate StartAt(events: seq<Event>, j: int, i: nat) {
    0 <= j < |events| && events[j].BlockStart? && events[j].index == i
  }

  /** Block i was started before event k. */
  predicate StartedBefore(events: seq<Event>, k: nat, i: nat) { exists j :: 0 <= j < k && StartAt(events, j, i) }

  /** Nothing is accepted before message_start but an error that ends it all. */
  lemma {:induction false} OpensWithStart(events: seq<Event>)
    requires Play(events).Some?
    ensures var v := Play(events).value;
            && (!v.started ==> v.blocks == [] && (events == [] || v.ended))
            && (v.started ==> events != [] && events[0].MessageStart?)
  {
    if events != [] {
      OpensWithStart(events[..|events| - 1]);
    }
  }

  /** Every block of the client was started by some event. */
  lemma {:induction false} BlocksWereStarted(events: seq<Event>, i: nat)
    requires Play(events).Some? && i < |Play(events).value.blocks|
    ensures StartedBefore(events, |events|, i)
  {
    var init, n := events[..|events| - 1], |events| - 1;
    if i < |Play(init).value.blocks| {
      BlocksWereStarted(init, i);
      var j :| 0 <= j < n && StartAt(init, j, i);
      assert StartAt(events, j, i);
    } else {
      assert StartAt(events, n, i);
    }
  }

  /** So a stop of a block follows its start. */
  lemma {:induction false} StopFollowsStart(events: seq<Event>, k: nat)
    requires Play(events).Some? && k < |events| && events[k].BlockStop?
    ensures StartedBefore(events, k, events[k].index)
  {
    var init, n := events[..|events| - 1], |events| - 1;
    if k < n {
      StopFollowsStart(init, k);
      var j :| 0 <= j < k && StartAt(init, j, events[k].index);
      assert StartAt(events, j, events[k].index);
    } else {
      BlocksWereStarted(init, events[k].index);
      var j :| 0 <= j < n && StartAt(init, j, events[k].index);
      assert StartAt(events, j, events[k].index);
    }
  }

  /** What an accepted event stream looks like on the wire: starts numbered 0, 1, 2, ...; one
      message_start at most, and first; a block is stopped at most once, after its start, and once
      when the client holds it stopped; the input of a tool block is the partial_json sent to it. */
  lemma AcceptedStream(events: seq<Event>)
    requires Play(events).Some?
    ensures Counted(events) && Delivered(events)
    ensures Play(events).value.started ==> events != [] && events[0].MessageStart?
    ensures forall k :: 0 <= k < |events| && events[k].BlockStop? ==> StartedBefore(events, k, events[k].index)
  {
    AcceptedCounts(events);
    InputsArrive(events);
    OpensWithStart(events);
    forall k | 0 <= k < |events| && events[k].BlockStop?
      ensures StartedBefore(events, k, events[k].index)
    {
      StopFollowsStart(events, k);
    }
  }

  /** The counts of an accepted event stream. */
  ghost predicate Counted(events: seq<Event>)
    requires Play(events).Some?
  {
    var v := Play(events).value;
    && StartIndices(events) == seq(|v.blocks|, i => i)
    && CountMessageStarts(events) == (if v.started then 1 else 0)
    && (forall i: nat :: i in v.stopped ==> i < |v.blocks|)
    && (forall i: nat :: CountStops(events, i) == if i in v.stopped then 1 else 0)
  }

  /** The input of a client's block is what was sent to it. */
  ghost predicate Delivered(events: seq<Event>)
    requires Play(events).Some?
  {
    var v := Play(events).value;
    && (forall i: nat :: i < |v.blocks| && v.blocks[i].ToolUse? ==> v.blocks[i].input == DeltaInput(events, i))
    && (forall i: nat :: i >= |v.blocks| ==> DeltaInput(events, i) == "")
  }

  lemma {:induction false} AcceptedCounts(events: seq<Event>)
    requires Play(events).Some?
    ensures Counted(events)
  {
    if events != [] {
      AcceptedCounts(events[..|events| - 1]);
    }
  }

  lemma {:induction false} InputsArrive(events: seq<Event>)
    requires Play(events).Some?
    ensures Delivered(events)
  {
    if events != [] {
      InputsArrive(events[..|events| - 1]);
    }
  }
}
