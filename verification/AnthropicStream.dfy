/** The transaction as it runs: bytes in through parse, events out through emit. */
module AnthropicStream {
  import opened Bytes
  import opened AnthropicTx
  import opened AnthropicView
  import opened AnthropicTools

  class Transaction {
    const read: bytes -> Option<Chunk>
    var began: bool
    var committed: bool
    var closed: bool
    var finishedOnce: bool
    var next: nat
    var open: seq<nat>
    var blocks: seq<Block>
    var toolBlocks: map<int, nat>
    var usage: Usage
    var pending: bytes
    var upstreamDone: bool
    var stopReason: string
    var failure: Option<string>
    /** The non-ping events written to the client. */
    var events: seq<Event>

    function T(): Tx
      reads this
    {
      Tx(committed, open, blocks, toolBlocks, usage, upstreamDone, stopReason, events)
    }

    /** A reply still being streamed: next numbers the next block, slots lead to tool blocks. */
    ghost predicate Streaming()
      reads this
    {
      && !closed && !finishedOnce && next == |blocks|
      && forall s :: s in toolBlocks ==> toolBlocks[s] < |blocks| && blocks[toolBlocks[s]].ToolUse?
    }

    /** Keepalives begin with the reply at the latest, and nothing is taken back. */
    twostate predicate KeepsBegan()
      reads this
    {
      (old(committed) ==> committed) && (committed || began == old(began))
    }

    constructor (read: bytes -> Option<Chunk>)
      ensures Streaming() && T() == INITIAL && pending == [] && !began && failure == None && this.read == read
    {
      this.read := read;
      began, committed, closed, finishedOnce := false, false, false, false;
      next, open, blocks, toolBlocks := 0, [], [], map[];
      usage, pending, upstreamDone, stopReason, failure, events := Usage(0, 0), [], false, "", None, [];
    }

    method EmitEvent(e: Event)
      modifies `events
      ensures events == if closed then old(events) else old(events) + [e]
    {
      if closed {
        return;
      }
      events := events + [e];
    }

    method Begin()
      modifies `began
      ensures began
    {
      began := true;
    }

    method StartReply()
      requires Streaming()
      modifies `began, `committed, `events
      ensures Streaming() && T() == Start(old(T())) && KeepsBegan()
    {
      if !committed {
        Begin();
        committed := true;
        EmitEvent(MessageStart(usage.input));
      }
    }

    method Open(kind: Kind)
      requires Streaming()
      modifies `next, `blocks, `open, `events
      ensures Streaming() && T() == OpenBlock(old(T()), kind)
    {
      var index := next;
      next := next + 1;
      blocks := blocks + [if kind.TextKind? then Text("") else ToolUse(kind.id, kind.name, "")];
      open := open + [index];
      EmitEvent(BlockStart(index, kind));
    }

    method Close()
      requires Streaming()
      modifies `open, `events
      ensures Streaming() && T() == CloseLast(old(T()))
    {
      if |open| == 0 {
        return;
      }
      var index := open[|open| - 1];
      open := open[..|open| - 1];
      EmitEvent(BlockStop(index));
    }

    method MakeTextReady()
      requires Streaming()
      modifies `began, `committed, `next, `blocks, `open, `events
      ensures Streaming() && T() == TextReady(old(T())) && KeepsBegan()
    {
      StartReply();
      if !TopIsText(T()) {
        if |open| > 0 {
          Close();
        }
        Open(TextKind);
      }
    }

    method OnDelta(text: string)
      requires Streaming()
      modifies `began, `committed, `next, `blocks, `open, `events
      ensures Streaming() && T() == OnText(old(T()), text) && KeepsBegan()
    {
      MakeTextReady();
      var index := open[|open| - 1];
      blocks := blocks[index := Text(blocks[index].text + text)];
      EmitEvent(TextDelta(index, text));
    }

    method MakeSlotReady(slot: int, id: string, name: string)
      requires Streaming()
      modifies `began, `committed, `next, `blocks, `open, `events, `toolBlocks
      ensures Streaming() && T() == SlotBlock(Start(old(T())), slot, id, name) && KeepsBegan()
    {
      StartReply();
      if slot !in toolBlocks {
        if TopIsText(T()) {
          Close();
        }
        var index := next;
        Open(ToolKind(id, name));
        toolBlocks := toolBlocks[slot := index];
      }
    }

    method OnToolDelta(call: Call)
      requires Streaming()
      modifies `began, `committed, `next, `blocks, `open, `events, `toolBlocks
      ensures Streaming() && KeepsBegan() && T() == Step(old(T()), CallDelta(call))
    {
      var slot := if call.index.Some? then call.index.value else 0;
      MakeSlotReady(slot, call.id, call.name);
      if call.arguments == "" {
        return;
      }
      var at := toolBlocks[slot];
      blocks := blocks[at := blocks[at].(input := blocks[at].input + call.arguments)];
      EmitEvent(InputDelta(at, call.arguments));
    }

    /** line on a decoded chunk: per choice its content, its tool calls, its finish_reason. */
    method OnChoices(choices: seq<Choice>)
      requires Streaming()
      modifies `began, `committed, `next, `blocks, `open, `events, `toolBlocks, `upstreamDone, `stopReason
      ensures Streaming() && T() == Steps(old(T()), ChunkDeltas(choices))
      ensures KeepsBegan()
    {
      for i := 0 to |choices|
        invariant Streaming() && T() == Steps(old(T()), ChunkDeltas(choices[..i]))
        invariant KeepsBegan()
      {
        assert choices[..i + 1][..i] == choices[..i];
        StepsAppend(old(T()), ChunkDeltas(choices[..i]), ChoiceDeltas(choices[i]));
        OnChoice(choices[i]);
      }
      assert choices[..|choices|] == choices;
    }

    method OnCalls(calls: seq<Call>)
      requires Streaming()
      modifies `began, `committed, `next, `blocks, `open, `events, `toolBlocks
      ensures Streaming() && T() == Steps(old(T()), CallDeltas(calls)) && KeepsBegan()
    {
      ghost var start := T();
      for i := 0 to |calls|
        invariant Streaming() && KeepsBegan()
        invariant T() == Steps(start, CallDeltas(calls[..i]))
      {
        NextCall(start, calls, i);
        OnToolDelta(calls[i]);
      }
      assert calls[..|calls|] == calls;
    }

    method OnContent(content: string)
      requires Streaming()
      modifies `began, `committed, `next, `blocks, `open, `events, `toolBlocks
      ensures Streaming() && T() == (if content != "" then Step(old(T()), Says(content)) else old(T()))
      ensures KeepsBegan()
    {
      if content != "" {
        OnDelta(content);
      }
    }

    method OnFinishReason(finish: Option<string>)
      requires Streaming()
      modifies `upstreamDone, `stopReason
      ensures Streaming() && T() == (if finish.Some? then Step(old(T()), Ends(finish.value)) else old(T()))
    {
      if finish.Some? {
        upstreamDone := true;
        stopReason := finish.value;
      }
    }

    method OnChoice(choice: Choice)
      requires Streaming()
      modifies `began, `committed, `next, `blocks, `open, `events, `toolBlocks, `upstreamDone, `stopReason
      ensures Streaming() && T() == Steps(old(T()), ChoiceDeltas(choice))
      ensures KeepsBegan()
    {
      ChoiceSteps(T(), choice);
      OnContent(choice.content);
      OnCalls(choice.calls);
      OnFinishReason(choice.finish);
    }

    method Line(line: bytes)
      requires Streaming()
      modifies `began, `committed, `next, `blocks, `open, `events, `toolBlocks, `upstreamDone, `stopReason, `usage
      ensures Streaming() && T() == OnLine(read, old(T()), line)
      ensures KeepsBegan()
    {
      var chunk := read(line);
      if chunk.None? {
        return;
      }
      if chunk.value.usage.Some? {
        usage := chunk.value.usage.value;
      }
      OnChoices(chunk.value.choices);
    }

    /** What parse has made of all bytes written so far. */
    ghost predicate InStep(written: bytes)
      reads this
    {
      Streaming() && T() == OnLines(read, INITIAL, Lines(written)) && pending == Tail(written)
    }

    /** parse: however the bytes are cut, the state is that of the complete lines so far. */
    method Parse(data: bytes, ghost written: bytes)
      requires InStep(written)
      modifies this
      ensures InStep(written + data)
      ensures failure == old(failure) && KeepsBegan()
    {
      pending := pending + data;
      ghost var ls := Lines(written);
      LinesAppend(written, data);
      assert Lines(written + data) == ls + Lines(pending);
      while true
        invariant Streaming() && T() == OnLines(read, INITIAL, ls)
        invariant Lines(written + data) == ls + Lines(pending) && Tail(written + data) == Tail(pending)
        invariant failure == old(failure) && KeepsBegan()
        decreases |pending|
      {
        var index := FindNewline(pending);
        if index == |pending| {
          assert pending[..index] == pending;
          assert ls + [] == ls;
          return;
        }
        NextLine(read, ls, pending, index);
        Line(pending[..index]);
        ls := ls + [pending[..index]];
        pending := pending[index + 1..];
      }
    }

    method CloseBlocks()
      requires !closed
      modifies `open, `events
      ensures open == [] && events == old(events) + Stops(old(open))
    {
      for i := 0 to |open|
        invariant open == old(open) && events == old(events) + Stops(open[..i])
      {
        assert open[..i + 1][..i] == open[..i];
        EmitEvent(BlockStop(open[i]));
      }
      assert open[..|open|] == open;
      open := [];
    }

    /** finished, on a stream. */
    method Finished()
      requires Streaming() || finishedOnce
      modifies this
      ensures finishedOnce
      ensures events == old(events) + if old(finishedOnce) then [] else FinishEvents(old(T()), old(began), old(failure))
    {
      if finishedOnce {
        return;
      }
      finishedOnce := true;
      if !committed && !began {
        closed := true;
        return;
      }
      if !committed {
        EmitEvent(ErrorEvent(if failure.Some? then failure.value else "upstream returned no reply"));
        return;
      }
      if failure.Some? {
        EmitEvent(ErrorEvent(failure.value));
        return;
      }
      CloseBlocks();
      EmitEvent(MessageDelta(StopReason(stopReason), usage.output));
      EmitEvent(MessageStop);
      closed := true;
    }
  }

  lemma OneMoreStep(start: Tx, before: seq<Delta>, d: Delta)
    ensures Steps(start, before + [d]) == Step(Steps(start, before), d)
  {
    assert (before + [d])[..|before|] == before;
  }

  lemma NextCall(start: Tx, calls: seq<Call>, i: nat)
    requires i < |calls|
    ensures Steps(start, CallDeltas(calls[..i + 1])) == Step(Steps(start, CallDeltas(calls[..i])), CallDelta(calls[i]))
  {
    assert calls[..i + 1][..i] == calls[..i];
    OneMoreStep(start, CallDeltas(calls[..i]), CallDelta(calls[i]));
  }

  /** The deltas of a choice, part by part. */
  lemma ChoiceSteps(t: Tx, choice: Choice)
    ensures var t1 := if choice.content != "" then Step(t, Says(choice.content)) else t;
            var t2 := Steps(t1, CallDeltas(choice.calls));
            Steps(t, ChoiceDeltas(choice)) == if choice.finish.Some? then Step(t2, Ends(choice.finish.value)) else t2
  {
    var says := if choice.content != "" then [Says(choice.content)] else [];
    var ends := if choice.finish.Some? then [Ends(choice.finish.value)] else [];
    StepsAppend(t, says + CallDeltas(choice.calls), ends);
    StepsAppend(t, says, CallDeltas(choice.calls));
    assert says != [] ==> says[..0] == [];
    assert ends != [] ==> ends[..0] == [];
  }

  lemma NextLine(read: bytes -> Option<Chunk>, ls: seq<bytes>, pending: bytes, index: nat)
    requires index < |pending| && index == FindNewline(pending)
    ensures ls + Lines(pending) == ls + [pending[..index]] + Lines(pending[index + 1..])
    ensures Tail(pending) == Tail(pending[index + 1..])
    ensures OnLines(read, INITIAL, ls + [pending[..index]]) == OnLine(read, OnLines(read, INITIAL, ls), pending[..index])
  {
    FirstLine(pending, index);
    Assoc(ls, [pending[..index]], Lines(pending[index + 1..]));
    OneMoreLine(read, ls, pending[..index]);
  }

  lemma OneMoreLine(read: bytes -> Option<Chunk>, ls: seq<bytes>, line: bytes)
    ensures OnLines(read, INITIAL, ls + [line]) == OnLine(read, OnLines(read, INITIAL, ls), line)
  {
    assert (ls + [line])[..|ls|] == ls;
  }

  /** What the client makes of a reply that had output and did not fail. */
  lemma ReplyArrives(read: bytes -> Option<Chunk>, ls: seq<bytes>, began: bool)
    requires OnLines(read, INITIAL, ls).committed
    ensures var t := OnLines(read, INITIAL, ls);
            var events := t.events + FinishEvents(t, began, None);
            && Play(events).Some? && Play(events).value.ended
            && Answer(Play(events).value.blocks, t.toolBlocks, LineDeltas(read, ls))
            && (forall i: nat :: CountStops(events, i) == if i < |t.blocks| then 1 else 0)
  {
    LinesKeepInv(read, ls);
    var t := OnLines(read, INITIAL, ls);
    FinishCompletes(t, LineDeltas(read, ls), began);
    AcceptedStream(t.events + FinishEvents(t, began, None));
  }

  /** The writes of one reply. */
  method ParseAll(tx: Transaction, writes: seq<bytes>)
    requires tx.InStep([])
    modifies tx
    ensures tx.InStep(Concat(writes)) && tx.failure == old(tx.failure)
    ensures old(!tx.committed) ==> tx.committed || tx.began == old(tx.began)
  {
    for n := 0 to |writes|
      invariant tx.InStep(Concat(writes[..n])) && tx.failure == old(tx.failure)
      invariant old(!tx.committed) ==> tx.committed || tx.began == old(tx.began)
    {
      assert writes[..n + 1][..n] == writes[..n];
      tx.Parse(writes[n], Concat(writes[..n]));
    }
    assert writes[..|writes|] == writes;
  }

  /** The events of a reply with these lines: a client accepts them whatever happens; what the text
      deltas spell; whether tool fragments come late; and, after output without a failure, a
      client that holds exactly the upstream's answer with every block stopped once. */
  ghost predicate Delivers(read: bytes -> Option<Chunk>, ls: seq<bytes>, began: bool, failure: Option<string>, events: seq<Event>) {
    var t, ds := OnLines(read, INITIAL, ls), LineDeltas(read, ls);
    && events == t.events + FinishEvents(t, began, failure)
    && Play(events).Some?
    && DeltaText(events) == UpText(ds)
    && (HitsOpen(events) <==> NoneLate(ds))
    && (t.committed && failure.None? ==>
          && Play(events).value.ended
          && Answer(Play(events).value.blocks, t.toolBlocks, ds)
          && (forall i: nat :: CountStops(events, i) == if i < |t.blocks| then 1 else 0))
  }

  lemma ReplyDelivers(read: bytes -> Option<Chunk>, ls: seq<bytes>, began: bool, failure: Option<string>)
    ensures var t := OnLines(read, INITIAL, ls);
            Delivers(read, ls, began, failure, t.events + FinishEvents(t, began, failure))
  {
    var t := OnLines(read, INITIAL, ls);
    TextArrives(read, ls);
    FinishText(t, began, failure);
    ToolsHitOpenIff(read, ls, began, failure);
    if t.committed && failure.None? {
      ReplyArrives(read, ls, began);
    } else {
      LinesKeepInv(read, ls);
      FinishFails(t, LineDeltas(read, ls), began, failure);
    }
  }

  /** The transaction over a whole stream, up to its end. */
  method RunTransaction(read: bytes -> Option<Chunk>, writes: seq<bytes>, began: bool, failure: Option<string>)
    returns (events: seq<Event>)
    ensures var t := OnLines(read, INITIAL, Lines(Concat(writes))); events == t.events + FinishEvents(t, began, failure)
  {
    var tx := new Transaction(read);
    if began {
      tx.Begin();
    }
    LinesNone([]);
    ParseAll(tx, writes);
    tx.failure := failure;
    tx.Finished();
    events := tx.events;
  }

  /** A whole reply, whatever the cuts. */
  method Reply(read: bytes -> Option<Chunk>, writes: seq<bytes>, began: bool, failure: Option<string>)
    returns (events: seq<Event>)
    ensures Delivers(read, Lines(Concat(writes)), began, failure, events)
  {
    events := RunTransaction(read, writes, began, failure);
    ReplyDelivers(read, Lines(Concat(writes)), began, failure);
  }

  /** A reply read by the line syntax of the source. */
  method ChatReply(decode: bytes -> Option<seq<Choice>>, usage: bytes -> Option<Usage>, writes: seq<bytes>, began: bool,
                   failure: Option<string>)
    returns (events: seq<Event>)
    ensures Delivers(ReadChat(decode, usage), Lines(Concat(writes)), began, failure, events)
  {
    events := Reply(ReadChat(decode, usage), writes, began, failure);
  }

  /** Two ways of cutting the same bytes give the same events. */
  method SameEvents(read: bytes -> Option<Chunk>, one: seq<bytes>, other: seq<bytes>, began: bool, failure: Option<string>)
    returns (a: seq<Event>, b: seq<Event>)
    requires Concat(one) == Concat(other)
    ensures a == b
  {
    a := Reply(read, one, began, failure);
    b := Reply(read, other, began, failure);
  }
}
