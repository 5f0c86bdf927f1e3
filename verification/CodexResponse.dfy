/** streamState as it runs, and the two ways of answering with it. */
module CodexResponse {
  import opened Bytes
  import opened CodexStream

  class StreamState {
    const random: nat -> string
    var id: string
    var model: string
    var roleSent: bool
    var text: string
    var reasoning: string
    var calls: seq<ToolCall>
    var byItem: map<string, nat>
    var byOutput: map<int, nat>
    var finishReason: string
    var usage: Usage
    var events: nat
    var completed: bool
    var failed: bool

    function S(): State
      reads this
    {
      State(id, model, roleSent, text, reasoning, calls, byItem, byOutput, finishReason, usage, events, completed, failed)
    }

    constructor (random: nat -> string, id: string, model: string)
      ensures S() == NewState(id, model) && this.random == random
    {
      this.random := random;
      this.id, this.model, roleSent, text, reasoning := id, model, false, "", "";
      calls, byItem, byOutput, finishReason, usage := [], map[], map[], "", NO_USAGE;
      events, completed, failed := 0, false, false;
    }

    method AddToolCall(e: Event, item: Item, arguments: string)
      modifies `calls, `byItem, `byOutput
      ensures S() == AddCall(random, old(S()), e, item, arguments)
    {
      var index := |calls|;
      var callId := if item.callId.Some? then item.callId.value else "";
      if callId == "" {
        callId := "call_" + random(index);
      }
      calls := calls + [ToolCall(callId, item.id, item.name, arguments)];
      if item.id != "" {
        byItem := byItem[item.id := index];
      }
      if e.outputIndex.Some? {
        byOutput := byOutput[e.outputIndex.value := index];
      }
    }

    method FindToolCall(e: Event) returns (found: Option<nat>)
      ensures found == FindCall(S(), e)
    {
      if e.itemId in byItem {
        return Some(byItem[e.itemId]);
      }
      if e.item.Some? {
        if e.item.value.id in byItem {
          return Some(byItem[e.item.value.id]);
        }
        if e.item.value.callId.Some? {
          var wanted := e.item.value.callId.value;
          for i := 0 to |calls|
            invariant FirstWithId(calls, wanted) ==
                      match FirstWithId(calls[i..], wanted) case None => None case Some(k) => Some(k + i)
          {
            assert calls[i..][1..] == calls[i + 1..];
            if calls[i].id == wanted {
              return Some(i);
            }
          }
        }
      }
      if e.outputIndex.Some? {
        return ByOutput(S(), e.outputIndex.value);
      }
      return if |calls| == 1 then Some(0) else None;
    }

    method Name(e: Event)
      modifies `id, `model
      ensures S() == Named(old(S()), e)
    {
      if e.response.Some? {
        if e.response.value.id != "" {
          id := e.response.value.id;
        }
        if e.response.value.model != "" {
          model := e.response.value.model;
        }
      }
    }

    method Arguments(found: nat, arguments: string)
      modifies `calls
      ensures S() == Extend(old(S()), found, arguments)
    {
      if found < |calls| {
        calls := calls[found := calls[found].(arguments := calls[found].arguments + arguments)];
      }
    }

    method ItemAddedEvent(e: Event) returns (part: Option<Part>)
      modifies `calls, `byItem, `byOutput
      ensures (S(), part) == OnAdded(random, old(S()), e)
    {
      if e.item.None? || e.item.value.kind != "function_call" {
        return None;
      }
      AddToolCall(e, e.item.value, "");
      return Some(Announce(S()));
    }

    method ArgumentsEvent(e: Event) returns (part: Option<Part>)
      modifies `calls
      ensures (S(), part) == OnArguments(old(S()), e)
    {
      var found := FindToolCall(e);
      if found.None? || e.delta == "" {
        return None;
      }
      Arguments(found.value, e.delta);
      return Some(MoreArguments(found.value, e.delta));
    }

    method ItemDoneEvent(e: Event) returns (part: Option<Part>)
      modifies `calls, `byItem, `byOutput, `reasoning
      ensures (S(), part) == OnDone(random, old(S()), e)
    {
      if e.item.None? {
        return None;
      }
      var item := e.item.value;
      if item.kind == "reasoning" && reasoning == "" && item.reasoning != "" {
        reasoning := item.reasoning;
        return Some(Reasoning(item.reasoning));
      }
      if item.kind != "function_call" {
        return None;
      }
      var found := FindToolCall(e);
      if found.None? {
        AddToolCall(e, item, item.arguments);
        return Some(Announce(S()));
      }
      if found.value < |calls| && calls[found.value].arguments == "" && item.arguments != "" {
        Arguments(found.value, item.arguments);
        return Some(MoreArguments(found.value, item.arguments));
      }
      return None;
    }

    method EndEvent(e: Event, truncated: bool) returns (part: Option<Part>)
      modifies `id, `model, `completed, `usage, `finishReason
      ensures (S(), part) == OnEnd(old(S()), e, truncated)
    {
      completed := true;
      Name(e);
      if e.response.Some? && e.response.value.usage.Some? {
        usage := e.response.value.usage.value;
      }
      if truncated {
        finishReason := "length";
      } else if |calls| > 0 {
        finishReason := "tool_calls";
      } else {
        finishReason := "stop";
      }
      return Some(Finish(finishReason, usage));
    }

    method Handle(e: Event) returns (part: Option<Part>)
      modifies this
      ensures (S(), part) == OnEvent(random, old(S()), e)
    {
      part := None;
      match KindOf(e.kind)
      case Started => Name(e);
      case TextDelta =>
        if e.delta != "" {
          text := text + e.delta;
          part := Some(Content(e.delta));
        }
      case ReasoningDelta =>
        if e.delta != "" {
          reasoning := reasoning + e.delta;
          part := Some(Reasoning(e.delta));
        }
      case ItemAdded => part := ItemAddedEvent(e);
      case ArgumentsDelta => part := ArgumentsEvent(e);
      case ItemDone => part := ItemDoneEvent(e);
      case Completed => part := EndEvent(e, false);
      case Truncated => part := EndEvent(e, true);
      case Failure => failed := true;
      case Other =>
    }

    method ConsumeEvent(e: Event) returns (chunks: seq<Chunk>)
      modifies this
      ensures (S(), chunks) == Consume(random, old(S()), e)
    {
      events := events + 1;
      chunks := [];
      if !roleSent && EmitsChunk(KindOf(e.kind)) {
        roleSent := true;
        chunks := [Chunk(id, model, Role)];
      }
      assert S() == Counted(old(S()), e) && chunks == RoleChunks(old(S()), e);
      var part := Handle(e);
      assert chunks + [] == chunks;
      if part.Some? {
        chunks := chunks + [Chunk(id, model, part.value)];
      }
    }
  }

  // ---------------------------------------------------------------- answering

  datatype Verdict = Answered | UpstreamFailed | ClosedEarly | Unfinished | Malformed | WriteFailed

  function VerdictOf(s: State): Verdict {
    if s.failed then UpstreamFailed
    else if s.completed then Answered
    else if s.events == 0 then ClosedEarly
    else Unfinished
  }

  /** The events before the first malformed one: all of them when none is. */
  function WellFormed(es: seq<Option<Event>>): seq<Event> {
    if es == [] || es[0].None? then [] else [es[0].value] + WellFormed(es[1..])
  }

  lemma {:induction false} WellFormedFacts(es: seq<Option<Event>>)
    ensures |WellFormed(es)| <= |es|
    ensures forall k :: 0 <= k < |WellFormed(es)| ==> es[k] == Some(WellFormed(es)[k])
    ensures |WellFormed(es)| < |es| ==> es[|WellFormed(es)|].None?
  {
    if es != [] && es[0].Some? {
      WellFormedFacts(es[1..]);
    }
  }

  /** One run over the events: what was streamed, up to the first malformed event. */
  method ConsumeStream(random: nat -> string, id: string, model: string, es: seq<Option<Event>>)
    returns (state: StreamState, chunks: seq<Chunk>, ok: bool)
    ensures fresh(state) && state.random == random
    ensures (state.S(), chunks) == ConsumeAll(random, NewState(id, model), WellFormed(es))
    ensures ok <==> |WellFormed(es)| == |es|
  {
    state := new StreamState(random, id, model);
    chunks := [];
    ghost var good := WellFormed(es);
    WellFormedFacts(es);
    for n := 0 to |es|
      invariant fresh(state) && state.random == random
      invariant n <= |good|
      invariant (state.S(), chunks) == ConsumeAll(random, NewState(id, model), good[..n])
    {
      if es[n].None? {
        TakeAll(good, n);
        return state, chunks, false;
      }
      assert n < |good| && es[n] == Some(good[n]);
      TakeSnoc(good, n);
      var more := state.ConsumeEvent(es[n].value);
      chunks := chunks + more;
    }
    TakeAll(good, |es|);
    return state, chunks, true;
  }

  /** Whether write number k is one the client still takes. A failed write ends the answer, so only
      the first one matters. */
  predicate Takes(failsAt: Option<nat>, k: nat) { failsAt.None? || k < failsAt.value }

  /** The frames the client takes of a stream. */
  function Taken(failsAt: Option<nat>, streamed: seq<Chunk>): seq<Chunk> {
    if failsAt.Some? && failsAt.value < |streamed| then streamed[..failsAt.value] else streamed
  }

  lemma {:induction false} EarlierChunks(random: nat -> string, s: State, es: seq<Event>, n: nat)
    requires n <= |es|
    ensures ConsumeAll(random, s, es[..n]).1 <= ConsumeAll(random, s, es).1
  {
    if n == |es| {
      assert es[..n] == es;
    } else {
      var init := es[..|es| - 1];
      assert init[..n] == es[..n];
      EarlierChunks(random, s, init, n);
    }
  }

  /** A frame that was not taken of the first events is not taken of all. */
  lemma LostEarly(failsAt: Option<nat>, sent: seq<Chunk>, all: seq<Chunk>)
    requires sent <= all && Taken(failsAt, sent) != sent
    ensures Taken(failsAt, sent) == Taken(failsAt, all) != all
  {
  }

  /** Writes chunks, one frame each, behind those already sent. */
  method Send(failsAt: Option<nat>, sent: seq<Chunk>, chunks: seq<Chunk>) returns (all: seq<Chunk>, ok: bool)
    requires Taken(failsAt, sent) == sent
    ensures all == Taken(failsAt, sent + chunks)
    ensures ok <==> all == sent + chunks
  {
    all := sent;
    for i := 0 to |chunks|
      invariant all == sent + chunks[..i] && Taken(failsAt, all) == all
    {
      if !Takes(failsAt, |all|) {
        assert (sent + chunks)[..|all|] == all;
        return all, false;
      }
      all := all + [chunks[i]];
    }
    return all, true;
  }

  /** What the events before the first malformed one leave behind. */
  ghost function Read(random: nat -> string, id: string, model: string, es: seq<Option<Event>>): (State, seq<Chunk>) {
    ConsumeAll(random, NewState(id, model), WellFormed(es))
  }

  lemma NextEvent(random: nat -> string, start: State, good: seq<Event>, n: nat, s: State, sent: seq<Chunk>,
                  s1: State, more: seq<Chunk>)
    requires n < |good| && (s, sent) == ConsumeAll(random, start, good[..n]) && (s1, more) == Consume(random, s, good[n])
    ensures (s1, sent + more) == ConsumeAll(random, start, good[..n + 1])
  {
    TakeSnoc(good, n);
  }

  /** One event, and its frames. */
  method StreamEvent(state: StreamState, ghost start: State, ghost good: seq<Event>, ghost n: nat, e: Event,
                     failsAt: Option<nat>, sent: seq<Chunk>)
    returns (chunks: seq<Chunk>, ok: bool)
    requires n < |good| && good[n] == e
    requires (state.S(), sent) == ConsumeAll(state.random, start, good[..n]) && Taken(failsAt, sent) == sent
    modifies state
    ensures ok ==> (state.S(), chunks) == ConsumeAll(state.random, start, good[..n + 1]) && Taken(failsAt, chunks) == chunks
    ensures !ok ==> chunks == Taken(failsAt, ConsumeAll(state.random, start, good).1) != ConsumeAll(state.random, start, good).1
  {
    ghost var was := state.S();
    var more := state.ConsumeEvent(e);
    NextEvent(state.random, start, good, n, was, sent, state.S(), more);
    chunks, ok := Send(failsAt, sent, more);
    if !ok {
      EarlierChunks(state.random, start, good, n + 1);
      LostEarly(failsAt, sent + more, ConsumeAll(state.random, start, good).1);
    }
  }

  /** All events, until one is malformed or a frame is not taken. */
  method StreamEvents(random: nat -> string, id: string, model: string, es: seq<Option<Event>>, failsAt: Option<nat>)
    returns (fault: Option<Verdict>, state: StreamState, chunks: seq<Chunk>)
    ensures chunks == Taken(failsAt, Read(random, id, model, es).1)
    ensures fault == if chunks != Read(random, id, model, es).1 then Some(WriteFailed)
                     else if |WellFormed(es)| < |es| then Some(Malformed) else None
    ensures fault.None? ==> state.S() == Read(random, id, model, es).0
  {
    state := new StreamState(random, id, model);
    chunks := [];
    ghost var good, start := WellFormed(es), NewState(id, model);
    WellFormedFacts(es);
    for n := 0 to |es|
      invariant fresh(state) && state.random == random
      invariant n <= |good|
      invariant (state.S(), chunks) == ConsumeAll(random, start, good[..n])
      invariant Taken(failsAt, chunks) == chunks
    {
      if es[n].None? {
        TakeAll(good, n);
        return Some(Malformed), state, chunks;
      }
      assert es[n] == Some(good[n]);
      var ok;
      chunks, ok := StreamEvent(state, start, good, n, es[n].value, failsAt, chunks);
      if !ok {
        return Some(WriteFailed), state, chunks;
      }
    }
    TakeAll(good, |es|);
    fault := None;
  }

  /** streamResponse to a client whose write number failsAt fails, if any. chunks are the frames it
      got in full; done is whether the closing [DONE] frame was one of them. */
  method StreamResponse(random: nat -> string, id: string, model: string, es: seq<Option<Event>>, failsAt: Option<nat>)
    returns (v: Verdict, chunks: seq<Chunk>, done: bool)
    ensures done <==> v.Answered?
    ensures var (s, streamed) := Read(random, id, model, es);
            var end := if |WellFormed(es)| == |es| then VerdictOf(s) else Malformed;
            && chunks == Taken(failsAt, streamed)
            && v == if chunks != streamed || (end.Answered? && !Takes(failsAt, |streamed|)) then WriteFailed else end
  {
    WellFormedFacts(es);
    var fault, state;
    fault, state, chunks := StreamEvents(random, id, model, es, failsAt);
    if fault.Some? {
      return fault.value, chunks, false;
    }
    v := VerdictOf(state.S());
    if v.Answered? && !Takes(failsAt, |chunks|) {
      v := WriteFailed;
    }
    done := v.Answered?;
  }

  /** completeResponse. */
  method CompleteResponse(random: nat -> string, id: string, model: string, es: seq<Option<Event>>)
    returns (v: Verdict, message: Option<Message>)
    ensures var s := Read(random, id, model, es).0;
            && v == (if |WellFormed(es)| == |es| then VerdictOf(s) else Malformed)
            && message == if v.Answered? then Some(Collected(s)) else None
  {
    var state, _, ok := ConsumeStream(random, id, model, es);
    v := if ok then VerdictOf(state.S()) else Malformed;
    message := if v.Answered? then Some(Collected(state.S())) else None;
  }

  /** The streamed and the collected answer to the same events: the same verdict unless a client
      write failed, and when both answered, the same message. */
  method SameAnswer(random: nat -> string, id: string, model: string, es: seq<Option<Event>>, failsAt: Option<nat>)
    returns (streamed: Verdict, chunks: seq<Chunk>, collected: Verdict, message: Option<Message>)
    ensures streamed == collected || (streamed.WriteFailed? && failsAt.Some?)
    ensures streamed.Answered? ==> message.Some? && Reassemble(chunks) == message
    ensures collected.Answered? && failsAt.None? ==> streamed.Answered?
  {
    var done;
    streamed, chunks, done := StreamResponse(random, id, model, es, failsAt);
    collected, message := CompleteResponse(random, id, model, es);
    StreamAgreesWithCollected(random, id, model, WellFormed(es));
  }
}
