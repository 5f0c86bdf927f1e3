/** Whether the fragments of a tool call reach its block while it is open. Text stops the tool
    block on top, and the slot's index is looked up without asking: so a fragment is late exactly
    when text came while the slot was the last one opened. */
module AnthropicTools {
  import opened Bytes
  import opened AnthropicTx
  import opened AnthropicView

  // ---------------------------------------------------------------- the upstream's side

  predicate Called(ds: seq<Delta>, slot: int) { UpTool(ds, slot).Some? }

  /** The slot whose tool block is on top: the last one called first, unless text came since. */
  function Pending(ds: seq<Delta>): Option<int> {
    if ds == [] then None
    else
      var before, d := ds[..|ds| - 1], ds[|ds| - 1];
      match d
      case Says(_) => None
      case Calls(slot, _, _, _) => if Called(before, slot) then Pending(before) else Some(slot)
      case Ends(_) => Pending(before)
  }

  /** The slots text came on top of. */
  function Interrupted(ds: seq<Delta>): set<int> {
    if ds == [] then {}
    else
      var before := ds[..|ds| - 1];
      Interrupted(before) + if ds[|ds| - 1].Says? && Pending(before).Some? then {Pending(before).value} else {}
  }

  /** No fragment with arguments follows an interruption of its slot. */
  predicate NoneLate(ds: seq<Delta>) {
    forall k :: 0 <= k < |ds| && ds[k].Calls? && ds[k].arguments != "" ==> ds[k].slot !in Interrupted(ds[..k])
  }

  // ---------------------------------------------------------------- the client's side

  function StoppedBy(events: seq<Event>): set<nat> {
    match Play(events) case None => {} case Some(v) => v.stopped
  }

  /** Every partial_json goes to a block the client has not seen stopped. */
  predicate HitsOpen(events: seq<Event>) {
    forall k :: 0 <= k < |events| && events[k].InputDelta? ==> events[k].index !in StoppedBy(events[..k])
  }

  lemma HitsSnoc(events: seq<Event>, e: Event)
    ensures HitsOpen(events + [e]) <==> HitsOpen(events) && (e.InputDelta? ==> e.index !in StoppedBy(events))
  {
    var all := events + [e];
    assert all[..|events|] == events && all[|events|] == e;
    assert forall k :: 0 <= k < |events| ==> all[..k] == events[..k] && all[k] == events[k];
  }

  lemma NoneLateSnoc(ds: seq<Delta>, d: Delta)
    ensures NoneLate(ds + [d]) <==> NoneLate(ds) && (d.Calls? && d.arguments != "" ==> d.slot !in Interrupted(ds))
  {
    var all := ds + [d];
    assert all[..|ds|] == ds && all[|ds|] == d;
    assert forall k :: 0 <= k < |ds| ==> all[..k] == ds[..k] && all[k] == ds[k];
  }

  // ---------------------------------------------------------------- the invariant

  /** Which slots' blocks are open, and what is on top. */
  ghost predicate OpenSlots(t: Tx, ds: seq<Delta>) {
    && Interrupted(ds) <= t.toolBlocks.Keys
    && (forall s :: s in t.toolBlocks ==> (t.toolBlocks[s] in t.open <==> s !in Interrupted(ds)))
    && match Pending(ds)
       case None => t.open == [] || TopIsText(t)
       case Some(s) => s in t.toolBlocks && t.open != [] && t.open[|t.open| - 1] == t.toolBlocks[s]
  }

  /** The invariant of the stream with the two questions side by side. */
  ghost predicate Late(t: Tx, ds: seq<Delta>) {
    Inv(t, ds) && OpenSlots(t, ds) && (HitsOpen(t.events) <==> NoneLate(ds))
  }

  lemma Unfold(ds: seq<Delta>, d: Delta)
    ensures Pending(ds + [d]) == if d.Says? then None
                                 else if d.Calls? && !Called(ds, d.slot) then Some(d.slot)
                                 else Pending(ds)
    ensures Interrupted(ds + [d]) == Interrupted(ds)
                                     + if d.Says? && Pending(ds).Some? then {Pending(ds).value} else {}
  {
    assert (ds + [d])[..|ds|] == ds;
  }

  /** Closing the top and opening index instead. */
  lemma Replaced(open: seq<nat>, index: nat)
    requires open != [] && forall i, j :: 0 <= i < j < |open| ==> open[i] < open[j]
    requires forall i :: 0 <= i < |open| ==> open[i] < index
    ensures forall x: nat :: x in open[..|open| - 1] + [index]
                             <==> x == index || (x in open && x != open[|open| - 1])
  {
    PopOpen(open);
  }

  // ---------------------------------------------------------------- text

  /** The open list after text. */
  lemma TextOpen(t: Tx, text: string)
    requires Shape(t)
    ensures var r := OnText(t, text);
            && r.toolBlocks == t.toolBlocks
            && r.open == if TopIsText(t) then t.open
                         else if t.open == [] then [|t.blocks|]
                         else t.open[..|t.open| - 1] + [|t.blocks|]
  {
    assert TopIsText(Start(t)) <==> TopIsText(t);
  }

  /** When text takes the top over, the pending slot is the one that loses its place. */
  lemma TopTaken(open: seq<nat>, index: nat, slots: map<int, nat>, pending: Option<int>, interrupted: set<int>)
    requires open != [] && (forall i, j :: 0 <= i < j < |open| ==> open[i] < open[j])
    requires forall i :: 0 <= i < |open| ==> open[i] < index
    requires forall s :: s in slots ==> slots[s] < index && (slots[s] in open <==> s !in interrupted)
    requires forall s :: s in slots ==> (slots[s] == open[|open| - 1] <==> pending == Some(s))
    ensures forall s :: s in slots ==>
              (slots[s] in open[..|open| - 1] + [index]
               <==> s !in interrupted + if pending.Some? then {pending.value} else {})
  {
    Replaced(open, index);
  }

  lemma TextOpenSlots(t: Tx, ds: seq<Delta>, text: string)
    requires Inv(t, ds) && OpenSlots(t, ds)
    ensures OpenSlots(OnText(t, text), ds + [Says(text)])
  {
    TextOpen(t, text);
    Unfold(ds, Says(text));
    OnTextShape(t, text);
    if TopIsText(t) || t.open == [] {
      NothingPending(t, ds);
      SlotsBelow(t, ds);
    } else {
      TakesTop(t, ds);
    }
  }

  lemma SlotsBelow(t: Tx, ds: seq<Delta>)
    requires Inv(t, ds) && OpenSlots(t, ds)
    ensures forall s :: s in t.toolBlocks ==> t.toolBlocks[s] < |t.blocks|
  {
  }

  lemma TakesTop(t: Tx, ds: seq<Delta>)
    requires Inv(t, ds) && OpenSlots(t, ds) && t.open != []
    ensures forall s :: s in t.toolBlocks ==>
              (t.toolBlocks[s] in t.open[..|t.open| - 1] + [|t.blocks|]
               <==> s !in Interrupted(ds) + if Pending(ds).Some? then {Pending(ds).value} else {})
  {
    forall s | s in t.toolBlocks
      ensures t.toolBlocks[s] < |t.blocks| && (t.toolBlocks[s] == t.open[|t.open| - 1] <==> Pending(ds) == Some(s))
    {
      TopSlot(t, ds, s);
    }
    TopTaken(t.open, |t.blocks|, t.toolBlocks, Pending(ds), Interrupted(ds));
  }

  lemma NothingPending(t: Tx, ds: seq<Delta>)
    requires Inv(t, ds) && OpenSlots(t, ds) && (TopIsText(t) || t.open == [])
    ensures Pending(ds).None?
  {
    forall s | s in t.toolBlocks
      ensures Pending(ds) != Some(s)
    {
      TopSlot(t, ds, s);
    }
  }

  /** The slot on top is the pending one, and a text block on top is no slot's. */
  lemma TopSlot(t: Tx, ds: seq<Delta>, s: int)
    requires Inv(t, ds) && OpenSlots(t, ds) && s in t.toolBlocks
    ensures t.toolBlocks[s] < |t.blocks|
    ensures t.open != [] ==> (t.toolBlocks[s] == t.open[|t.open| - 1] <==> Pending(ds) == Some(s))
  {
    if Pending(ds).Some? && Pending(ds).value != s {
      assert t.toolBlocks[Pending(ds).value] != t.toolBlocks[s];
    }
  }

  // ---------------------------------------------------------------- tool fragments

  /** The open list after a slot's block was found or opened. */
  lemma SlotOpen(t: Tx, slot: int, id: string, name: string)
    requires Shape(t)
    ensures var r := SlotBlock(Start(t), slot, id, name);
            if slot in t.toolBlocks then r.toolBlocks == t.toolBlocks && r.open == t.open
            else
              && r.toolBlocks == t.toolBlocks[slot := |t.blocks|]
              && r.open == (if TopIsText(t) then t.open[..|t.open| - 1] else t.open) + [|t.blocks|]
  {
    assert TopIsText(Start(t)) <==> TopIsText(t);
  }

  lemma NewSlotOpen(t: Tx, ds: seq<Delta>, d: Delta)
    requires Inv(t, ds) && OpenSlots(t, ds) && d.Calls? && d.slot !in t.toolBlocks
    ensures OpenSlots(SlotBlock(Start(t), d.slot, d.id, d.name), ds + [d])
  {
    var r := SlotBlock(Start(t), d.slot, d.id, d.name);
    SlotOpen(t, d.slot, d.id, d.name);
    Unfold(ds, d);
    forall s | s in t.toolBlocks
      ensures t.toolBlocks[s] in r.open <==> t.toolBlocks[s] in t.open
    {
      StillOpen(t, ds, s);
    }
    assert r.open[|r.open| - 1] == |t.blocks| && r.toolBlocks[d.slot] == |t.blocks|;
  }

  /** Opening a block for another slot closes no slot's block. */
  lemma StillOpen(t: Tx, ds: seq<Delta>, s: int)
    requires Inv(t, ds) && OpenSlots(t, ds) && s in t.toolBlocks
    ensures t.toolBlocks[s] in (if TopIsText(t) then t.open[..|t.open| - 1] else t.open) + [|t.blocks|]
            <==> t.toolBlocks[s] in t.open
  {
    TopSlot(t, ds, s);
    if TopIsText(t) {
      NothingPending(t, ds);
      Replaced(t.open, |t.blocks|);
    }
  }

  lemma KnownSlotOpen(t: Tx, ds: seq<Delta>, d: Delta)
    requires Inv(t, ds) && OpenSlots(t, ds) && d.Calls? && d.slot in t.toolBlocks
    ensures OpenSlots(SlotBlock(Start(t), d.slot, d.id, d.name), ds + [d])
  {
    SlotOpen(t, d.slot, d.id, d.name);
    Unfold(ds, d);
    StartShape(t);
  }

  /** The open list and the slots are all that OpenSlots reads, but for what is on top. */
  lemma SameOpenSlots(t: Tx, r: Tx, ds: seq<Delta>)
    requires OpenSlots(t, ds) && r.open == t.open && r.toolBlocks == t.toolBlocks && |r.blocks| == |t.blocks|
    requires forall i :: 0 <= i < |t.blocks| ==> r.blocks[i].Text? == t.blocks[i].Text?
    ensures OpenSlots(r, ds)
  {
  }

  lemma InputOpenSlots(t: Tx, ds: seq<Delta>, at: nat, arguments: string)
    requires OpenSlots(t, ds)
    ensures OpenSlots(AppendInput(t, at, arguments), ds)
  {
    SameOpenSlots(t, AppendInput(t, at, arguments), ds);
  }

  lemma SlotOpenSlots(t: Tx, ds: seq<Delta>, d: Delta)
    requires Inv(t, ds) && OpenSlots(t, ds) && d.Calls?
    ensures var t1 := SlotBlock(Start(t), d.slot, d.id, d.name);
            OpenSlots(t1, ds + [d]) && d.slot in t1.toolBlocks && Interrupted(ds + [d]) == Interrupted(ds)
  {
    if d.slot in t.toolBlocks {
      KnownSlotOpen(t, ds, d);
    } else {
      NewSlotOpen(t, ds, d);
    }
    SlotThere(t, d);
    Unfold(ds, d);
  }

  lemma SlotThere(t: Tx, d: Delta)
    requires Shape(t) && d.Calls?
    ensures d.slot in SlotBlock(Start(t), d.slot, d.id, d.name).toolBlocks
  {
    SlotOpen(t, d.slot, d.id, d.name);
  }

  lemma CallOpenSlots(t: Tx, ds: seq<Delta>, d: Delta)
    requires Inv(t, ds) && OpenSlots(t, ds) && d.Calls?
    ensures var t1 := SlotBlock(Start(t), d.slot, d.id, d.name);
            && OpenSlots(t1, ds + [d]) && OpenSlots(Step(t, d), ds + [d])
            && d.slot in t1.toolBlocks && (t1.toolBlocks[d.slot] in t1.open <==> d.slot !in Interrupted(ds))
  {
    var t1 := SlotBlock(Start(t), d.slot, d.id, d.name);
    SlotOpenSlots(t, ds, d);
    InputOpenSlots(t1, ds + [d], t1.toolBlocks[d.slot], d.arguments);
  }

  // ---------------------------------------------------------------- events

  lemma NoInput(events: seq<Event>, e: Event)
    requires !e.InputDelta?
    ensures HitsOpen(events + [e]) <==> HitsOpen(events)
  {
    HitsSnoc(events, e);
  }

  lemma StartHits(t: Tx)
    ensures HitsOpen(Start(t).events) <==> HitsOpen(t.events)
  {
    NoInput(t.events, MessageStart(t.usage.input));
  }

  lemma CloseHits(t: Tx)
    ensures HitsOpen(CloseLast(t).events) <==> HitsOpen(t.events)
  {
    if t.open != [] {
      NoInput(t.events, BlockStop(t.open[|t.open| - 1]));
    }
  }

  lemma OpenHits(t: Tx, kind: Kind)
    ensures HitsOpen(OpenBlock(t, kind).events) <==> HitsOpen(t.events)
  {
    NoInput(t.events, BlockStart(|t.blocks|, kind));
  }

  lemma ReadyHits(t: Tx)
    ensures HitsOpen(TextReady(t).events) <==> HitsOpen(t.events)
  {
    StartHits(t);
    CloseHits(Start(t));
    OpenHits(CloseLast(Start(t)), TextKind);
  }

  lemma TextHits(t: Tx, text: string)
    ensures HitsOpen(OnText(t, text).events) <==> HitsOpen(t.events)
  {
    ReadyHits(t);
    var ready := TextReady(t);
    NoInput(ready.events, TextDelta(ready.open[|ready.open| - 1], text));
  }

  lemma SlotHits(t: Tx, slot: int, id: string, name: string)
    ensures HitsOpen(SlotBlock(t, slot, id, name).events) <==> HitsOpen(t.events)
  {
    CloseHits(t);
    OpenHits(t, ToolKind(id, name));
    OpenHits(CloseLast(t), ToolKind(id, name));
  }

  /** Arguments reach an open block exactly when the block is in the open list. */
  lemma InputHits(t: Tx, at: nat, arguments: string)
    requires Shape(t) && at < |t.blocks| && t.blocks[at].ToolUse?
    ensures HitsOpen(AppendInput(t, at, arguments).events)
            <==> HitsOpen(t.events) && (arguments != "" ==> at in t.open)
  {
    HitsSnoc(t.events, InputDelta(at, arguments));
  }

  /** A slot's block, and the shape it is found in. */
  lemma SlotShape(t: Tx, ds: seq<Delta>, d: Delta)
    requires Inv(t, ds) && d.Calls?
    ensures var t1 := SlotBlock(Start(t), d.slot, d.id, d.name);
            && Shape(t1) && d.slot in t1.toolBlocks
            && t1.toolBlocks[d.slot] < |t1.blocks| && t1.blocks[t1.toolBlocks[d.slot]].ToolUse?
  {
    StartShape(t);
    if d.slot !in Start(t).toolBlocks {
      SlotBlockShape(Start(t), d.slot, d.id, d.name);
    }
  }

  lemma CallLate(t: Tx, ds: seq<Delta>, d: Delta)
    requires Late(t, ds) && d.Calls?
    ensures OpenSlots(Step(t, d), ds + [d]) && (HitsOpen(Step(t, d).events) <==> NoneLate(ds + [d]))
  {
    var t1 := SlotBlock(Start(t), d.slot, d.id, d.name);
    CallOpenSlots(t, ds, d);
    SlotShape(t, ds, d);
    StartHits(t);
    SlotHits(Start(t), d.slot, d.id, d.name);
    InputHits(t1, t1.toolBlocks[d.slot], d.arguments);
    NoneLateSnoc(ds, d);
  }

  lemma TextLate(t: Tx, ds: seq<Delta>, text: string)
    requires Late(t, ds)
    ensures OpenSlots(OnText(t, text), ds + [Says(text)])
    ensures HitsOpen(OnText(t, text).events) <==> NoneLate(ds + [Says(text)])
  {
    TextOpenSlots(t, ds, text);
    TextHits(t, text);
    NoneLateSnoc(ds, Says(text));
  }

  lemma EndLate(t: Tx, ds: seq<Delta>, reason: string)
    requires Late(t, ds)
    ensures OpenSlots(Step(t, Ends(reason)), ds + [Ends(reason)])
    ensures HitsOpen(Step(t, Ends(reason)).events) <==> NoneLate(ds + [Ends(reason)])
  {
    Unfold(ds, Ends(reason));
    SameOpenSlots(t, Step(t, Ends(reason)), ds);
    NoneLateSnoc(ds, Ends(reason));
  }

  lemma StepLate(t: Tx, ds: seq<Delta>, d: Delta)
    requires Late(t, ds)
    ensures Late(Step(t, d), ds + [d])
  {
    StepKeepsInv(t, ds, d);
    match d
    case Says(text) => TextLate(t, ds, text);
    case Calls(_, _, _, _) => CallLate(t, ds, d);
    case Ends(reason) => EndLate(t, ds, reason);
  }

  lemma {:induction false} StepsLate(t: Tx, before: seq<Delta>, ds: seq<Delta>)
    requires Late(t, before)
    ensures Late(Steps(t, ds), before + ds)
  {
    if ds == [] {
      EmptyRight(before);
    } else {
      var init, d := ds[..|ds| - 1], ds[|ds| - 1];
      StepsLate(t, before, init);
      LastApart(before, ds);
      StepLate(Steps(t, init), before + init, d);
    }
  }

  lemma InitialLate()
    ensures Late(INITIAL, [])
  {
    InitialInv();
  }

  lemma UsageLate(t: Tx, ds: seq<Delta>, usage: Usage)
    requires Late(t, ds)
    ensures Late(t.(usage := usage), ds)
  {
    UsageKeepsInv(t, ds, usage);
    SameOpenSlots(t, t.(usage := usage), ds);
  }

  lemma {:induction false} LinesLate(read: bytes -> Option<Chunk>, ls: seq<bytes>)
    ensures Late(OnLines(read, INITIAL, ls), LineDeltas(read, ls))
  {
    if ls == [] {
      InitialLate();
    } else {
      var init, chunk := ls[..|ls| - 1], read(ls[|ls| - 1]);
      var t, ds := OnLines(read, INITIAL, init), LineDeltas(read, init);
      LinesLate(read, init);
      if chunk.None? {
        EmptyRight(ds);
      } else if chunk.value.usage.Some? {
        UsageLate(t, ds, chunk.value.usage.value);
        StepsLate(t.(usage := chunk.value.usage.value), ds, ChunkDeltas(chunk.value.choices));
      } else {
        StepsLate(t, ds, ChunkDeltas(chunk.value.choices));
      }
    }
  }

  // ---------------------------------------------------------------- what holds exactly

  /** After any lines, a slot's block is closed exactly when text came on top of it. */
  lemma ClosedIffInterrupted(read: bytes -> Option<Chunk>, ls: seq<bytes>, slot: int)
    requires slot in OnLines(read, INITIAL, ls).toolBlocks
    ensures var t := OnLines(read, INITIAL, ls);
            t.toolBlocks[slot] !in t.open <==> slot in Interrupted(LineDeltas(read, ls))
  {
    LinesLate(read, ls);
  }

  lemma {:induction false} StopsHit(events: seq<Event>, open: seq<nat>)
    ensures HitsOpen(events + Stops(open)) <==> HitsOpen(events)
  {
    if open == [] {
      EmptyRight(events);
    } else {
      var init, last := open[..|open| - 1], open[|open| - 1];
      StopsHit(events, init);
      Assoc(events, Stops(init), [BlockStop(last)]);
      NoInput(events + Stops(init), BlockStop(last));
    }
  }

  lemma FinishHits(t: Tx, began: bool, failure: Option<string>)
    ensures HitsOpen(t.events + FinishEvents(t, began, failure)) <==> HitsOpen(t.events)
  {
    var tail := FinishEvents(t, began, failure);
    if tail == [] {
      EmptyRight(t.events);
    } else if t.committed && failure.None? {
      var delta := MessageDelta(StopReason(t.stopReason), t.usage.output);
      StopsHit(t.events, t.open);
      NoInput(t.events + Stops(t.open), delta);
      NoInput(t.events + Stops(t.open) + [delta], MessageStop);
      assert t.events + (Stops(t.open) + [delta, MessageStop]) == t.events + Stops(t.open) + [delta] + [MessageStop];
    } else {
      NoInput(t.events, tail[0]);
    }
  }

  /** Of a whole reply: every tool fragment reaches an open block exactly when no fragment with
      arguments follows an interruption of its slot. */
  lemma ToolsHitOpenIff(read: bytes -> Option<Chunk>, ls: seq<bytes>, began: bool, failure: Option<string>)
    ensures var t := OnLines(read, INITIAL, ls);
            HitsOpen(t.events + FinishEvents(t, began, failure)) <==> NoneLate(LineDeltas(read, ls))
  {
    LinesLate(read, ls);
    FinishHits(OnLines(read, INITIAL, ls), began, failure);
  }

  /** Text between two fragments of one call breaks it, whatever else the fragments carry. */
  lemma TextBetweenFragments(slot: int, id: string, name: string, a: string, text: string, b: string)
    requires b != ""
    ensures var ds := [Calls(slot, id, name, a), Says(text), Calls(slot, id, name, b)];
            !HitsOpen(Steps(INITIAL, ds).events)
  {
    var first, says, last := Calls(slot, id, name, a), Says(text), Calls(slot, id, name, b);
    var ds := [first, says, last];
    InitialLate();
    StepsLate(INITIAL, [], ds);
    EmptyLeft(ds);
    InterruptedAt(first, says);
    assert ds[..2] == [first, says] && ds[2] == last;
  }

  lemma InterruptedAt(first: Delta, says: Delta)
    requires first.Calls? && says.Says?
    ensures first.slot in Interrupted([first, says])
  {
    Unfold([], first);
    Unfold([first], says);
    EmptyLeft([first]);
    assert [first] + [says] == [first, says];
  }
}
