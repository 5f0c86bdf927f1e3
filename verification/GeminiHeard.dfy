/** Which user texts reach the contents (internal/provider/antigravity/translate.go:81-139,
    221-231): an exchange uses up every message up to the next assistant, users' included. */
module GeminiHeard {
  import opened Bytes
  import opened GeminiContents

  /** A message whose text belongs in a user turn, once the leading system messages are over. */
  predicate Speaks(m: Message) { m.Message? && m.role != "assistant" && m.role != "tool" }

  /** The last assistant message before i made calls. */
  predicate Asked(ms: seq<Message>, i: nat)
    requires i <= |ms|
  {
    i > 0 && StillAnswering(ms[i - 1], Asked(ms, i - 1))
  }

  /** Message k has a user's text, behind an assistant message that made calls. */
  predicate Unheard(ms: seq<Message>, k: nat)
    requires k < |ms|
  {
    Speaks(ms[k]) && ms[k].texts != [] && Asked(ms, k)
  }

  function TextsOf(m: Message): seq<Part> { if Speaks(m) then m.texts else [] }

  /** All user texts of the messages from i on. */
  function Spoken(ms: seq<Message>, i: nat, started: bool): seq<Part>
    requires i <= |ms|
    decreases |ms| - i
  {
    if i == |ms| then []
    else if LeadsIn(ms[i], started) then Spoken(ms, i + 1, false)
    else TextsOf(ms[i]) + Spoken(ms, i + 1, true)
  }

  function TextsIn(t: Turn): seq<Part> { if t.role == "user" && OnlyTexts(t.parts) then t.parts else [] }

  /** All texts of the user turns. */
  function Heard(turns: seq<Turn>): seq<Part> {
    if turns == [] then [] else TextsIn(turns[0]) + Heard(turns[1..])
  }

  lemma HeardOne(t: Turn, rest: seq<Turn>)
    ensures Heard([t] + rest) == TextsIn(t) + Heard(rest)
  {
    assert ([t] + rest)[1..] == rest;
  }

  /** No message is malformed, no assistant's calls are. */
  predicate Faultless(ms: seq<Message>) { forall i :: 0 <= i < |ms| ==> FaultOf(ms, i).None? }

  lemma {:induction false} FaultlessFrom(ms: seq<Message>, i: nat)
    requires i <= |ms|
    ensures FirstFault(ms, i).None? <==> forall k :: i <= k < |ms| ==> FaultOf(ms, k).None?
    decreases |ms| - i
  {
    if i < |ms| {
      FaultlessFrom(ms, i + 1);
    }
  }

  lemma OkIffFaultless(decode: Decode, messages: seq<Json>)
    ensures All(decode, messages).Ok? <==> Faultless(Views(decode, messages))
  {
    FailsExactlyOnFault(decode, messages);
    FaultlessFrom(Views(decode, messages), 0);
  }

  /** What one message adds to what is heard: its texts, unless they are unheard. */
  lemma TurnsHeard(ms: seq<Message>, i: nat, rest: seq<Turn>)
    requires i < |ms| && AllProper(ms) && FaultOf(ms, i).None?
    ensures Heard(TurnsOf(ms, i, Asked(ms, i)) + rest) == (if Unheard(ms, i) then [] else TextsOf(ms[i])) + Heard(rest)
  {
    var m := ms[i];
    EmptyLeft(rest);
    EmptyLeft(Heard(rest));
    if IsAssistant(m) {
      SaidIsNotHeard(ms, i, m.texts, m.calls.value, rest);
    } else if m.role != "tool" && !Asked(ms, i) && m.texts != [] {
      HeardOne(Turn("user", m.texts), rest);
    }
  }

  lemma SaidIsNotHeard(ms: seq<Message>, i: nat, texts: seq<Part>, calls: seq<Part>, rest: seq<Turn>)
    requires i < |ms| && OnlyCalls(calls)
    ensures Heard(SaidBy(ms, i, texts, calls) + rest) == Heard(rest)
  {
    EmptyLeft(rest);
    EmptyLeft(Heard(rest));
    if calls == [] {
      HeardOne(Turn("model", texts), rest);
    } else {
      var replies := Replies(ms[i + 1..i + 1 + Window(ms, i + 1)], calls);
      assert replies[0].Response?;
      HeardOne(Turn("user", replies), rest);
      HeardOne(Turn("model", texts + calls), [Turn("user", replies)] + rest);
      Assoc([Turn("model", texts + calls)], [Turn("user", replies)], rest);
    }
  }

  /** What is heard falls short of what is spoken by the unheard texts. */
  lemma {:induction false} HeardFrom(ms: seq<Message>, i: nat, started: bool)
    requires i <= |ms| && AllProper(ms) && Faultless(ms) && (Asked(ms, i) ==> started)
    ensures var heard, spoken := Heard(Told(ms, i, started, Asked(ms, i)).turns), Spoken(ms, i, started);
            && |heard| <= |spoken|
            && (heard == spoken <==> |heard| == |spoken|)
            && (heard == spoken <==> forall k :: i <= k < |ms| ==> !Unheard(ms, k))
    decreases |ms| - i
  {
    if i < |ms| {
      assert FaultOf(ms, i).None?;
      if LeadsIn(ms[i], started) {
        HeardFrom(ms, i + 1, false);
      } else {
        HeardFrom(ms, i + 1, true);
        TurnsHeard(ms, i, Told(ms, i + 1, true, Asked(ms, i + 1)).turns);
      }
    }
  }

  /** Every user text reaches the contents, in order, exactly when none stands behind an assistant
      message that made calls, with no other assistant message in between. */
  lemma EveryoneIsHeardIff(decode: Decode, messages: seq<Json>)
    requires All(decode, messages).Ok?
    ensures var ms := Views(decode, messages);
            Heard(All(decode, messages).value.turns) == Spoken(ms, 0, false) <==> forall k :: 0 <= k < |ms| ==> !Unheard(ms, k)
  {
    JumpMovesNothing(decode, messages);
    OkIffFaultless(decode, messages);
    HeardFrom(Views(decode, messages), 0, false);
  }

  // ---------------------------------------------------------------- a family of lost texts

  function UserSays(text: string): Json { Obj(map["role" := Str("user"), "content" := Str(text)]) }

  lemma {:induction false} AskedByPrefix(ms: seq<Message>, more: seq<Message>, i: nat)
    requires i <= |ms|
    ensures Asked(ms + more, i) == Asked(ms, i)
  {
    if i > 0 {
      AskedByPrefix(ms, more, i - 1);
    }
  }

  lemma AddedIsUnheard(ms: seq<Message>, m: Message)
    requires Faultless(ms) && Asked(ms, |ms|) && Speaks(m) && m.texts != []
    ensures Faultless(ms + [m]) && Unheard(ms + [m], |ms|)
  {
    AskedByPrefix(ms, [m], |ms|);
    forall i | 0 <= i < |ms + [m]|
      ensures FaultOf(ms + [m], i).None?
    {
      assert i < |ms| ==> FaultOf(ms, i).None?;
    }
  }

  /** Whatever was said before: what a user says after calls, before another assistant message, is
      lost, though the translation succeeds. */
  lemma UserBehindCallsIsLost(decode: Decode, messages: seq<Json>, text: string)
    requires All(decode, messages).Ok? && Asked(Views(decode, messages), |messages|) && text != ""
    ensures var all := messages + [UserSays(text)];
            && All(decode, all).Ok?
            && |Heard(All(decode, all).value.turns)| < |Spoken(Views(decode, all), 0, false)|
  {
    var all := messages + [UserSays(text)];
    var m := View(decode, UserSays(text), |messages|);
    OkIffFaultless(decode, messages);
    OkIffFaultless(decode, all);
    assert all[..|messages|] == messages;
    assert Views(decode, all) == Views(decode, messages) + [m];
    AddedIsUnheard(Views(decode, messages), m);
    JumpMovesNothing(decode, all);
    HeardFrom(Views(decode, all), 0, false);
  }
}
