/** Chat messages as Gemini contents (internal/provider/antigravity/translate.go:81-285): text
    becomes turns, and each model turn with function calls is followed at once by the one user
    turn that answers them. Decoding call arguments is a parameter. */
module GeminiContents {
  import opened Bytes

  type Fields = map<string, Json>
  type Decode = string -> Option<Json>

  /** An absent id is the empty string, as the source reads it. */
  datatype Part =
    | Text(text: string)
    | Call(id: string, name: string, args: Json)
    | Response(id: string, name: string, result: string)

  datatype Turn = Turn(role: string, parts: seq<Part>)

  datatype Error = NotObject(message: nat) | CallsNotList(message: nat) | CallNotObject(message: nat, call: nat)

  datatype Result<T> = Ok(value: T) | Err(error: Error)

  /** The system instruction's parts (none at all is no instruction) and the turns. */
  datatype Contents = Contents(system: seq<Part>, turns: seq<Turn>)

  function Field(f: Fields, key: string): Json { if key in f then f[key] else Null }

  function StringOf(v: Json): string { if v.Str? then v.s else "" }

  function Role(f: Fields): string { StringOf(Field(f, "role")) }

  // ---------------------------------------------------------------- one message

  function PartText(raw: Json): string {
    if raw.Obj? && Field(raw.fields, "type") == Str("text") then StringOf(Field(raw.fields, "text")) else ""
  }

  function ListTexts(items: seq<Json>): seq<Part> {
    if items == [] then []
    else
      var before, text := ListTexts(items[..|items| - 1]), PartText(items[|items| - 1]);
      if text == "" then before else before + [Text(text)]
  }

  function TextParts(content: Json): seq<Part> {
    match content
    case Str(s) => if s == "" then [] else [Text(s)]
    case Arr(items) => ListTexts(items)
    case _ => []
  }

  function JoinTexts(items: seq<Json>): string {
    if items == [] then "" else JoinTexts(items[..|items| - 1]) + PartText(items[|items| - 1])
  }

  function ContentText(content: Json): string {
    match content
    case Str(s) => s
    case Arr(items) => JoinTexts(items)
    case _ => ""
  }

  function CallArgs(decode: Decode, raw: Json): Json {
    var text := StringOf(raw);
    if text == "" then Obj(map[])
    else
      match decode(text)
      case None => Obj(map["params" := Str(text)])
      case Some(args) => if args.Null? then Obj(map[]) else args
  }

  /** The call a tool_calls entry makes, if it is a function call with a name. */
  function CallOf(decode: Decode, call: Fields): Option<Part> {
    var kind := StringOf(Field(call, "type"));
    var fn := if Field(call, "function").Obj? then Field(call, "function").fields else map[];
    var name := StringOf(Field(fn, "name"));
    if (kind != "" && kind != "function") || name == "" then None
    else Some(Call(StringOf(Field(call, "id")), name, CallArgs(decode, Field(fn, "arguments"))))
  }

  function ListCalls(decode: Decode, calls: seq<Json>): seq<Part>
    requires forall i :: 0 <= i < |calls| ==> calls[i].Obj?
  {
    if calls == [] then []
    else
      var before := ListCalls(decode, calls[..|calls| - 1]);
      match CallOf(decode, calls[|calls| - 1].fields)
      case None => before
      case Some(part) => before + [part]
  }

  /** Index of the first entry that is not an object. */
  function FirstOther(calls: seq<Json>): (n: nat)
    ensures n <= |calls| && forall i :: 0 <= i < n ==> calls[i].Obj?
    ensures n < |calls| ==> !calls[n].Obj?
  {
    if calls == [] || !calls[0].Obj? then 0 else 1 + FirstOther(calls[1..])
  }

  lemma {:induction false} CallsAreCalls(decode: Decode, calls: seq<Json>)
    requires forall i :: 0 <= i < |calls| ==> calls[i].Obj?
    ensures forall p :: p in ListCalls(decode, calls) ==> p.Call?
  {
    if calls != [] {
      CallsAreCalls(decode, calls[..|calls| - 1]);
    }
  }

  lemma {:induction false} TextsAreTexts(items: seq<Json>)
    ensures forall p :: p in ListTexts(items) ==> p.Text?
  {
    if items != [] {
      TextsAreTexts(items[..|items| - 1]);
    }
  }

  function AssistantCalls(decode: Decode, f: Fields, at: nat): (r: Result<seq<Part>>)
    ensures r.Ok? ==> OnlyCalls(r.value)
  {
    match Field(f, "tool_calls")
    case Null => Ok([])
    case Arr(calls) =>
      if FirstOther(calls) == |calls| then
        CallsAreCalls(decode, calls);
        assert forall j :: 0 <= j < |ListCalls(decode, calls)| ==> ListCalls(decode, calls)[j] in ListCalls(decode, calls);
        Ok(ListCalls(decode, calls))
      else Err(CallNotObject(at, FirstOther(calls)))
    case _ => Err(CallsNotList(at))
  }

  // ---------------------------------------------------------------- the list of messages

  lemma TextPartsAreTexts(content: Json)
    ensures OnlyTexts(TextParts(content))
  {
    if content.Arr? {
      TextsAreTexts(content.items);
      assert forall j :: 0 <= j < |ListTexts(content.items)| ==> ListTexts(content.items)[j] in ListTexts(content.items);
    }
  }

  /** What the translation reads in one message: its role, its text, its calls (of use for an
      assistant), the id it answers and the text of that answer (of use for a tool). */
  datatype Message =
    | NoObject
    | Message(role: string, texts: seq<Part>, calls: Result<seq<Part>>, answers: string, text: string)

  function View(decode: Decode, m: Json, at: nat): (r: Message)
    ensures Proper(r)
  {
    if !m.Obj? then NoObject
    else
      var content := Field(m.fields, "content");
      TextPartsAreTexts(content);
      Message(Role(m.fields), TextParts(content), AssistantCalls(decode, m.fields, at),
              StringOf(Field(m.fields, "tool_call_id")), ContentText(content))
  }

  function Views(decode: Decode, messages: seq<Json>): (ms: seq<Message>)
    ensures |ms| == |messages|
  {
    if messages == [] then []
    else
      var n := |messages| - 1;
      Views(decode, messages[..n]) + [View(decode, messages[n], n)]
  }

  lemma {:induction false} ViewsAt(decode: Decode, messages: seq<Json>, i: nat)
    requires i < |messages|
    ensures Views(decode, messages)[i] == View(decode, messages[i], i)
  {
    if i < |messages| - 1 {
      ViewsAt(decode, messages[..|messages| - 1], i);
    }
  }

  lemma ViewsProper(decode: Decode, messages: seq<Json>)
    ensures AllProper(Views(decode, messages))
  {
    forall i | 0 <= i < |messages|
      ensures Proper(Views(decode, messages)[i])
    {
      ViewsAt(decode, messages, i);
    }
  }

  predicate OnlyTexts(parts: seq<Part>) { forall j :: 0 <= j < |parts| ==> parts[j].Text? }

  predicate OnlyCalls(parts: seq<Part>) { forall j :: 0 <= j < |parts| ==> parts[j].Call? }

  predicate Proper(m: Message) { m.Message? ==> OnlyTexts(m.texts) && (m.calls.Ok? ==> OnlyCalls(m.calls.value)) }

  predicate AllProper(ms: seq<Message>) { forall i :: 0 <= i < |ms| ==> Proper(ms[i]) }

  predicate IsAssistant(m: Message) { m.Message? && m.role == "assistant" }

  /** Neither an assistant nor malformed: what an exchange may use up. */
  predicate Passes(m: Message) { m.Message? && m.role != "assistant" }

  /** The messages that can answer an assistant: up to the next assistant, or to a message that
      is no object. */
  function Window(ms: seq<Message>, i: nat): (n: nat)
    requires i <= |ms|
    ensures i + n <= |ms|
    ensures forall k :: i <= k < i + n ==> Passes(ms[k])
    ensures i + n < |ms| ==> !Passes(ms[i + n])
    decreases |ms| - i
  {
    if i == |ms| || !Passes(ms[i]) then 0 else 1 + Window(ms, i + 1)
  }

  predicate Answers(m: Message, id: string) { m.Message? && m.role == "tool" && id != "" && m.answers == id }

  /** The result a call gets: the text of the last tool message with its id, {} without one. */
  function ResultFor(window: seq<Message>, id: string): string {
    if window == [] then "{}"
    else
      var last := window[|window| - 1];
      if Answers(last, id) then (if last.text == "" then "{}" else last.text)
      else ResultFor(window[..|window| - 1], id)
  }

  function Replies(window: seq<Message>, calls: seq<Part>): (replies: seq<Part>)
    requires OnlyCalls(calls)
  {
    seq(|calls|, i requires 0 <= i < |calls| => Response(calls[i].id, calls[i].name, ResultFor(window, calls[i].id)))
  }

  function Say(system: seq<Part>, turns: seq<Turn>, rest: Result<Contents>): Result<Contents> {
    match rest
    case Err(_) => rest
    case Ok(c) => Ok(Contents(system + c.system, turns + c.turns))
  }

  function UserTurn(parts: seq<Part>): seq<Turn> { if parts == [] then [] else [Turn("user", parts)] }

  /** What one round of the loop adds, and where the next one starts. */
  datatype Step = Step(system: seq<Part>, turns: seq<Turn>, next: nat, started: bool)

  function Round(ms: seq<Message>, i: nat, started: bool): (r: Result<Step>)
    requires i < |ms| && AllProper(ms)
    ensures r.Ok? ==> i < r.value.next <= |ms|
  {
    var m := ms[i];
    if m.NoObject? then Err(NotObject(i))
    else if (m.role == "system" || m.role == "developer") && !started then Ok(Step(m.texts, [], i + 1, false))
    else if m.role == "tool" then Ok(Step([], [], i + 1, true))
    else if m.role != "assistant" then Ok(Step([], UserTurn(m.texts), i + 1, true))
    else AssistantRound(ms, i, m.texts, m.calls)
  }

  function AssistantRound(ms: seq<Message>, i: nat, texts: seq<Part>, made: Result<seq<Part>>): (r: Result<Step>)
    requires i < |ms| && (made.Ok? ==> OnlyCalls(made.value))
    ensures r.Ok? ==> i < r.value.next <= |ms|
  {
    match made
    case Err(e) => Err(e)
    case Ok(calls) =>
      if texts + calls == [] then Ok(Step([], [], i + 1, true))
      else if calls == [] then Ok(Step([], [Turn("model", texts)], i + 1, true))
      else
        var end := i + 1 + Window(ms, i + 1);
        Ok(Step([], [Turn("model", texts + calls), Turn("user", Replies(ms[i + 1..end], calls))], end, true))
  }

  /** The contents of the messages from i on. */
  function From(ms: seq<Message>, i: nat, started: bool): Result<Contents>
    requires i <= |ms| && AllProper(ms)
    decreases |ms| - i
  {
    if i == |ms| then Ok(Contents([], []))
    else
      match Round(ms, i, started)
      case Err(e) => Err(e)
      case Ok(step) => Say(step.system, step.turns, From(ms, step.next, step.started))
  }

  function All(decode: Decode, messages: seq<Json>): Result<Contents> {
    ViewsProper(decode, messages);
    From(Views(decode, messages), 0, false)
  }

  // ---------------------------------------------------------------- when it succeeds

  /** What is wrong with message i on its own. */
  function FaultOf(ms: seq<Message>, i: nat): Option<Error>
    requires i < |ms|
  {
    if ms[i].NoObject? then Some(NotObject(i))
    else if ms[i].role == "assistant" && ms[i].calls.Err? then Some(ms[i].calls.error)
    else None
  }

  function FirstFault(ms: seq<Message>, i: nat): Option<Error>
    requires i <= |ms|
    decreases |ms| - i
  {
    if i == |ms| then None
    else if FaultOf(ms, i).Some? then FaultOf(ms, i)
    else FirstFault(ms, i + 1)
  }

  lemma {:induction false} NoFaultAhead(ms: seq<Message>, i: nat, n: nat)
    requires i + n <= |ms| && forall k :: i <= k < i + n ==> Passes(ms[k])
    ensures FirstFault(ms, i) == FirstFault(ms, i + n)
    decreases n
  {
    if n > 0 {
      NoFaultAhead(ms, i + 1, n - 1);
    }
  }

  /** The jump over an exchange hides no fault. */
  lemma {:induction false} FailsAtFirstFault(ms: seq<Message>, i: nat, started: bool)
    requires i <= |ms| && AllProper(ms)
    ensures match FirstFault(ms, i)
            case None => From(ms, i, started).Ok?
            case Some(e) => From(ms, i, started) == Err(e)
    decreases |ms| - i
  {
    if i < |ms| && FaultOf(ms, i).None? {
      var step := Round(ms, i, started).value;
      NoFaultAhead(ms, i + 1, Window(ms, i + 1));
      FailsAtFirstFault(ms, step.next, step.started);
    }
  }

  /** It fails exactly when some message is faulty, with the error of the first one. */
  lemma FailsExactlyOnFault(decode: Decode, messages: seq<Json>)
    ensures match FirstFault(Views(decode, messages), 0)
            case None => All(decode, messages).Ok?
            case Some(e) => All(decode, messages) == Err(e)
  {
    ViewsProper(decode, messages);
    FailsAtFirstFault(Views(decode, messages), 0, false);
  }

  // ---------------------------------------------------------------- calls and their answers

  predicate HasCalls(t: Turn) { exists j :: 0 <= j < |t.parts| && t.parts[j].Call? }

  predicate HasResponses(t: Turn) { exists j :: 0 <= j < |t.parts| && t.parts[j].Response? }

  function CallsIn(parts: seq<Part>): (calls: seq<Part>)
    ensures forall j :: 0 <= j < |calls| ==> calls[j].Call?
  {
    if parts == [] then []
    else if parts[0].Call? then [parts[0]] + CallsIn(parts[1..])
    else CallsIn(parts[1..])
  }

  /** One response for each call, with its name and id, in order, and nothing else. */
  predicate AnswersTurn(model: Turn, user: Turn) {
    var calls := CallsIn(model.parts);
    && user.role == "user" && |user.parts| == |calls|
    && forall j :: 0 <= j < |calls| ==>
         user.parts[j].Response? && user.parts[j].id == calls[j].id && user.parts[j].name == calls[j].name
  }

  predicate Paired(turns: seq<Turn>) {
    turns == []
    || (!HasResponses(turns[0])
        && if HasCalls(turns[0]) then
             turns[0].role == "model" && |turns| >= 2 && AnswersTurn(turns[0], turns[1]) && !HasCalls(turns[1])
             && Paired(turns[2..])
           else Paired(turns[1..]))
  }

  /** The turns one message makes, in place: an assistant's turn, with the turn that answers its
      calls from the messages up to the next assistant; any other message's text, unless it is a
      tool's or the last assistant before it made calls. */
  function TurnsOf(ms: seq<Message>, i: nat, answering: bool): seq<Turn>
    requires i < |ms| && AllProper(ms)
  {
    var m := ms[i];
    if m.NoObject? then []
    else if m.role == "assistant" then (if m.calls.Ok? then SaidBy(ms, i, m.texts, m.calls.value) else [])
    else if m.role == "tool" || answering then []
    else UserTurn(m.texts)
  }

  function SaidBy(ms: seq<Message>, i: nat, texts: seq<Part>, calls: seq<Part>): seq<Turn>
    requires i < |ms| && OnlyCalls(calls)
  {
    if texts + calls == [] then []
    else if calls == [] then [Turn("model", texts)]
    else [Turn("model", texts + calls), Turn("user", Replies(ms[i + 1..i + 1 + Window(ms, i + 1)], calls))]
  }

  predicate LeadsIn(m: Message, started: bool) { m.Message? && (m.role == "system" || m.role == "developer") && !started }

  predicate StillAnswering(m: Message, answering: bool) {
    if IsAssistant(m) then m.calls.Ok? && m.calls.value != [] else answering
  }

  /** What is told when the messages are taken one at a time, none skipped and in order: leading
      system messages go to the instruction, every other message makes its turns. */
  function Told(ms: seq<Message>, i: nat, started: bool, answering: bool): Contents
    requires i <= |ms| && AllProper(ms)
    decreases |ms| - i
  {
    if i == |ms| || ms[i].NoObject? then Contents([], [])
    else if LeadsIn(ms[i], started) then
      var rest := Told(ms, i + 1, false, answering);
      Contents(ms[i].texts + rest.system, rest.turns)
    else
      var rest := Told(ms, i + 1, true, StillAnswering(ms[i], answering));
      Contents(rest.system, TurnsOf(ms, i, answering) + rest.turns)
  }

  lemma {:induction false} CallsInMixed(texts: seq<Part>, calls: seq<Part>)
    requires OnlyTexts(texts) && OnlyCalls(calls)
    ensures CallsIn(texts + calls) == calls
    decreases |texts| + |calls|
  {
    if texts != [] {
      assert (texts + calls)[1..] == texts[1..] + calls;
      CallsInMixed(texts[1..], calls);
    } else if calls != [] {
      assert texts + calls == calls && calls[1..] == texts + calls[1..];
      CallsInMixed(texts, calls[1..]);
    }
  }

  /** A user turn of text in front pairs nothing. */
  lemma ConsUser(parts: seq<Part>, turns: seq<Turn>)
    requires OnlyTexts(parts)
    ensures Paired(UserTurn(parts) + turns) <==> Paired(turns)
  {
    var all := UserTurn(parts) + turns;
    if parts == [] {
      assert all == turns;
    } else {
      assert all[1..] == turns && all[0] == Turn("user", parts);
    }
  }

  lemma ConsModel(parts: seq<Part>, turns: seq<Turn>)
    requires OnlyTexts(parts)
    ensures Paired([Turn("model", parts)] + turns) <==> Paired(turns)
  {
    var all := [Turn("model", parts)] + turns;
    assert all[1..] == turns && all[0] == Turn("model", parts);
  }

  lemma ConsExchange(texts: seq<Part>, calls: seq<Part>, window: seq<Message>, turns: seq<Turn>)
    requires OnlyTexts(texts) && calls != [] && OnlyCalls(calls) && Paired(turns)
    ensures Paired([Turn("model", texts + calls), Turn("user", Replies(window, calls))] + turns)
  {
    var model, user := Turn("model", texts + calls), Turn("user", Replies(window, calls));
    var all := [model, user] + turns;
    assert all[0] == model && all[1] == user && all[2..] == turns;
    assert model.parts[|texts|] == calls[0] && HasCalls(model);
    CallsInMixed(texts, calls);
  }

  lemma RoundPairs(ms: seq<Message>, i: nat, started: bool, rest: seq<Turn>)
    requires i < |ms| && AllProper(ms) && Round(ms, i, started).Ok? && Paired(rest)
    ensures Paired(Round(ms, i, started).value.turns + rest)
  {
    var m := ms[i];
    EmptyLeft(rest);
    if IsAssistant(m) {
      var calls := m.calls.value;
      if m.texts + calls != [] {
        if calls == [] {
          ConsModel(m.texts, rest);
        } else {
          ConsExchange(m.texts, calls, ms[i + 1..i + 1 + Window(ms, i + 1)], rest);
        }
      }
    } else {
      ConsUser(m.texts, rest);
    }
  }

  lemma {:induction false} FromIsPaired(ms: seq<Message>, i: nat, started: bool)
    requires i <= |ms| && AllProper(ms) && From(ms, i, started).Ok?
    ensures Paired(From(ms, i, started).value.turns)
    decreases |ms| - i
  {
    if i < |ms| {
      var step := Round(ms, i, started).value;
      FromIsPaired(ms, step.next, step.started);
      RoundPairs(ms, i, started, From(ms, step.next, step.started).value.turns);
    }
  }

  // ---------------------------------------------------------------- nothing moved, nothing repeated

  lemma PassesUntold(ms: seq<Message>, i: nat)
    requires i < |ms| && AllProper(ms) && Passes(ms[i])
    ensures Told(ms, i, true, true) == Told(ms, i + 1, true, true)
  {
    EmptyLeft(Told(ms, i + 1, true, true).turns);
  }

  function ToldWhileAnswering(ms: seq<Message>, i: nat): Contents
    requires AllProper(ms)
  {
    if i <= |ms| then Told(ms, i, true, true) else Contents([], [])
  }

  lemma {:induction false} Unchanged<T>(f: nat -> T, i: nat, end: nat)
    requires i <= end && forall k: nat :: i <= k < end ==> f(k) == f(k + 1)
    ensures f(i) == f(end)
    decreases end - i
  {
    if i < end {
      Unchanged(f, i + 1, end);
    }
  }

  lemma NothingTold(ms: seq<Message>, i: nat, end: nat)
    requires i <= end <= |ms| && AllProper(ms) && forall k :: i <= k < end ==> Passes(ms[k])
    ensures Told(ms, i, true, true) == Told(ms, end, true, true)
  {
    var f := (k: nat) => ToldWhileAnswering(ms, k);
    forall k: nat | i <= k < end
      ensures f(k) == f(k + 1)
    {
      PassesUntold(ms, k);
    }
    Unchanged(f, i, end);
    assert f(i) == f(end);
  }

  /** At an assistant or the end, what was answered before no longer matters. */
  lemma ToldAfter(ms: seq<Message>, i: nat)
    requires i <= |ms| && AllProper(ms) && (i < |ms| ==> !Passes(ms[i]))
    ensures Told(ms, i, true, true) == Told(ms, i, true, false)
  {
  }

  /** Where the loop goes on after an assistant message. */
  function After(ms: seq<Message>, i: nat, calls: seq<Part>): (next: nat)
    requires i < |ms|
    ensures i < next <= |ms|
  {
    if calls == [] then i + 1 else i + 1 + Window(ms, i + 1)
  }

  /** The messages an exchange uses up tell nothing of their own. */
  lemma Skipped(ms: seq<Message>, i: nat, calls: seq<Part>)
    requires i < |ms| && AllProper(ms)
    ensures Told(ms, i + 1, true, calls != []) == Told(ms, After(ms, i, calls), true, false)
  {
    if calls != [] {
      var n := Window(ms, i + 1);
      NothingTold(ms, i + 1, i + 1 + n);
      ToldAfter(ms, i + 1 + n);
    }
  }

  lemma AssistantStep(ms: seq<Message>, i: nat, started: bool)
    requires i < |ms| && AllProper(ms) && IsAssistant(ms[i]) && Round(ms, i, started).Ok?
    ensures ms[i].calls.Ok?
    ensures Round(ms, i, started).value
         == Step([], SaidBy(ms, i, ms[i].texts, ms[i].calls.value), After(ms, i, ms[i].calls.value), true)
  {
    var calls := ms[i].calls.value;
    assert ms[i].texts + calls == [] ==> calls == [];
  }

  /** One round tells what the messages it covers tell one at a time. */
  lemma RoundTells(ms: seq<Message>, i: nat, started: bool)
    requires i < |ms| && AllProper(ms) && Round(ms, i, started).Ok?
    ensures var step := Round(ms, i, started).value;
            var next := Told(ms, step.next, step.started, false);
            Told(ms, i, started, false) == Contents(step.system + next.system, step.turns + next.turns)
  {
    var step := Round(ms, i, started).value;
    var next := Told(ms, step.next, step.started, false);
    EmptyLeft(next.system);
    EmptyLeft(next.turns);
    if IsAssistant(ms[i]) {
      AssistantStep(ms, i, started);
      Skipped(ms, i, ms[i].calls.value);
    }
  }

  lemma {:induction false} FromIsTold(ms: seq<Message>, i: nat, started: bool)
    requires i <= |ms| && AllProper(ms) && From(ms, i, started).Ok?
    ensures From(ms, i, started) == Ok(Told(ms, i, started, false))
    decreases |ms| - i
  {
    if i < |ms| {
      var step := Round(ms, i, started).value;
      FromIsTold(ms, step.next, step.started);
      RoundTells(ms, i, started);
    }
  }

  /** In every successful result, a turn with calls is a model turn followed at once by a user
      turn that answers them one by one, and responses occur nowhere else. */
  lemma CallsAreAnswered(decode: Decode, messages: seq<Json>, t: nat)
    requires All(decode, messages).Ok? && t < |All(decode, messages).value.turns|
    ensures var turns := All(decode, messages).value.turns;
            && (HasCalls(turns[t]) ==>
                  turns[t].role == "model" && t + 1 < |turns| && AnswersTurn(turns[t], turns[t + 1]))
            && (HasResponses(turns[t]) ==> t > 0 && HasCalls(turns[t - 1]))
  {
    ViewsProper(decode, messages);
    FromIsPaired(Views(decode, messages), 0, false);
    PairedAt(All(decode, messages).value.turns, t);
  }

  lemma {:induction false} PairedAt(turns: seq<Turn>, t: nat)
    requires Paired(turns) && t < |turns|
    ensures HasCalls(turns[t]) ==> turns[t].role == "model" && t + 1 < |turns| && AnswersTurn(turns[t], turns[t + 1])
    ensures HasResponses(turns[t]) ==> t > 0 && HasCalls(turns[t - 1])
  {
    if HasCalls(turns[0]) {
      if t >= 2 {
        PairedAt(turns[2..], t - 2);
      }
    } else if t >= 1 {
      PairedAt(turns[1..], t - 1);
    }
  }

  /** The jump over an exchange moves and repeats nothing: every successful result is what
      the messages tell one at a time and in order. */
  lemma JumpMovesNothing(decode: Decode, messages: seq<Json>)
    requires All(decode, messages).Ok?
    ensures AllProper(Views(decode, messages))
    ensures All(decode, messages) == Ok(Told(Views(decode, messages), 0, false, false))
  {
    ViewsProper(decode, messages);
    FromIsTold(Views(decode, messages), 0, false);
  }

  /** A call's result is the text of the last message that answers it, {} when there is none. */
  lemma {:induction false} ResultMeaning(window: seq<Message>, id: string, k: nat)
    requires k < |window| && Answers(window[k], id) && forall j :: k < j < |window| ==> !Answers(window[j], id)
    ensures ResultFor(window, id) == if window[k].text == "" then "{}" else window[k].text
  {
    if k < |window| - 1 {
      ResultMeaning(window[..|window| - 1], id, k);
    }
  }

  lemma {:induction false} NoResultMeaning(window: seq<Message>, id: string)
    requires forall j :: 0 <= j < |window| ==> !Answers(window[j], id)
    ensures ResultFor(window, id) == "{}"
  {
    if window != [] {
      NoResultMeaning(window[..|window| - 1], id);
    }
  }

  // ---------------------------------------------------------------- the loops

  method ReadTexts(content: Json) returns (parts: seq<Part>)
    ensures parts == TextParts(content)
  {
    parts := [];
    match content
    case Str(s) =>
      if s != "" {
        parts := [Text(s)];
      }
    case Arr(items) =>
      for i := 0 to |items|
        invariant parts == ListTexts(items[..i])
      {
        assert items[..i + 1][..i] == items[..i];
        var raw := items[i];
        if !raw.Obj? || Field(raw.fields, "type") != Str("text") {
          continue;
        }
        var text := StringOf(Field(raw.fields, "text"));
        if text == "" {
          continue;
        }
        parts := parts + [Text(text)];
      }
      assert items[..|items|] == items;
    case _ =>
  }

  method ReadContent(content: Json) returns (text: string)
    ensures text == ContentText(content)
  {
    text := "";
    match content
    case Str(s) => text := s;
    case Arr(items) =>
      for i := 0 to |items|
        invariant text == JoinTexts(items[..i])
      {
        assert items[..i + 1][..i] == items[..i];
        var raw := items[i];
        if !raw.Obj? || Field(raw.fields, "type") != Str("text") {
          continue;
        }
        text := text + StringOf(Field(raw.fields, "text"));
      }
      assert items[..|items|] == items;
    case _ =>
  }

  lemma {:induction false} FirstOtherIs(calls: seq<Json>, n: nat)
    requires n < |calls| && !calls[n].Obj? && forall i :: 0 <= i < n ==> calls[i].Obj?
    ensures FirstOther(calls) == n
  {
    if n > 0 {
      FirstOtherIs(calls[1..], n - 1);
    }
  }

  lemma ListCallsStep(decode: Decode, calls: seq<Json>, i: nat)
    requires i < |calls| && forall j :: 0 <= j <= i ==> calls[j].Obj?
    ensures var part, before := CallOf(decode, calls[i].fields), ListCalls(decode, calls[..i]);
            ListCalls(decode, calls[..i + 1]) == if part.Some? then before + [part.value] else before
  {
    assert calls[..i + 1][..i] == calls[..i];
  }

  method ReadCalls(decode: Decode, f: Fields, at: nat) returns (r: Result<seq<Part>>)
    ensures r == AssistantCalls(decode, f, at)
  {
    var raw := Field(f, "tool_calls");
    if raw.Null? {
      return Ok([]);
    }
    if !raw.Arr? {
      return Err(CallsNotList(at));
    }
    var calls := raw.items;
    var parts: seq<Part> := [];
    for i := 0 to |calls|
      invariant forall j :: 0 <= j < i ==> calls[j].Obj?
      invariant parts == ListCalls(decode, calls[..i])
    {
      if !calls[i].Obj? {
        FirstOtherIs(calls, i);
        return Err(CallNotObject(at, i));
      }
      ListCallsStep(decode, calls, i);
      var part := CallOf(decode, calls[i].fields);
      if part.Some? {
        parts := parts + [part.value];
      }
    }
    assert calls[..|calls|] == calls;
    r := Ok(parts);
  }

  /** The result an answer gives. */
  function AnswerText(f: Fields): string {
    var text := ContentText(Field(f, "content"));
    if text == "" then "{}" else text
  }

  function Given(byID: map<string, Fields>, id: string): string {
    if id in byID then AnswerText(byID[id]) else "{}"
  }

  ghost predicate Collected(window: seq<Message>, byID: map<string, Fields>) {
    forall id :: ResultFor(window, id) == Given(byID, id)
  }

  /** One more message: it replaces the answer for its id, and that one only. */
  lemma CollectOne(window: seq<Message>, byID: map<string, Fields>, decode: Decode, f: Fields, at: nat)
    requires Collected(window, byID)
    ensures var id := StringOf(Field(f, "tool_call_id"));
            Collected(window + [View(decode, Obj(f), at)], if Role(f) == "tool" && id != "" then byID[id := f] else byID)
  {
    var m := View(decode, Obj(f), at);
    forall id
      ensures ResultFor(window + [m], id) == if Answers(m, id) then AnswerText(f) else ResultFor(window, id)
    {
      assert (window + [m])[..|window|] == window;
    }
  }

  /** One message of the collecting loop; it stops at an assistant and at what is no object. */
  method CollectNext(ghost window: seq<Message>, was: map<string, Fields>, decode: Decode, messages: seq<Json>, at: nat)
    returns (byID: map<string, Fields>, stop: bool)
    requires Collected(window, was) && at < |messages|
    ensures stop <==> !Passes(Views(decode, messages)[at])
    ensures if stop then byID == was else Collected(window + [Views(decode, messages)[at]], byID)
  {
    ViewsAt(decode, messages, at);
    byID, stop := was, false;
    var message := messages[at];
    if !message.Obj? || Role(message.fields) == "assistant" {
      return byID, true;
    }
    CollectOne(window, byID, decode, message.fields, at);
    if Role(message.fields) != "tool" {
      return;
    }
    var id := StringOf(Field(message.fields, "tool_call_id"));
    if id == "" {
      return;
    }
    byID := byID[id := message.fields];
  }

  /** The first n messages of an exchange that starts at i were collected. */
  ghost predicate Gathered(ms: seq<Message>, i: nat, n: nat, byID: map<string, Fields>) {
    && i + n <= |ms| && Window(ms, i) == n + Window(ms, i + n)
    && Collected(ms[i..i + n], byID)
  }

  lemma GatherOne(ms: seq<Message>, i: nat, n: nat, was: map<string, Fields>, byID: map<string, Fields>)
    requires Gathered(ms, i, n, was) && i + n < |ms| && Passes(ms[i + n])
    requires Collected(ms[i..i + n] + [ms[i + n]], byID)
    ensures Gathered(ms, i, n + 1, byID)
  {
    SliceSnoc(ms, i, i + n);
  }

  method GatherNext(ghost ms: seq<Message>, was: map<string, Fields>, decode: Decode, messages: seq<Json>, i: nat, n: nat)
    returns (byID: map<string, Fields>, stop: bool)
    requires ms == Views(decode, messages) && Gathered(ms, i, n, was) && i + n < |messages|
    ensures if stop then !Passes(ms[i + n]) else Gathered(ms, i, n + 1, byID)
  {
    byID, stop := CollectNext(ms[i..i + n], was, decode, messages, i + n);
    if !stop {
      GatherOne(ms, i, n, was, byID);
    }
  }

  lemma GatheredAll(ms: seq<Message>, i: nat, n: nat, byID: map<string, Fields>)
    requires Gathered(ms, i, n, byID) && (i + n < |ms| ==> !Passes(ms[i + n]))
    ensures n == Window(ms, i) && Collected(ms[i..i + n], byID)
  {
  }

  /** The messages of an exchange: answers by id, a later one replacing an earlier one, and how
      many messages there are. */
  method CollectAnswers(ghost ms: seq<Message>, decode: Decode, messages: seq<Json>, i: nat)
    returns (byID: map<string, Fields>, consumed: nat)
    requires ms == Views(decode, messages) && i <= |messages|
    ensures consumed == Window(ms, i) && Collected(ms[i..i + consumed], byID)
  {
    byID, consumed := map[], 0;
    while i + consumed < |messages|
      invariant Gathered(ms, i, consumed, byID)
    {
      var next, stop := GatherNext(ms, byID, decode, messages, i, consumed);
      if stop {
        break;
      }
      byID, consumed := next, consumed + 1;
    }
    GatheredAll(ms, i, consumed, byID);
  }

  /** Answers every call from the collected messages. */
  method ReadReplies(decode: Decode, messages: seq<Json>, i: nat, calls: seq<Part>) returns (parts: seq<Part>, consumed: nat)
    requires i <= |messages| && OnlyCalls(calls)
    ensures var ms := Views(decode, messages);
            consumed == Window(ms, i) && parts == Replies(ms[i..i + consumed], calls)
  {
    var byID: map<string, Fields>;
    byID, consumed := CollectAnswers(Views(decode, messages), decode, messages, i);
    ghost var window := Views(decode, messages)[i..i + consumed];
    parts := [];
    for k := 0 to |calls|
      invariant |parts| == k
      invariant forall j :: 0 <= j < k ==> parts[j] == Replies(window, calls)[j]
    {
      var id := calls[k].id;
      var result := "{}";
      if id in byID {
        var text := ReadContent(Field(byID[id], "content"));
        if text != "" {
          result := text;
        }
      }
      assert result == ResultFor(window, id);
      parts := parts + [Response(id, calls[k].name, result)];
    }
  }

  /** The loop over all messages: its index jumps over the messages an exchange used up. */
  method ReadContents(decode: Decode, messages: seq<Json>) returns (r: Result<Contents>)
    ensures r == All(decode, messages)
  {
    var system: seq<Part> := [];
    var contents: seq<Turn> := [];
    var started := false;
    var i := 0;
    ViewsProper(decode, messages);
    SayNothing(All(decode, messages));
    while i < |messages|
      invariant i <= |messages|
      invariant All(decode, messages) == Say(system, contents, From(Views(decode, messages), i, started))
    {
      var step := ReadMessage(decode, messages, i, started);
      if step.Err? {
        return Err(step.error);
      }
      var Step(more, turns, next, begun) := step.value;
      SayTwice(system, contents, more, turns, From(Views(decode, messages), next, begun));
      system, contents := system + more, contents + turns;
      i, started := next, begun;
    }
    r := Ok(Contents(system, contents));
    assert system + [] == system && contents + [] == contents;
  }

  lemma SayTwice(system: seq<Part>, turns: seq<Turn>, more: seq<Part>, next: seq<Turn>, rest: Result<Contents>)
    ensures Say(system, turns, Say(more, next, rest)) == Say(system + more, turns + next, rest)
  {
    if rest.Ok? {
      assert system + (more + rest.value.system) == system + more + rest.value.system;
      assert turns + (next + rest.value.turns) == turns + next + rest.value.turns;
    }
  }

  lemma SayNothing(rest: Result<Contents>)
    ensures Say([], [], rest) == rest
  {
    if rest.Ok? {
      assert [] + rest.value.system == rest.value.system && [] + rest.value.turns == rest.value.turns;
    }
  }

  /** One round of the loop. */
  method ReadMessage(decode: Decode, messages: seq<Json>, i: nat, started: bool) returns (r: Result<Step>)
    requires i < |messages|
    ensures AllProper(Views(decode, messages)) && r == Round(Views(decode, messages), i, started)
  {
    ViewsProper(decode, messages);
    ViewsAt(decode, messages, i);
    if !messages[i].Obj? {
      return Err(NotObject(i));
    }
    var f := messages[i].fields;
    var role := Role(f);
    var texts := ReadTexts(Field(f, "content"));
    if (role == "system" || role == "developer") && !started {
      return Ok(Step(texts, [], i + 1, false));
    }
    if role == "tool" {
      return Ok(Step([], [], i + 1, true));
    }
    if role != "assistant" {
      return Ok(Step([], if |texts| == 0 then [] else [Turn("user", texts)], i + 1, true));
    }
    var calls := ReadCalls(decode, f, i);
    if calls.Err? {
      return Err(calls.error);
    }
    r := ReadAssistant(decode, messages, i, texts, calls.value);
  }

  lemma ExchangeRound(ms: seq<Message>, i: nat, texts: seq<Part>, calls: seq<Part>)
    requires i < |ms| && calls != [] && OnlyCalls(calls)
    ensures var end := i + 1 + Window(ms, i + 1);
            AssistantRound(ms, i, texts, Ok(calls))
            == Ok(Step([], [Turn("model", texts + calls)] + [Turn("user", Replies(ms[i + 1..end], calls))], end, true))
  {
    assert texts + calls != [];
    assert [Turn("model", texts + calls)] + [Turn("user", Replies(ms[i + 1..i + 1 + Window(ms, i + 1)], calls))]
        == [Turn("model", texts + calls), Turn("user", Replies(ms[i + 1..i + 1 + Window(ms, i + 1)], calls))];
  }

  /** One assistant message: its turn, the turn that answers its calls, and the jump. */
  method ReadAssistant(decode: Decode, messages: seq<Json>, i: nat, texts: seq<Part>, calls: seq<Part>)
    returns (r: Result<Step>)
    requires i < |messages| && OnlyCalls(calls)
    ensures r == AssistantRound(Views(decode, messages), i, texts, Ok(calls))
  {
    var parts := texts + calls;
    if |parts| == 0 {
      return Ok(Step([], [], i + 1, true));
    }
    var turns := [Turn("model", parts)];
    if |calls| == 0 {
      assert parts == texts;
      return Ok(Step([], turns, i + 1, true));
    }
    var replies, consumed := ReadReplies(decode, messages, i + 1, calls);
    if |replies| > 0 {
      turns := turns + [Turn("user", replies)];
    }
    r := Ok(Step([], turns, i + 1 + consumed, true));
    ExchangeRound(Views(decode, messages), i, texts, calls);
  }
}
