/** The commit detector of a streaming combo attempt (internal/api/response.go): it
    watches a growing body and decides when an attempt can no longer fail over. */
module SseCommit {
  import opened Bytes

  // ---------------------------------------------------------------- payloads

  const REPLY_KEYS: seq<string> := ["choices", "candidates", "delta", "message", "output", "content", "parts"]
  const TOOL_KEYS: seq<string> := ["tool_calls", "tool_use", "function_call"]

  predicate SpaceChar(c: char) {
    || '\t' <= c <= '\r' || c == ' ' || c == '\U{85}' || c == '\U{A0}' || c == '\U{1680}'
    || '\U{2000}' <= c <= '\U{200A}' || c == '\U{2028}' || c == '\U{2029}' || c == '\U{202F}'
    || c == '\U{205F}' || c == '\U{3000}'
  }

  predicate ReplyText(fields: map<string, Json>) {
    "content" in fields && fields["content"].Str? && exists c :: c in fields["content"].s && !SpaceChar(c)
  }

  predicate ToolCall(fields: map<string, Json>) {
    exists k :: k in TOOL_KEYS && k in fields && !fields[k].Null?
  }

  /** sseReplyPayload: assistant text or a tool call somewhere in the decoded frame. */
  predicate ReplyPayload(j: Json) {
    match j
    case Obj(fields) =>
      ReplyText(fields) || ToolCall(fields) || exists k :: k in REPLY_KEYS && k in fields && ReplyPayload(fields[k])
    case Arr(items) => exists x :: x in items && ReplyPayload(x)
    case _ => false
  }

  datatype Step = Key(k: string) | Index(i: nat)

  /** The value a path of object keys and array indices leads to. Only keys the
      detector looks under can be followed. */
  function Follow(j: Json, path: seq<Step>): Option<Json> {
    if path == [] then Some(j)
    else match (j, path[0])
      case (Obj(fields), Key(k)) => if k in REPLY_KEYS && k in fields then Follow(fields[k], path[1..]) else None
      case (Arr(items), Index(i)) => if i < |items| then Follow(items[i], path[1..]) else None
      case _ => None
  }

  predicate HoldsReply(j: Json) {
    j.Obj? && (ReplyText(j.fields) || ToolCall(j.fields))
  }

  predicate LeadsToReply(j: Json, path: seq<Step>) {
    Follow(j, path).Some? && HoldsReply(Follow(j, path).value)
  }

  /** A frame is a reply exactly when some path of reply keys and array indices leads to an
      object that itself holds non-blank text or a non-null tool call. */
  lemma {:induction false} ReplyPayloadIffPath(j: Json)
    ensures ReplyPayload(j) <==> exists path :: LeadsToReply(j, path)
  {
    if ReplyPayload(j) {
      var path := ReplyPath(j);
      assert LeadsToReply(j, path);
    }
    if path :| LeadsToReply(j, path) {
      PathMeansReply(j, path);
    }
  }

  lemma {:induction false} ReplyPath(j: Json) returns (path: seq<Step>)
    requires ReplyPayload(j)
    ensures LeadsToReply(j, path)
  {
    if HoldsReply(j) {
      path := [];
    } else if j.Obj? {
      var k :| k in REPLY_KEYS && k in j.fields && ReplyPayload(j.fields[k]);
      var rest := ReplyPath(j.fields[k]);
      path := [Key(k)] + rest;
      assert path[1..] == rest;
    } else {
      var x :| x in j.items && ReplyPayload(x);
      var i: nat :| i < |j.items| && j.items[i] == x;
      var rest := ReplyPath(x);
      path := [Index(i)] + rest;
      assert path[1..] == rest;
    }
  }

  lemma {:induction false} PathMeansReply(j: Json, path: seq<Step>)
    requires LeadsToReply(j, path)
    ensures ReplyPayload(j)
    decreases |path|
  {
    if path != [] {
      match path[0]
      case Key(k) => PathMeansReply(j.fields[k], path[1..]);
      case Index(i) => PathMeansReply(j.items[i], path[1..]);
    }
  }

  // ---------------------------------------------------------------- one event

  /** Lower-case spelling, as far as it can reach ASCII: besides A-Z only the Kelvin sign
      and the dotted capital I fold to an ASCII letter. */
  function LowerAscii(s: bytes): bytes
    decreases |s|
  {
    if s == [] then []
    else if HasPrefix(s, [0xE2, 0x84, 0xAA]) then [107] + LowerAscii(s[3..])
    else if HasPrefix(s, [0xC4, 0xB0]) then [105] + LowerAscii(s[2..])
    else [if 65 <= s[0] <= 90 then s[0] + 32 else s[0]] + LowerAscii(s[1..])
  }

  predicate PingName(name: bytes) {
    var lower := LowerAscii(name);
    lower == Ascii("ping") || lower == Ascii("keepalive") || lower == Ascii("heartbeat")
  }

  /** sseContentEvent: a named event with its data is assistant output. */
  predicate ContentEvent(decode: bytes -> Option<Json>, event: bytes, data: bytes) {
    && !PingName(event)
    && var payload := TrimSpace(data);
       && payload != []
       && payload != Ascii("[DONE]")
       && decode(payload).Some?
       && ReplyPayload(decode(payload).value)
  }

  function DropCR(line: bytes): bytes {
    if line != [] && line[|line| - 1] == CR then line[..|line| - 1] else line
  }

  /** sseLineEndsEvent: white-space-only lines count as blank. */
  predicate Blank(line: bytes) {
    TrimSpace(DropCR(line)) == []
  }

  datatype Field = EventField(value: bytes) | DataField(value: bytes)

  function IndexOf(s: bytes, b: byte): (i: nat)
    ensures i <= |s|
  {
    if s == [] || s[0] == b then 0 else 1 + IndexOf(s[1..], b)
  }

  const COLON: byte := 58

  /** The field a line carries, if it is one the detector reads: a blank line, a comment and
      an unknown field carry none. */
  function FieldOf(line: bytes): Option<Field> {
    var trimmed := TrimSpace(DropCR(line));
    if trimmed == [] || trimmed[0] == COLON then None
    else
      var i := IndexOf(trimmed, COLON);
      var name := trimmed[..i];
      var value := if i == |trimmed| then [] else TrimLeftBlanks(trimmed[i + 1..]);
      if name == Ascii("event") then Some(EventField(value))
      else if name == Ascii("data") then Some(DataField(value))
      else None
  }

  /** What the scan asks about a line and about an event. Keeping the three questions in a
      record lets the scan be proved for any line syntax, and run with the real one. */
  datatype Rules = Rules(
    blank: bytes -> bool,
    field: bytes -> Option<Field>,
    content: (bytes, bytes) -> bool)

  /** The rules of response.go. */
  function ChatRules(decode: bytes -> Option<Json>): Rules {
    Rules(
      line => Blank(line),
      line => FieldOf(line),
      (event, data) => ContentEvent(decode, event, data))
  }

  predicate HasEvent(rules: Rules, line: bytes) {
    !rules.blank(line) && rules.field(line).Some? && rules.field(line).value.EventField?
  }

  predicate HasData(rules: Rules, line: bytes) {
    !rules.blank(line) && rules.field(line).Some? && rules.field(line).value.DataField?
  }

  // ---------------------------------------------------------------- one-shot meaning

  /** The name of an event: the value of the last event field among its lines. */
  function EventName(rules: Rules, group: seq<bytes>): bytes {
    if group == [] then []
    else
      var line := group[|group| - 1];
      if HasEvent(rules, line) then rules.field(line).value.value else EventName(rules, group[..|group| - 1])
  }

  /** The values of the data fields among the lines of an event, in order. */
  function DataValues(rules: Rules, group: seq<bytes>): seq<bytes> {
    if group == [] then []
    else
      var line := group[|group| - 1];
      DataValues(rules, group[..|group| - 1]) + if HasData(rules, line) then [rules.field(line).value.value] else []
  }

  function DropLeadingEmpty(values: seq<bytes>): seq<bytes> {
    if values != [] && values[0] == [] then DropLeadingEmpty(values[1..]) else values
  }

  function JoinLines(values: seq<bytes>): bytes {
    if values == [] then []
    else if |values| == 1 then values[0]
    else JoinLines(values[..|values| - 1]) + [NL] + values[|values| - 1]
  }

  /** The data of an event: its data values joined by newlines, leading empty ones dropped. */
  function EventData(rules: Rules, group: seq<bytes>): bytes {
    JoinLines(DropLeadingEmpty(DataValues(rules, group)))
  }

  /** Lines i..j form one whole event, ended by the blank line j, and it is a reply. */
  predicate ReplyEventAt(rules: Rules, ls: seq<bytes>, i: nat, j: nat) {
    && i <= j < |ls|
    && rules.blank(ls[j])
    && (i == 0 || rules.blank(ls[i - 1]))
    && (forall k :: i <= k < j ==> !rules.blank(ls[k]))
    && rules.content(EventName(rules, ls[i..j]), EventData(rules, ls[i..j]))
  }

  ghost predicate HasReply(rules: Rules, ls: seq<bytes>) {
    exists i: nat, j: nat :: ReplyEventAt(rules, ls, i, j)
  }

  /** The meaning feed refines: some complete event of the body carries a reply. */
  ghost predicate CarriesReply(rules: Rules, body: bytes) {
    HasReply(rules, Lines(body))
  }

  /** More bytes never take a reply back. */
  lemma CarriesReplyMonotone(rules: Rules, body: bytes, more: bytes)
    requires CarriesReply(rules, body)
    ensures CarriesReply(rules, body + more)
  {
    LinesAppend(body, more);
    var i: nat, j: nat :| ReplyEventAt(rules, Lines(body), i, j);
    assert Lines(body + more)[i..j] == Lines(body)[i..j];
    assert ReplyEventAt(rules, Lines(body + more), i, j);
  }

  // ---------------------------------------------------------------- the fold over lines

  datatype Scan = Scan(event: bytes, data: bytes, ready: bool)

  /** consumeLine on a line that does not complete a reply. */
  function Consume(rules: Rules, s: Scan, line: bytes): Scan {
    if rules.blank(line) then s.(event := [], data := [])
    else match rules.field(line)
      case Some(EventField(value)) => s.(event := value)
      case Some(DataField(value)) => s.(data := (if s.data == [] then [] else s.data + [NL]) + value)
      case None => s
  }

  function ScanLine(rules: Rules, s: Scan, line: bytes): Scan {
    if s.ready then s
    else if rules.blank(line) && rules.content(s.event, s.data) then s.(ready := true)
    else Consume(rules, s, line)
  }

  function ScanLines(rules: Rules, ls: seq<bytes>): Scan {
    if ls == [] then Scan([], [], false)
    else ScanLine(rules, ScanLines(rules, ls[..|ls| - 1]), ls[|ls| - 1])
  }

  /** Where the event under construction begins. */
  function GroupStart(rules: Rules, ls: seq<bytes>): (i: nat)
    ensures i <= |ls|
    ensures i == 0 || rules.blank(ls[i - 1])
    ensures forall k :: i <= k < |ls| ==> !rules.blank(ls[k])
  {
    if ls == [] then 0 else if rules.blank(ls[|ls| - 1]) then |ls| else GroupStart(rules, ls[..|ls| - 1])
  }

  lemma {:induction false} DropLeadingEmptySnoc(values: seq<bytes>, v: bytes)
    ensures DropLeadingEmpty(values + [v]) ==
            if DropLeadingEmpty(values) == [] then (if v == [] then [] else [v]) else DropLeadingEmpty(values) + [v]
  {
    if values == [] {
      assert values + [v] == [v];
    } else if values[0] == [] {
      DropLeadingEmptySnoc(values[1..], v);
      assert (values + [v])[1..] == values[1..] + [v];
    }
  }

  lemma {:induction false} DropLeadingEmptyHead(values: seq<bytes>)
    ensures DropLeadingEmpty(values) != [] ==> DropLeadingEmpty(values)[0] != []
  {
    if values != [] && values[0] == [] {
      DropLeadingEmptyHead(values[1..]);
    }
  }

  lemma {:induction false} JoinLinesEmpty(values: seq<bytes>)
    requires values != [] && values[0] != []
    ensures JoinLines(values) != []
  {
  }

  /** Appending one data value to an event, seen from the joined data. */
  lemma EventDataSnoc(values: seq<bytes>, v: bytes)
    ensures var data := JoinLines(DropLeadingEmpty(values));
            JoinLines(DropLeadingEmpty(values + [v])) == (if data == [] then [] else data + [NL]) + v
  {
    DropLeadingEmptySnoc(values, v);
    DropLeadingEmptyHead(values);
    var kept := DropLeadingEmpty(values);
    if kept != [] {
      JoinLinesEmpty(kept);
      assert (kept + [v])[..|kept|] == kept;
    }
  }

  /** Events that ended before a line do not depend on it. */
  lemma EarlierEvent(rules: Rules, init: seq<bytes>, line: bytes, i: nat, j: nat)
    requires j < |init|
    ensures ReplyEventAt(rules, init + [line], i, j) <==> ReplyEventAt(rules, init, i, j)
  {
    var ls := init + [line];
    if i <= j {
      assert ls[i..j] == init[i..j];
      assert i > 0 ==> ls[i - 1] == init[i - 1];
      assert forall k :: i <= k < j ==> ls[k] == init[k];
    }
  }

  /** The only event a line can end is the one under construction. */
  lemma LatestEvent(rules: Rules, init: seq<bytes>, line: bytes, i: nat)
    ensures ReplyEventAt(rules, init + [line], i, |init|) <==>
            var group := init[GroupStart(rules, init)..];
            && i == GroupStart(rules, init)
            && rules.blank(line)
            && rules.content(EventName(rules, group), EventData(rules, group))
  {
    var ls, start := init + [line], GroupStart(rules, init);
    assert ls[start..|init|] == init[start..];
    assert start > 0 ==> rules.blank(ls[start - 1]) && ls[start - 1] == init[start - 1];
    assert 0 < i <= |init| ==> ls[i - 1] == init[i - 1];
  }

  lemma HasReplySnoc(rules: Rules, init: seq<bytes>, line: bytes)
    ensures HasReply(rules, init + [line]) <==>
            var group := init[GroupStart(rules, init)..];
            HasReply(rules, init) ||
            (rules.blank(line) && rules.content(EventName(rules, group), EventData(rules, group)))
  {
    var ls, start := init + [line], GroupStart(rules, init);
    LatestEvent(rules, init, line, start);
    if i: nat, j: nat :| ReplyEventAt(rules, init, i, j) {
      EarlierEvent(rules, init, line, i, j);
    }
    if i: nat, j: nat :| ReplyEventAt(rules, ls, i, j) {
      if j < |init| {
        EarlierEvent(rules, init, line, i, j);
      } else {
        LatestEvent(rules, init, line, i);
      }
    }
  }

  /** The incremental fold computes the one-shot meaning, and keeps exactly the name and
      data of the event under construction. */
  lemma {:induction false} ScanMeaning(rules: Rules, ls: seq<bytes>)
    ensures var s := ScanLines(rules, ls);
            && (s.ready <==> HasReply(rules, ls))
            && (!s.ready ==>
                  var group := ls[GroupStart(rules, ls)..];
                  s.event == EventName(rules, group) && s.data == EventData(rules, group))
  {
    if ls == [] {
      return;
    }
    var init, line := ls[..|ls| - 1], ls[|ls| - 1];
    assert ls == init + [line];
    ScanMeaning(rules, init);
    HasReplySnoc(rules, init, line);
    if !rules.blank(line) {
      var before := init[GroupStart(rules, init)..];
      assert ls[GroupStart(rules, init)..] == before + [line];
      EventFields(rules, before, line);
    }
  }

  /** One more line of an event changes its name and data as consumeLine does. */
  lemma EventFields(rules: Rules, before: seq<bytes>, line: bytes)
    requires !rules.blank(line)
    ensures var s := Consume(rules, Scan(EventName(rules, before), EventData(rules, before), false), line);
            s.event == EventName(rules, before + [line]) && s.data == EventData(rules, before + [line])
  {
    assert (before + [line])[..|before|] == before;
    if HasData(rules, line) {
      EventDataSnoc(DataValues(rules, before), rules.field(line).value.value);
    } else {
      assert DataValues(rules, before + [line]) == DataValues(rules, before);
    }
  }

  /** Reading up to and including a newline completes exactly one line. */
  lemma EndLine(rules: Rules, read: bytes, upTo: bytes)
    requires NL !in upTo
    ensures var next := read + upTo + [NL];
            && ScanLines(rules, Lines(next)) == ScanLine(rules, ScanLines(rules, Lines(read)), Tail(read) + upTo)
            && Tail(next) == []
  {
    LinesAppend(read, upTo + [NL]);
    assert read + upTo + [NL] == read + (upTo + [NL]);
    assert Tail(read) + (upTo + [NL]) == (Tail(read) + upTo) + [NL] + [];
    LinesCons(Tail(read) + upTo, []);
    LinesNone([]);
    var ls := Lines(read) + [Tail(read) + upTo];
    assert ls[..|ls| - 1] == Lines(read);
  }

  lemma ReadyMeansReply(rules: Rules, read: bytes, rest: bytes)
    requires ScanLines(rules, Lines(read)).ready
    ensures CarriesReply(rules, read + rest)
  {
    ScanMeaning(rules, Lines(read));
    CarriesReplyMonotone(rules, read, rest);
  }

  lemma NotReadyMeansNone(rules: Rules, read: bytes)
    requires !ScanLines(rules, Lines(read)).ready
    ensures !CarriesReply(rules, read)
  {
    ScanMeaning(rules, Lines(read));
  }

  // ---------------------------------------------------------------- the detector

  class SseCommitState {
    const rules: Rules
    var scanned: nat
    var event: bytes
    var data: bytes
    var partial: bytes
    var ready: bool
    /** The body as last presented. */
    ghost var seen: bytes

    ghost predicate Valid()
      reads this
    {
      && (ready ==> CarriesReply(rules, seen))
      && (!ready ==> scanned == |seen| && InStep(seen))
    }

    /** The scan state is the fold over the complete lines read, plus the open line. */
    ghost predicate InStep(read: bytes)
      reads this
    {
      partial == Tail(read) && ScanLines(rules, Lines(read)) == Scan(event, data, false)
    }

    constructor (rules: Rules)
      ensures Valid() && seen == [] && this.rules == rules && !ready
    {
      this.rules := rules;
      scanned, event, data, partial, ready, seen := 0, [], [], [], false, [];
    }

    /** feed: for any growth of the body since the last call the answer is the one-shot meaning. */
    method Feed(body: bytes) returns (found: bool)
      requires Valid() && seen <= body
      modifies this
      ensures Valid() && seen == body
      ensures found == ready == CarriesReply(rules, body)
    {
      if ready {
        assert body == seen + body[|seen|..];
        CarriesReplyMonotone(rules, seen, body[|seen|..]);
        seen := body;
        return true;
      }
      var rest := body[scanned..];
      ghost var read := seen;
      seen := body;
      while |rest| > 0
        invariant seen == body == read + rest && !ready
        invariant scanned == |read|
        invariant InStep(read)
      {
        var i := FindNewline(rest);
        if i == |rest| {
          assert rest[..i] == rest;
          OpenLine(read, rest);
          partial := partial + rest;
          scanned := |body|;
          assert InStep(body);
          break;
        }
        var line := partial + rest[..i];
        ghost var next := read + rest[..i] + [NL];
        EndLine(rules, read, rest[..i]);
        Regroup(read, rest, i);
        rest := rest[i + 1..];
        scanned := |body| - |rest|;
        if rules.blank(line) && rules.content(event, data) {
          ReadyMeansReply(rules, next, rest);
          ready, partial, scanned := true, [], |body|;
          return true;
        }
        ConsumeLine(line);
        partial := [];
        read := next;
      }
      assert |rest| == 0 ==> read + rest == read;
      NotReadyMeansNone(rules, body);
      return false;
    }

    method ConsumeLine(line: bytes)
      modifies `event, `data
      ensures Scan(event, data, ready) == Consume(rules, Scan(old(event), old(data), ready), line)
    {
      if rules.blank(line) {
        event, data := [], [];
        return;
      }
      match rules.field(line)
      case None =>
      case Some(EventField(value)) =>
        event := value;
      case Some(DataField(value)) =>
        if |data| > 0 {
          data := data + [NL];
        }
        data := data + value;
    }
  }

  /** One more chunk of a growing body. */
  method FeedOne(state: SseCommitState, body: bytes, chunk: bytes) returns (found: bool)
    requires state.Valid() && state.seen == body
    modifies state
    ensures state.Valid() && state.seen == body + chunk
    ensures found == state.ready == CarriesReply(state.rules, body + chunk)
    ensures old(state.ready) ==> found
  {
    ghost var wasReady := state.ready;
    found := state.Feed(body + chunk);
    if wasReady {
      CarriesReplyMonotone(state.rules, body, chunk);
    }
  }

  /** Each answer is the meaning of what had arrived, and no answer is taken back. */
  ghost predicate AnswersAre(rules: Rules, chunks: seq<bytes>, answers: seq<bool>) {
    && |answers| <= |chunks|
    && (forall k :: 0 <= k < |answers| ==> answers[k] == CarriesReply(rules, Concat(chunks[..k + 1])))
    && (forall j, k :: 0 <= j <= k < |answers| && answers[j] ==> answers[k])
  }

  lemma OneMoreAnswer(rules: Rules, chunks: seq<bytes>, answers: seq<bool>, found: bool)
    requires AnswersAre(rules, chunks, answers) && |answers| < |chunks|
    requires found == CarriesReply(rules, Concat(chunks[..|answers| + 1]))
    requires answers != [] && answers[|answers| - 1] ==> found
    ensures AnswersAre(rules, chunks, answers + [found])
  {
    var next, n := answers + [found], |answers|;
    forall k | 0 <= k < |next|
      ensures next[k] == CarriesReply(rules, Concat(chunks[..k + 1]))
      ensures next[k] ==> found
    {
      if k < n {
        assert next[k] == answers[k];
        assert answers[k] ==> answers[n - 1];
      } else {
        assert next[k] == found;
      }
    }
    forall j, k | 0 <= j <= k < |next| && next[j]
      ensures next[k]
    {
      if k < n {
        assert answers[j] && next[k] == answers[k];
      }
    }
  }

  /** Every presentation of a body: growing it chunk by chunk and asking after each chunk
      always gives the meaning of what has arrived so far. */
  method FeedChunks(rules: Rules, chunks: seq<bytes>) returns (answers: seq<bool>)
    ensures |answers| == |chunks|
    ensures forall k :: 0 <= k < |chunks| ==> answers[k] == CarriesReply(rules, Concat(chunks[..k + 1]))
    ensures forall j, k :: 0 <= j <= k < |chunks| && answers[j] ==> answers[k]
  {
    var state := new SseCommitState(rules);
    answers := [];
    var body: bytes := [];
    for n := 0 to |chunks|
      invariant fresh(state) && state.Valid() && state.rules == rules
      invariant state.seen == body == Concat(chunks[..n])
      invariant |answers| == n && AnswersAre(rules, chunks, answers)
      invariant n > 0 ==> answers[n - 1] == state.ready
    {
      ConcatSnoc(chunks, n);
      var found := FeedOne(state, body, chunks[n]);
      body := body + chunks[n];
      OneMoreAnswer(rules, chunks, answers, found);
      answers := answers + [found];
    }
  }
}
