/** One attempt of one provider through the buffering writers: what it does, how it ends, and what
    the client has then (internal/api/response.go:176-277, internal/provider/accounts.go:242-343,
    and the account loop of internal/provider/codex/provider.go:312-329). */
module Attempts {
  import opened Bytes
  import opened SseCommit
  import opened Writers

  /** What may be done with an attempt writer. */
  datatype Op = SetHeader(key: string, values: seq<string>) | WriteHeader(code: int) | Write(data: bytes) | Flush | Commit

  /** What a provider does with the writer it was given; committing is not among it. */
  type Plain = ops: seq<Op> | Commit !in ops

  function Written(ops: seq<Op>): bytes {
    if ops == [] then []
    else Written(ops[..|ops| - 1]) + if ops[|ops| - 1].Write? then ops[|ops| - 1].data else []
  }

  lemma WrittenSnoc(ops: seq<Op>, op: Op)
    ensures Written(ops + [op]) == Written(ops) + if op.Write? then op.data else []
  {
    assert (ops + [op])[..|ops|] == ops;
  }

  // ---------------------------------------------------------------- behind an attempt writer

  /** Header and status as the first commit hands them over: the first status that is not 200,
      and every header set before. */
  datatype Draft = Draft(header: Header, status: int, committed: bool)

  const BLANK: Draft := Draft(map[], 200, false)

  function Drafted(ops: seq<Op>): Draft {
    if ops == [] then BLANK
    else
      var d := Drafted(ops[..|ops| - 1]);
      if d.committed then d
      else
        match ops[|ops| - 1]
        case SetHeader(key, values) => d.(header := d.header[key := values])
        case WriteHeader(code) => if d.status == 200 then d.(status := code) else d
        case Commit => d.(committed := true)
        case _ => d
  }

  /** Whether the client is reached before the end: some flush or commit, the first commit
      included or after it, finds a complete reply in a successful stream. */
  ghost predicate Reaches(stream: bool, rules: Rules, ops: seq<Op>) {
    ops != [] &&
    (Reaches(stream, rules, ops[..|ops| - 1])
     || ((ops[|ops| - 1].Flush? || ops[|ops| - 1].Commit?) && Drafted(ops).committed
         && stream && Success(Drafted(ops).status) && CarriesReply(rules, Written(ops))))
  }

  /** How an attempt behind an attempt writer ends. */
  ghost function Ending(stream: bool, decode: bytes -> Option<Json>, ops: seq<Op>, err: Option<int>): Outcome {
    var rules, d := ChatRules(decode), Drafted(ops);
    if d.committed then Ended(decode, rules, stream, Reaches(stream, rules, ops), d.header, d.status, Written(ops), err)
    else Ended(decode, rules, stream, false, map[], 200, [], err)
  }

  /** Both writers after ops, starting from fresh ones. */
  ghost predicate Follows(inner: AttemptWriter, ops: seq<Op>)
    reads inner, inner.destination, inner.destination.sse, inner.destination.destination
  {
    var outer, d := inner.destination, Drafted(ops);
    && inner.Valid() && inner.outerBefore == [] && inner.written == Written(ops)
    && inner.stream == outer.stream && inner.committed == d.committed && inner.status == d.status
    && (if d.committed then
          && outer.header == d.header && outer.status == d.status && outer.total == Written(ops)
          && outer.committed == Reaches(outer.stream, outer.rules, ops)
        else inner.header == d.header && outer.Blank() && !Reaches(outer.stream, outer.rules, ops))
  }

  lemma DraftSnoc(stream: bool, rules: Rules, ops: seq<Op>, op: Op)
    ensures var d, next := Drafted(ops), Drafted(ops + [op]);
            && (d.committed ==> next == d)
            && (!d.committed ==>
                  match op
                  case SetHeader(key, values) => next == d.(header := d.header[key := values])
                  case WriteHeader(code) => next == if d.status == 200 then d.(status := code) else d
                  case Commit => next == d.(committed := true)
                  case _ => next == d)
            && (Reaches(stream, rules, ops + [op])
                <==> Reaches(stream, rules, ops)
                     || ((op.Flush? || op.Commit?) && next.committed
                         && stream && Success(next.status) && CarriesReply(rules, Written(ops + [op]))))
  {
    assert (ops + [op])[..|ops|] == ops;
  }

  method ApplyDraft(inner: AttemptWriter, op: Op, ghost ops: seq<Op>)
    requires Follows(inner, ops) && (op.SetHeader? || op.WriteHeader?)
    modifies inner`header, inner`status
    ensures Follows(inner, ops + [op])
  {
    DraftSnoc(inner.destination.stream, inner.destination.rules, ops, op);
    WrittenSnoc(ops, op);
    if op.SetHeader? {
      inner.header := inner.header[op.key := op.values];
    } else {
      inner.WriteHeader(op.code);
    }
  }

  method ApplyWrite(inner: AttemptWriter, data: bytes, ghost ops: seq<Op>)
    requires Follows(inner, ops)
    modifies inner, inner.destination, inner.destination.destination
    ensures Follows(inner, ops + [Write(data)])
  {
    DraftSnoc(inner.destination.stream, inner.destination.rules, ops, Write(data));
    WrittenSnoc(ops, Write(data));
    inner.Write(data);
  }

  method ApplyFlush(inner: AttemptWriter, ghost ops: seq<Op>)
    requires Follows(inner, ops)
    modifies inner, inner.destination, inner.destination.sse, inner.destination.destination
    ensures Follows(inner, ops + [Flush])
  {
    DraftSnoc(inner.destination.stream, inner.destination.rules, ops, Flush);
    WrittenSnoc(ops, Flush);
    EmptyRight(Written(ops));
    inner.Flush();
  }

  method ApplyCommit(inner: AttemptWriter, ghost ops: seq<Op>)
    requires Follows(inner, ops)
    modifies inner, inner.destination, inner.destination.sse, inner.destination.destination
    ensures Follows(inner, ops + [Commit])
  {
    DraftSnoc(inner.destination.stream, inner.destination.rules, ops, Commit);
    WrittenSnoc(ops, Commit);
    EmptyRight(Written(ops));
    inner.Commit();
  }

  /** Any one operation, whatever came before it. */
  method Apply(inner: AttemptWriter, op: Op, ghost ops: seq<Op>)
    requires Follows(inner, ops)
    modifies inner, inner.destination, inner.destination.sse, inner.destination.destination
    ensures Follows(inner, ops + [op])
  {
    match op
    case Write(data) => ApplyWrite(inner, data, ops);
    case Flush => ApplyFlush(inner, ops);
    case Commit => ApplyCommit(inner, ops);
    case _ => ApplyDraft(inner, op, ops);
  }

  method ApplyAll(inner: AttemptWriter, ops: seq<Op>)
    requires Follows(inner, [])
    modifies inner, inner.destination, inner.destination.sse, inner.destination.destination
    ensures Follows(inner, ops)
  {
    for n := 0 to |ops|
      invariant Follows(inner, ops[..n])
    {
      assert ops[..n + 1] == ops[..n] + [ops[n]];
      Apply(inner, ops[n], ops[..n]);
    }
    assert ops[..|ops|] == ops;
  }

  /** The end of an attempt behind an attempt writer. */
  method Conclude(inner: AttemptWriter, ghost ops: seq<Op>, err: Option<int>) returns (outcome: Outcome)
    requires Follows(inner, ops) && inner.destination.rules == ChatRules(inner.destination.decode)
    modifies inner.destination`body, inner.destination`committed, inner.destination.sse, inner.destination.destination
    ensures outcome == Ending(inner.destination.stream, inner.destination.decode, ops, err)
    ensures outcome.Failed? ==> inner.destination.Untouched()
    ensures !outcome.Failed? ==>
              inner.destination.destination.body == inner.destination.before.2 + Written(ops)
              && inner.destination.destination.status.Some?
  {
    outcome := inner.destination.Finish(err);
  }

  /** One whole attempt through both writers: any sequence of operations, then finish. How it
      ends is a function of what was done, and the client ends with all bytes of the attempt
      or with none. */
  method Attempt(client: Client, stream: bool, decode: bytes -> Option<Json>, ops: seq<Op>, err: Option<int>)
    returns (outcome: Outcome)
    modifies client
    ensures outcome == Ending(stream, decode, ops, err)
    ensures outcome.Failed? ==>
              client.body == old(client.body) && client.status == old(client.status) && client.header == old(client.header)
    ensures !outcome.Failed? ==> client.body == old(client.body) + Written(ops) && client.status.Some?
  {
    var outer := new BufferedResponseWriter(client, stream, decode, ChatRules(decode));
    var inner := new AttemptWriter(outer, stream);
    ApplyAll(inner, ops);
    outcome := Conclude(inner, ops, err);
  }

  /** When an attempt reaches the client at all: only after a commit, and then either before its
      end or with a presentable body, a successful status and no error. */
  lemma AttemptReachesIff(stream: bool, decode: bytes -> Option<Json>, ops: seq<Op>, err: Option<int>)
    ensures var d := Drafted(ops);
            !Ending(stream, decode, ops, err).Failed?
            <==> d.committed && Success(d.status)
                 && (Reaches(stream, ChatRules(decode), ops)
                     || (err.None? && Presentable(decode, ChatRules(decode), stream, d.header, Written(ops))))
  {
    ReachesWhere(stream, ChatRules(decode), ops);
  }

  /** Reaching the client, said of positions: there is a first commit, its status is a success,
      and some flush or commit from there on finds a complete reply among the bytes so far. */
  lemma {:induction false} ReachesWhere(stream: bool, rules: Rules, ops: seq<Op>)
    ensures Reaches(stream, rules, ops) <==> stream && exists k :: ReachesAt(rules, ops, k)
    ensures Reaches(stream, rules, ops) ==> Drafted(ops).committed && Success(Drafted(ops).status)
  {
    if ops != [] {
      var init, n := ops[..|ops| - 1], |ops| - 1;
      ReachesWhere(stream, rules, init);
      assert ops == init + [ops[n]];
      DraftSnoc(stream, rules, init, ops[n]);
      OneMorePosition(rules, init, ops[n]);
    }
  }

  lemma OneMorePosition(rules: Rules, init: seq<Op>, op: Op)
    ensures (exists k :: ReachesAt(rules, init + [op], k))
            <==> (exists k :: ReachesAt(rules, init, k)) || ReachesAt(rules, init + [op], |init|)
    ensures ReachesAt(rules, init + [op], |init|)
            <==> (op.Flush? || op.Commit?) && Drafted(init + [op]).committed && Success(Drafted(init + [op]).status)
                 && CarriesReply(rules, Written(init + [op]))
  {
    LastPosition(rules, init, op);
    forall k | 0 <= k < |init|
      ensures ReachesAt(rules, init + [op], k) <==> ReachesAt(rules, init, k)
    {
      EarlierPosition(rules, init, op, k);
    }
    if k :| ReachesAt(rules, init, k) {
      assert ReachesAt(rules, init + [op], k);
    }
    if k :| ReachesAt(rules, init + [op], k) {
      assert k == |init| || ReachesAt(rules, init, k);
    }
  }

  lemma EarlierPosition(rules: Rules, init: seq<Op>, op: Op, k: nat)
    requires k < |init|
    ensures ReachesAt(rules, init + [op], k) <==> ReachesAt(rules, init, k)
  {
    assert (init + [op])[..k + 1] == init[..k + 1] && (init + [op])[k] == init[k];
  }

  lemma LastPosition(rules: Rules, init: seq<Op>, op: Op)
    ensures ReachesAt(rules, init + [op], |init|)
            <==> (op.Flush? || op.Commit?) && Drafted(init + [op]).committed && Success(Drafted(init + [op]).status)
                 && CarriesReply(rules, Written(init + [op]))
  {
    assert (init + [op])[..|init| + 1] == init + [op] && (init + [op])[|init|] == op;
  }

  ghost predicate ReachesAt(rules: Rules, ops: seq<Op>, k: int) {
    && 0 <= k < |ops| && (ops[k].Flush? || ops[k].Commit?)
    && Drafted(ops[..k + 1]).committed && Success(Drafted(ops[..k + 1]).status)
    && CarriesReply(rules, Written(ops[..k + 1]))
  }

  // ---------------------------------------------------------------- straight to the outer writer

  /** A provider that writes to the outer writer itself: its status is fixed by the first
      WriteHeader or Write. */
  function Posted(ops: Plain): Draft {
    if ops == [] then BLANK
    else
      var d := Posted(ops[..|ops| - 1]);
      match ops[|ops| - 1]
      case SetHeader(key, values) => d.(header := d.header[key := values])
      case WriteHeader(code) => if d.committed then d else d.(status := code, committed := true)
      case Write(_) => d.(committed := true)
      case _ => d
  }

  ghost predicate PostReaches(stream: bool, rules: Rules, ops: Plain) {
    ops != [] &&
    (PostReaches(stream, rules, ops[..|ops| - 1])
     || (ops[|ops| - 1].Flush? && stream && Success(Posted(ops).status) && CarriesReply(rules, Written(ops))))
  }

  ghost function PostEnding(stream: bool, decode: bytes -> Option<Json>, ops: Plain, err: Option<int>): Outcome {
    var rules, d := ChatRules(decode), Posted(ops);
    Ended(decode, rules, stream, PostReaches(stream, rules, ops), d.header, d.status, Written(ops), err)
  }

  ghost predicate Posts(outer: BufferedResponseWriter, ops: Plain)
    reads outer, outer.sse, outer.destination
  {
    var d := Posted(ops);
    && outer.Valid() && outer.total == Written(ops) && outer.header == d.header && outer.status == d.status
    && (if outer.committed then Written(ops) != [] else outer.headerWritten == d.committed)
    && outer.committed == PostReaches(outer.stream, outer.rules, ops)
    && (Written(ops) != [] ==> d.committed)
  }

  lemma PostSnoc(stream: bool, rules: Rules, ops: Plain, op: Op)
    requires op != Commit
    ensures Commit !in ops + [op]
    ensures var d, next := Posted(ops), Posted(ops + [op]);
            && (match op
                case SetHeader(key, values) => next == d.(header := d.header[key := values])
                case WriteHeader(code) => next == if d.committed then d else d.(status := code, committed := true)
                case Write(_) => next == d.(committed := true)
                case _ => next == d)
            && (PostReaches(stream, rules, ops + [op])
                <==> PostReaches(stream, rules, ops)
                     || (op.Flush? && stream && Success(next.status) && CarriesReply(rules, Written(ops + [op]))))
  {
    assert (ops + [op])[..|ops|] == ops;
  }

  method Post(outer: BufferedResponseWriter, op: Op, ghost ops: Plain)
    requires Posts(outer, ops) && op != Commit
    modifies outer, outer.sse, outer.destination
    ensures Commit !in ops + [op] && Posts(outer, ops + [op])
  {
    PostSnoc(outer.stream, outer.rules, ops, op);
    WrittenSnoc(ops, op);
    NoReplyInNothing(outer.rules);
    match op
    case SetHeader(key, values) => outer.header := outer.header[key := values];
    case WriteHeader(code) => outer.WriteHeader(code);
    case Write(data) => outer.Write(data);
    case Flush => outer.Flush();
  }

  method PostAll(outer: BufferedResponseWriter, ops: Plain)
    requires Posts(outer, [])
    modifies outer, outer.sse, outer.destination
    ensures Posts(outer, ops)
  {
    for n := 0 to |ops|
      invariant Posts(outer, ops[..n])
    {
      assert ops[..n + 1] == ops[..n] + [ops[n]];
      Post(outer, ops[n], ops[..n]);
    }
    assert ops[..|ops|] == ops;
  }

  method ConcludePost(outer: BufferedResponseWriter, ghost ops: Plain, err: Option<int>) returns (outcome: Outcome)
    requires Posts(outer, ops) && outer.rules == ChatRules(outer.decode)
    modifies outer`body, outer`committed, outer.sse, outer.destination
    ensures outcome == PostEnding(outer.stream, outer.decode, ops, err)
    ensures outcome.Failed? ==> outer.Untouched()
    ensures !outcome.Failed? ==>
              outer.destination.body == outer.before.2 + Written(ops) && outer.destination.status.Some?
  {
    outcome := outer.Finish(err);
  }

  // ---------------------------------------------------------------- one job of a provider

  /** One account of a provider: what was written for it, the error it ended with, and whether
      the context had ended so that no other account is tried. */
  datatype Account = Account(ops: Plain, err: Option<int>, stop: bool)

  /** What a provider does in one dispatch: it writes straight to the writer it was given, or
      tries its accounts in turn, each behind an attempt writer of its own; none is its error
      when it has no account. */
  datatype Job = Direct(ops: Plain, err: Option<int>) | Accounts(accounts: seq<Account>, none: int)

  /** The account whose answer is handed over: the first one without an error. */
  function Winner(accounts: seq<Account>): Option<Account> {
    if accounts == [] then None
    else if accounts[0].err.None? then Some(accounts[0])
    else if accounts[0].stop then None
    else Winner(accounts[1..])
  }

  /** The error of the last account tried. */
  function LastError(accounts: seq<Account>, none: int): int {
    if accounts == [] || accounts[0].err.None? then none
    else if accounts[0].stop then accounts[0].err.value
    else LastError(accounts[1..], accounts[0].err.value)
  }

  /** The bytes a job has for the client. */
  function BytesOf(job: Job): bytes {
    match job
    case Direct(ops, _) => Written(ops)
    case Accounts(accounts, _) => if Winner(accounts).Some? then Written(Winner(accounts).value.ops) else []
  }

  ghost function JobEnding(stream: bool, decode: bytes -> Option<Json>, job: Job): Outcome {
    match job
    case Direct(ops, err) => PostEnding(stream, decode, ops, err)
    case Accounts(accounts, none) =>
      match Winner(accounts)
      case None => Failed(Provider(LastError(accounts, none)))
      case Some(account) => Ending(stream, decode, account.ops + [Commit], None)
  }

  lemma {:induction false} PlainKeepsBlank(ops: seq<Op>)
    requires Commit !in ops
    ensures !Drafted(ops).committed
  {
    if ops != [] {
      PlainKeepsBlank(ops[..|ops| - 1]);
      assert ops[|ops| - 1] in ops;
    }
  }

  /** One account: handed over when it did not fail, otherwise nothing has moved. */
  method TryAccount(outer: BufferedResponseWriter, account: Account) returns (outcome: Option<Outcome>)
    requires outer.Valid() && outer.Blank() && outer.rules == ChatRules(outer.decode)
    modifies outer, outer.sse, outer.destination
    ensures outcome.Some? <==> account.err.None?
    ensures outcome.None? ==> outer.Valid() && outer.Blank()
    ensures outcome.Some? ==>
              && outcome.value == Ending(outer.stream, outer.decode, account.ops + [Commit], None)
              && (if outcome.value.Failed? then outer.Untouched()
                  else outer.destination.body == outer.before.2 + Written(account.ops) && outer.destination.status.Some?)
  {
    var inner := new AttemptWriter(outer, outer.stream);
    ApplyAll(inner, account.ops);
    PlainKeepsBlank(account.ops);
    if account.err.Some? {
      return None;
    }
    Apply(inner, Commit, account.ops);
    WrittenSnoc(account.ops, Commit);
    EmptyRight(Written(account.ops));
    var ended := Conclude(inner, account.ops + [Commit], None);
    outcome := Some(ended);
  }

  /** The account loop. */
  method TryAccounts(outer: BufferedResponseWriter, accounts: seq<Account>, none: int) returns (outcome: Outcome)
    requires outer.Valid() && outer.Blank() && outer.rules == ChatRules(outer.decode)
    modifies outer, outer.sse, outer.destination
    ensures outcome == JobEnding(outer.stream, outer.decode, Accounts(accounts, none))
    ensures if outcome.Failed? then outer.Untouched()
            else outer.destination.body == outer.before.2 + BytesOf(Accounts(accounts, none)) && outer.destination.status.Some?
  {
    var lastErr := none;
    for i := 0 to |accounts|
      invariant outer.Valid() && outer.Blank()
      invariant Winner(accounts) == Winner(accounts[i..]) && LastError(accounts, none) == LastError(accounts[i..], lastErr)
    {
      assert accounts[i..][0] == accounts[i] && accounts[i..][1..] == accounts[i + 1..];
      var ended := TryAccount(outer, accounts[i]);
      if ended.Some? {
        return ended.value;
      }
      lastErr := accounts[i].err.value;
      if accounts[i].stop {
        outcome := outer.Finish(Some(lastErr));
        return;
      }
    }
    assert accounts[|accounts|..] == [];
    outcome := outer.Finish(Some(lastErr));
  }

  /** One job on a client. How it ends is a function of what the provider does, and the client
      has all of its bytes then or is as it was. */
  method RunJob(client: Client, stream: bool, decode: bytes -> Option<Json>, job: Job) returns (outcome: Outcome)
    modifies client
    ensures outcome == JobEnding(stream, decode, job)
    ensures outcome.Failed? ==>
              client.body == old(client.body) && client.status == old(client.status) && client.header == old(client.header)
    ensures !outcome.Failed? ==> client.body == old(client.body) + BytesOf(job) && client.status.Some?
  {
    var outer := new BufferedResponseWriter(client, stream, decode, ChatRules(decode));
    match job
    case Direct(ops, err) =>
      NoReplyInNothing(outer.rules);
      PostAll(outer, ops);
      outcome := ConcludePost(outer, ops, err);
    case Accounts(accounts, none) =>
      outcome := TryAccounts(outer, accounts, none);
  }
}
