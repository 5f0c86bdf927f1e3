/** What the client can see of a combo run: never bytes of two attempts, and exactly when an
    error envelope is appended to an answer. */
module ComboSafety {
  import opened Bytes
  import opened Combo
  import opened RoundRobin

  /** From position from on, only the last dispatch of the log reached the client. */
  ghost predicate OnlyLastTouches(log: seq<Entry>, from: nat) {
    forall k :: from <= k < |log| - 1 ==> !Touches(log[k].attempt)
  }

  predicate LastTouched(log: seq<Entry>, from: nat) {
    from < |log| && Touches(log[|log| - 1].attempt)
  }

  /** What a run hands the client before any envelope: nothing, or one attempt's bytes, with an
      error event after them only when that attempt failed. */
  predicate Delivered(before: Trace, after: Trace) {
    if !LastTouched(after.log, |before.log|) then after.wire == before.wire
    else
      var answer := before.wire + [AttemptBytes(|after.log| - 1)];
      || after.wire == answer
      || (after.log[|after.log| - 1].attempt.CommittedFailure? && after.wire == answer + [StreamError])
  }

  /** The chain cannot go on: the client is gone or the budget is spent. */
  predicate Over(c: Config, env: Env, started: int, tick: nat) {
    env.gone(tick).Some? || Spent(c, env, started, tick)
  }

  lemma OverStays(c: Config, env: Env, started: int, early: nat, late: nat)
    requires Sane(env) && early <= late
    ensures env.gone(early).Some? ==> env.gone(late).Some?
    ensures Spent(c, env, started, early) ==> Spent(c, env, started, late)
  {
    assert env.now(early) <= env.now(late);
  }

  /** A context the combo made ends only with the client or with the budget. */
  lemma EndedMeansOver(c: Config, env: Env, started: int, tick: nat, late: nat)
    requires Sane(env)
    ensures var (ctx, tick1) := AttemptContext(c, env, started, tick);
            tick1 <= late && CtxError(env, ctx, late).Some? ==> Over(c, env, started, late)
  {
    assert env.now(tick) <= env.now(tick + 1);
    assert tick <= late ==> env.now(tick) <= env.now(late);
  }

  ghost predicate StepSafe(before: Trace, s: Step) {
    && |before.log| < |s.trace.log| && before.log == s.trace.log[..|before.log|]
    && OnlyLastTouches(s.trace.log, |before.log|)
    && Delivered(before, s.trace)
    && var last := s.trace.log[|s.trace.log| - 1];
       && s.trace.responseCommitted == (before.responseCommitted || last.attempt.CommittedFailure?)
       && (s.err.None? <==> Touches(last.attempt) && last.ended.None?)
       && (Touches(last.attempt) && s.err.Some? ==> s.err.value == FromCtx(last.ended.value))
  }

  /** One dispatch. When the client was reached and an error still comes back, that error is
      only the end of the context, and the chain is over. */
  lemma OneDispatch(c: Config, env: Env, started: int, t: Target, h: Health, trace: Trace)
    requires Sane(env)
    ensures var s := DispatchOnce(c, env, started, t, h, trace);
            && StepSafe(trace, s)
            && |s.trace.log| == |trace.log| + 1
            && (s.trace.log[|trace.log|].ended.Some? ==> Over(c, env, started, s.health.tick))
            && s.trace.log[|trace.log|].target == t
            && s.trace.log[|trace.log|].attempt == env.upstream(|trace.log|)
  {
    var (ctx, tick) := AttemptContext(c, env, started, h.tick);
    var s := DispatchOnce(c, env, started, t, h, trace);
    EndedMeansOver(c, env, started, h.tick, s.health.tick - 1);
    OverStays(c, env, started, s.health.tick - 1, s.health.tick);
    assert s.trace.log[..|trace.log|] == trace.log;
  }

  /** A stretch of dispatches that all left the client untouched. */
  ghost predicate Quiet(before: Trace, mid: Trace) {
    && |before.log| <= |mid.log| && before.log == mid.log[..|before.log|]
    && mid.wire == before.wire && mid.responseCommitted == before.responseCommitted
    && forall k :: |before.log| <= k < |mid.log| ==> !Touches(mid.log[k].attempt)
  }

  /** Untouched dispatches in front do not matter to what the client sees. */
  lemma AfterQuiet(before: Trace, mid: Trace, after: Trace)
    requires Quiet(before, mid)
    requires |mid.log| <= |after.log| && mid.log == after.log[..|mid.log|]
    requires OnlyLastTouches(after.log, |mid.log|) && Delivered(mid, after)
    ensures before.log == after.log[..|before.log|]
    ensures OnlyLastTouches(after.log, |before.log|) && Delivered(before, after)
    ensures LastTouched(after.log, |before.log|) <==> LastTouched(after.log, |mid.log|)
  {
    assert forall k :: 0 <= k < |mid.log| ==> after.log[k] == mid.log[k];
  }

  /** A step that did not reach the client is quiet. */
  lemma UntouchedIsQuiet(before: Trace, s: Step)
    requires StepSafe(before, s) && !LastTouched(s.trace.log, |before.log|)
    ensures Quiet(before, s.trace)
  {
  }

  predicate Retries(c: Config, env: Env, started: int, s: Step) {
    && s.err.Some? && TransientGateway(s.err.value) && !s.err.value.deadline && env.gone(s.health.tick).None?
    && !Spent(c, env, started, s.health.tick + 1)
  }

  lemma TryUnfold(c: Config, env: Env, started: int, t: Target, h: Health, trace: Trace)
    ensures var s := DispatchOnce(c, env, started, t, h, trace);
            var r := TryTarget(c, env, started, t, h, trace);
            if Retries(c, env, started, s) then r == DispatchOnce(c, env, started, t, Tick(Tick(s.health)), s.trace)
            else r.err == s.err && r.trace == s.trace && r.health.tick > s.health.tick
  {
  }

  /** A second try happens only after a 502, 503 or 504 of an attempt that wrote nothing, in a
      context still alive. */
  lemma RetryMeansUntouched(c: Config, env: Env, started: int, t: Target, h: Health, trace: Trace)
    requires Sane(env) && Retries(c, env, started, DispatchOnce(c, env, started, t, h, trace))
    ensures var s := DispatchOnce(c, env, started, t, h, trace);
            RetryAllowed(s.trace.log[|trace.log|]) && Quiet(trace, s.trace)
  {
    var s := DispatchOnce(c, env, started, t, h, trace);
    OneDispatch(c, env, started, t, h, trace);
    OverStays(c, env, started, s.health.tick, s.health.tick + 1);
    UntouchedIsQuiet(trace, s);
  }

  /** One target: one dispatch, or two. */
  lemma OneTarget(c: Config, env: Env, started: int, t: Target, h: Health, trace: Trace)
    requires Sane(env)
    ensures var s := TryTarget(c, env, started, t, h, trace);
            && StepSafe(trace, s)
            && |s.trace.log| <= |trace.log| + 2
            && (forall k :: |trace.log| <= k < |s.trace.log| ==> s.trace.log[k].target == t)
            && (|s.trace.log| == |trace.log| + 2 ==> RetryAllowed(s.trace.log[|trace.log|]))
            && (LastTouched(s.trace.log, |trace.log|) && s.err.Some? ==> Over(c, env, started, s.health.tick))
  {
    var s := DispatchOnce(c, env, started, t, h, trace);
    var r := TryTarget(c, env, started, t, h, trace);
    OneDispatch(c, env, started, t, h, trace);
    TryUnfold(c, env, started, t, h, trace);
    if Retries(c, env, started, s) {
      RetryMeansUntouched(c, env, started, t, h, trace);
      OneDispatch(c, env, started, t, Tick(Tick(s.health)), s.trace);
      AfterQuiet(trace, s.trace, r.trace);
      assert r.trace.log[|trace.log|] == s.trace.log[|trace.log|];
    } else {
      OverStays(c, env, started, s.health.tick, r.health.tick);
    }
  }

  /** A second try needs a 502, 503 or 504 of an attempt that wrote nothing, in a live context. */
  predicate RetryAllowed(first: Entry) {
    !Touches(first.attempt) && TransientGateway(first.attempt.err) && first.ended.None?
  }

  ghost predicate ChainSafe(before: Trace, o: Outcome) {
    var after := o.trace;
    && |before.log| <= |after.log| && before.log == after.log[..|before.log|]
    && OnlyLastTouches(after.log, |before.log|)
    && Delivered(before, after)
    && (o.result.Served? <==> LastTouched(after.log, |before.log|) && after.log[|after.log| - 1].ended.None?)
    && after.responseCommitted ==
       (before.responseCommitted || (LastTouched(after.log, |before.log|) && after.log[|after.log| - 1].attempt.CommittedFailure?))
  }

  lemma StopHere(before: Trace, s: Step, o: Outcome)
    requires StepSafe(before, s) && o.trace == s.trace && (o.result.Served? <==> s.err.None?)
    ensures ChainSafe(before, o)
  {
  }

  lemma GoOn(before: Trace, s: Step, o: Outcome)
    requires StepSafe(before, s) && !LastTouched(s.trace.log, |before.log|) && ChainSafe(s.trace, o)
    ensures ChainSafe(before, o)
  {
    UntouchedIsQuiet(before, s);
    AfterQuiet(before, s.trace, o.trace);
  }

  /** A spent budget dispatches nothing more. */
  predicate QuietWhenSpent(c: Config, env: Env, started: int, h: Health, trace: Trace, o: Outcome) {
    Spent(c, env, started, h.tick) ==> o.trace == trace && o.health.drains == h.drains && !o.result.Served?
  }

  ghost predicate SafeFrom(c: Config, env: Env, started: int, h: Health, trace: Trace, o: Outcome) {
    QuietWhenSpent(c, env, started, h, trace, o) && ChainSafe(trace, o)
  }

  ghost function Safety(c: Config, env: Env, started: int): Relation {
    (i, acc, h, trace, o) => SafeFrom(c, env, started, h, trace, o)
  }

  /** A target that was tried: what it left, and how the round ends. Nothing goes on after a
      target that reached the client unless the chain is over. */
  lemma TriedRound(c: Config, env: Env, started: int, order: seq<Target>, i: nat, acc: Tally, h: Health, trace: Trace)
    returns (s: Step)
    requires Sane(env) && i < |order| && !Spent(c, env, started, h.tick)
    ensures StepSafe(trace, s)
    ensures match Advance(c, env, started, order, i, acc, h, trace)
            case End(o) => o.trace == s.trace && (o.result.Served? <==> s.err.None?)
            case Next(_, h1, trace1) =>
              trace1 == s.trace && s.err.Some?
              && (LastTouched(s.trace.log, |trace.log|) ==> Spent(c, env, started, h1.tick))
  {
    s := TryTarget(c, env, started, order[i], Tick(h), trace);
    OneTarget(c, env, started, order[i], Tick(h), trace);
    if s.err.Some? && StopsWith(c, env, started, s.health.tick, s.err.value).None? {
      var h1 := Blame(c, env, Tick(Tick(s.health)), order[i], s.err.value, |order| - i - 1);
      OverStays(c, env, started, s.health.tick, h1.tick);
    }
  }

  lemma RoundIsSafe(c: Config, env: Env, started: int, order: seq<Target>, i: nat, acc: Tally, h: Health, trace: Trace)
    requires Sane(env) && i <= |order|
    ensures RoundOk(c, env, started, order, Safety(c, env, started), i, acc, h, trace)
  {
    if i < |order| && !Spent(c, env, started, h.tick) {
      var s := TriedRound(c, env, started, order, i, acc, h, trace);
      forall o: Outcome | o.trace == s.trace && (o.result.Served? <==> s.err.None?)
        ensures ChainSafe(trace, o)
      {
        StopHere(trace, s, o);
      }
      forall o: Outcome | !LastTouched(s.trace.log, |trace.log|) && ChainSafe(s.trace, o)
        ensures ChainSafe(trace, o)
      {
        GoOn(trace, s, o);
      }
    }
  }

  /** From any point of a chain on: only its last dispatch may have reached the client. */
  lemma ChainIsSafe(c: Config, env: Env, started: int, order: seq<Target>, i: nat, acc: Tally, h: Health, trace: Trace)
    requires Sane(env) && i <= |order|
    ensures SafeFrom(c, env, started, h, trace, Chain(c, env, started, order, i, acc, h, trace))
  {
    forall j: nat, acc1, h1, trace1 | j <= |order|
      ensures RoundOk(c, env, started, order, Safety(c, env, started), j, acc1, h1, trace1)
    {
      RoundIsSafe(c, env, started, order, j, acc1, h1, trace1);
    }
    ChainInduction(c, env, started, order, Safety(c, env, started), i, acc, h, trace);
  }

  lemma SpentStops(c: Config, env: Env, started: int, order: seq<Target>, i: nat, acc: Tally, h: Health, trace: Trace)
    requires i <= |order| && Spent(c, env, started, h.tick)
    ensures var o := Chain(c, env, started, order, i, acc, h, trace); o.trace == trace && !o.result.Served?
  {
  }

  /** Whether a run left the client with bytes of an attempt followed by an error envelope. */
  predicate EnvelopeAfterBytes(before: Trace, after: Trace) {
    LastTouched(after.log, |before.log|) && |after.wire| > |before.wire| && after.wire[|after.wire| - 1] == Envelope
  }

  /** The last step of runCombo. */
  function WithEnvelope(o: Outcome): Trace {
    if !o.result.Served? && !o.trace.responseCommitted then o.trace.(wire := o.trace.wire + [Envelope]) else o.trace
  }

  /** What a run may leave on the wire, and when bytes and an envelope come together. */
  ghost predicate WireSafe(before: Trace, after: Trace) {
    && |before.log| <= |after.log| && before.log == after.log[..|before.log|]
    && OnlyLastTouches(after.log, |before.log|)
    && (Delivered(before, after) ||
        (after.wire != [] && after.wire[|after.wire| - 1] == Envelope &&
         Delivered(before, after.(wire := after.wire[..|after.wire| - 1]))))
    && (EnvelopeAfterBytes(before, after) <==>
          LastTouched(after.log, |before.log|)
          && after.log[|after.log| - 1].attempt.Done? && after.log[|after.log| - 1].ended.Some?)
  }

  lemma EnvelopeRule(before: Trace, o: Outcome)
    requires !before.responseCommitted && ChainSafe(before, o)
    ensures WireSafe(before, WithEnvelope(o))
    ensures !LastTouched(o.trace.log, |before.log|) ==> WithEnvelope(o).wire == before.wire + [Envelope]
  {
    assert (o.trace.wire + [Envelope])[..|o.trace.wire|] == o.trace.wire;
  }

  /** The chat wire of every run: whatever the upstreams, the clock and the client do,
      (1) once bytes of an attempt reached the client no further dispatch starts,
      (2) the client sees the bytes of at most that one attempt, and
      (3) an envelope follows those bytes exactly when the attempt had finished well and its
          context had ended by the time it returned. */
  lemma ChatWire(c: Config, env: Env, h: Health, trace: Trace)
    requires Sane(env)
    ensures var (r, _, after) := RunCombo(c, env, h, trace);
            && WireSafe(trace, after)
            && (r.Some? && !LastTouched(after.log, |trace.log|) ==> after.wire == trace.wire + [Envelope])
  {
    var (order, h1) := Ordered(c, env, h);
    var start := trace.(responseCommitted := false);
    if order.Some? {
      var o := Chain(c, env, env.now(h1.tick), order.value, 0, Tally(0, 0, None), Tick(h1), start);
      ChainIsSafe(c, env, env.now(h1.tick), order.value, 0, Tally(0, 0, None), Tick(h1), start);
      EnvelopeRule(start, o);
      assert RunCombo(c, env, h, trace).2 == WithEnvelope(o);
    }
  }

  /** Without a combo timeout and with a client that stays, no context ever ends. */
  lemma {:induction false} ContextsStayAlive(c: Config, env: Env, started: int, order: seq<Target>, i: nat, acc: Tally, h: Health, trace: Trace, from: nat)
    requires c.timeout <= 0 && i <= |order| && forall k: nat :: env.gone(k).None?
    requires AllAlive(trace.log, from)
    ensures AllAlive(Chain(c, env, started, order, i, acc, h, trace).trace.log, from)
    decreases |order| - i
  {
    if i < |order| {
      var s := TryTarget(c, env, started, order[i], Tick(h), trace);
      DispatchAlive(c, env, started, order[i], Tick(h), trace, from);
      var s1 := DispatchOnce(c, env, started, order[i], Tick(h), trace);
      DispatchAlive(c, env, started, order[i], Tick(Tick(s1.health)), s1.trace, from);
      if s.err.Some? && StopsWith(c, env, started, s.health.tick, s.err.value).None? {
        var h2 := Blame(c, env, Tick(Tick(s.health)), order[i], s.err.value, |order| - i - 1);
        ContextsStayAlive(c, env, started, order, i + 1, Count(acc, s.err.value), h2, s.trace, from);
      }
    }
  }

  predicate AllAlive(log: seq<Entry>, from: nat) {
    forall k :: from <= k < |log| ==> log[k].ended.None?
  }

  lemma DispatchAlive(c: Config, env: Env, started: int, t: Target, h: Health, trace: Trace, from: nat)
    requires c.timeout <= 0 && forall k: nat :: env.gone(k).None?
    requires AllAlive(trace.log, from)
    ensures AllAlive(DispatchOnce(c, env, started, t, h, trace).trace.log, from)
  {
    assert AttemptContext(c, env, started, h.tick).0 == Parent;
  }

  /** So with no combo timeout and a client that stays, an envelope means no attempt byte. */
  lemma NoEnvelopeAfterBytes(c: Config, env: Env, h: Health, trace: Trace)
    requires Sane(env) && c.timeout <= 0 && ClientStays(env)
    ensures !EnvelopeAfterBytes(trace, RunCombo(c, env, h, trace).2)
  {
    ChatWire(c, env, h, trace);
    var (order, h1) := Ordered(c, env, h);
    if order.Some? {
      ContextsStayAlive(c, env, env.now(h1.tick), order.value, 0, Tally(0, 0, None), Tick(h1),
                        trace.(responseCommitted := false), |trace.log|);
    }
  }

  predicate Undrained(c: Config, h: Health) {
    c.targets != [] && h.drains == map[] && (c.strategy.RoundRobin? ==> Counter(h, c.name) < INT64)
  }

  ghost predicate ClientStays(env: Env) { forall k: nat :: env.gone(k).None? }

  /** A clock that stands still up to one reading and then jumps by a whole budget, and an
      upstream that always answers well. */
  function JumpingEnv(still: nat, budget: nat): Env {
    Env((i: nat) => if i <= still then 0 else budget, (i: nat) => None, (at: int) => 0, (k: nat) => Done)
  }

  lemma {:induction false} UndrainedSplit(c: Config, env: Env, h: Health, ts: seq<Target>)
    requires h.drains == map[]
    ensures Split(c, env, h, ts) == Partition(ts, [], h.(tick := h.tick + |ts|))
  {
    if ts != [] {
      UndrainedSplit(c, env, h, ts[..|ts| - 1]);
      LastApart([], ts);
      EmptyLeft(ts);
      EmptyLeft(ts[..|ts| - 1]);
      assert !IsDrained(env, h.(tick := h.tick + |ts| - 1), ts[|ts| - 1]);
    }
  }

  lemma UndrainedOrder(c: Config, env: Env, h: Health)
    requires Undrained(c, h)
    ensures var (order, h1) := Ordered(c, env, h);
            order.Some? && order.value != [] && h1.tick == h.tick + if c.strategy.Priority? then 0 else |c.targets|
  {
    UndrainedSplit(c, env, h, c.targets);
    StartIndexUsable(Counter(h, c.name), |c.targets|);
  }

  /** The one attempt: it answers, and its context ends before it returns. */
  lemma LateDispatch(c: Config, still: nat, t: Target, h: Health, trace: Trace)
    requires c.timeout > 0 && h.tick + 1 == still
    ensures var s := DispatchOnce(c, JumpingEnv(still, c.timeout), 0, t, h, trace);
            && s.err == Some(FromCtx(DeadlineExceeded)) && s.health.tick == still + 2
            && s.trace.responseCommitted == trace.responseCommitted
            && |s.trace.log| == |trace.log| + 1 && Touches(s.trace.log[|trace.log|].attempt)
            && s.trace.wire == trace.wire + [AttemptBytes(|trace.log|)]
  {
    assert AttemptContext(c, JumpingEnv(still, c.timeout), 0, h.tick) == (Deadline(c.timeout), still + 1);
  }

  lemma LateRound(c: Config, still: nat, order: seq<Target>, h: Health, trace: Trace)
    requires c.timeout > 0 && order != [] && h.tick + 2 == still && !trace.responseCommitted
    ensures var link := Advance(c, JumpingEnv(still, c.timeout), 0, order, 0, Tally(0, 0, None), h, trace);
            && link.End? && !link.outcome.result.Served? && !link.outcome.trace.responseCommitted
            && LastTouched(link.outcome.trace.log, |trace.log|)
            && link.outcome.trace.wire == trace.wire + [AttemptBytes(|trace.log|)]
  {
    var env := JumpingEnv(still, c.timeout);
    LateDispatch(c, still, order[0], Tick(h), trace);
    var s := TryTarget(c, env, 0, order[0], Tick(h), trace);
    assert s.err == Some(FromCtx(DeadlineExceeded));
    assert StopsWith(c, env, 0, s.health.tick, s.err.value).Some?;
  }

  /** With a timeout it can happen, to any combo on an undrained tracker and with a client that
      stays: an attempt that finishes well just as the budget runs out is followed by an envelope. */
  lemma EnvelopeAfterAnswer(c: Config, h: Health, trace: Trace) returns (env: Env)
    requires c.timeout > 0 && Undrained(c, h)
    ensures Sane(env) && ClientStays(env) && EnvelopeAfterBytes(trace, RunCombo(c, env, h, trace).2)
  {
    var still := h.tick + (if c.strategy.Priority? then 0 else |c.targets|) + 3;
    env := JumpingEnv(still, c.timeout);
    var start := trace.(responseCommitted := false);
    UndrainedOrder(c, env, h);
    var (order, h1) := Ordered(c, env, h);
    LateRound(c, still, order.value, Tick(h1), start);
    var o := Chain(c, env, 0, order.value, 0, Tally(0, 0, None), Tick(h1), start);
    assert RunCombo(c, env, h, trace).2 == o.trace.(wire := o.trace.wire + [Envelope]);
  }

  /** So the timeout is what decides, for every combo on an undrained tracker. */
  lemma EnvelopeAfterBytesIff(c: Config, h: Health, trace: Trace)
    requires Undrained(c, h)
    ensures (exists env :: Sane(env) && ClientStays(env) && EnvelopeAfterBytes(trace, RunCombo(c, env, h, trace).2))
            <==> c.timeout > 0
  {
    if c.timeout > 0 {
      var env := EnvelopeAfterAnswer(c, h, trace);
    } else {
      forall env | Sane(env) && ClientStays(env)
        ensures !EnvelopeAfterBytes(trace, RunCombo(c, env, h, trace).2)
      {
        NoEnvelopeAfterBytes(c, env, h, trace);
      }
    }
  }

  // ---------------------------------------------------------------- the log is what was asked

  /** Entry number k of a log is the answer of dispatch number k. */
  predicate AskedFrom(env: Env, before: Trace, after: Trace) {
    && |before.log| <= |after.log| && before.log == after.log[..|before.log|]
    && forall k: nat :: |before.log| <= k < |after.log| ==> after.log[k].attempt == env.upstream(k)
  }

  ghost function Asking(env: Env): Relation { (i, acc, h, trace, o: Outcome) => AskedFrom(env, trace, o.trace) }

  lemma DispatchAsks(c: Config, env: Env, started: int, t: Target, h: Health, trace: Trace)
    ensures AskedFrom(env, trace, DispatchOnce(c, env, started, t, h, trace).trace)
  {
  }

  lemma AskedTwice(env: Env, before: Trace, mid: Trace, after: Trace)
    requires AskedFrom(env, before, mid) && AskedFrom(env, mid, after)
    ensures AskedFrom(env, before, after)
  {
    assert forall k :: 0 <= k < |mid.log| ==> after.log[k] == mid.log[k];
  }

  lemma TryAsks(c: Config, env: Env, started: int, t: Target, h: Health, trace: Trace)
    ensures AskedFrom(env, trace, TryTarget(c, env, started, t, h, trace).trace)
  {
    var s := DispatchOnce(c, env, started, t, h, trace);
    DispatchAsks(c, env, started, t, h, trace);
    TryUnfold(c, env, started, t, h, trace);
    if Retries(c, env, started, s) {
      DispatchAsks(c, env, started, t, Tick(Tick(s.health)), s.trace);
      AskedTwice(env, trace, s.trace, DispatchOnce(c, env, started, t, Tick(Tick(s.health)), s.trace).trace);
    }
  }

  lemma RoundAsks(c: Config, env: Env, started: int, order: seq<Target>, i: nat, acc: Tally, h: Health, trace: Trace)
    requires i <= |order|
    ensures RoundOk(c, env, started, order, Asking(env), i, acc, h, trace)
  {
    if i < |order| && !Spent(c, env, started, h.tick) {
      var s := TryTarget(c, env, started, order[i], Tick(h), trace);
      TryAsks(c, env, started, order[i], Tick(h), trace);
      forall o: Outcome | AskedFrom(env, s.trace, o.trace)
        ensures AskedFrom(env, trace, o.trace)
      {
        AskedTwice(env, trace, s.trace, o.trace);
      }
    }
  }

  lemma RunAsks(c: Config, env: Env, h: Health, trace: Trace)
    ensures AskedFrom(env, trace, RunCombo(c, env, h, trace).2)
  {
    var (order, h1) := Ordered(c, env, h);
    if order.Some? {
      var started, start := env.now(h1.tick), trace.(responseCommitted := false);
      forall j: nat, acc1, h2, trace1 | j <= |order.value|
        ensures RoundOk(c, env, started, order.value, Asking(env), j, acc1, h2, trace1)
      {
        RoundAsks(c, env, started, order.value, j, acc1, h2, trace1);
      }
      ChainInduction(c, env, started, order.value, Asking(env), 0, Tally(0, 0, None), Tick(h1), start);
    }
  }

  // ---------------------------------------------------------------- who is tried

  /** The dispatches are the targets in order from position i on, each once or, after a
      gateway error, twice; all is whether none may be missing at the end. */
  predicate InOrder(order: seq<Target>, i: nat, entries: seq<Entry>, all: bool)
    decreases |entries|
  {
    if entries == [] then all ==> i >= |order|
    else
      && i < |order| && entries[0].target == order[i]
      && (|| InOrder(order, i + 1, entries[1..], all)
          || (|entries| >= 2 && entries[1].target == order[i] && RetryAllowed(entries[0])
              && InOrder(order, i + 1, entries[2..], all)))
  }

  lemma OneMoreTarget(order: seq<Target>, i: nat, log: seq<Entry>, from: nat, mid: nat, all: bool)
    requires i < |order| && from < mid <= from + 2 && mid <= |log|
    requires forall k :: from <= k < mid ==> log[k].target == order[i]
    requires mid == from + 2 ==> RetryAllowed(log[from])
    requires InOrder(order, i + 1, log[mid..], all)
    ensures InOrder(order, i, log[from..], all)
  {
    var entries := log[from..];
    assert entries[0] == log[from];
    if mid == from + 1 {
      assert entries[1..] == log[mid..];
    } else {
      assert entries[1] == log[from + 1] && entries[2..] == log[mid..];
    }
  }

  /** What InOrder says of the entries a chain added after from, with nothing missing unless
      the chain served or was over. */
  predicate TriedFrom(c: Config, env: Env, started: int, order: seq<Target>, i: nat, from: nat, o: Outcome)
    requires from <= |o.trace.log|
  {
    InOrder(order, i, o.trace.log[from..], !o.result.Served? && !Over(c, env, started, o.health.tick))
  }

  /** The dispatches of one step: one or two, all of target t. */
  predicate Tries(t: Target, before: Trace, s: Step) {
    && |before.log| < |s.trace.log| <= |before.log| + 2 && before.log == s.trace.log[..|before.log|]
    && (forall k :: |before.log| <= k < |s.trace.log| ==> s.trace.log[k].target == t)
    && (|s.trace.log| == |before.log| + 2 ==> RetryAllowed(s.trace.log[|before.log|]))
  }

  lemma TriedAndWentOn(c: Config, env: Env, started: int, order: seq<Target>, i: nat, before: Trace, s: Step, o: Outcome)
    requires i < |order| && Tries(order[i], before, s) && OrderFrom(c, env, started, order, i + 1, s.trace, o)
    ensures OrderFrom(c, env, started, order, i, before, o)
  {
    assert forall k :: 0 <= k < |s.trace.log| ==> o.trace.log[k] == s.trace.log[k];
    OneMoreTarget(order, i, o.trace.log, |before.log|, |s.trace.log|, !o.result.Served? && !Over(c, env, started, o.health.tick));
  }

  /** The entries an outcome adds to a trace are the targets from position i on. */
  predicate OrderFrom(c: Config, env: Env, started: int, order: seq<Target>, i: nat, trace: Trace, o: Outcome) {
    && |trace.log| <= |o.trace.log| && trace.log == o.trace.log[..|trace.log|]
    && TriedFrom(c, env, started, order, i, |trace.log|, o)
  }

  ghost function Orderly(c: Config, env: Env, started: int, order: seq<Target>): Relation {
    (i: nat, acc, h, trace, o) => OrderFrom(c, env, started, order, i, trace, o)
  }

  /** A chain that adds nothing more has ended, or is over. */
  lemma AddsNothing(c: Config, env: Env, started: int, order: seq<Target>, i: nat, trace: Trace, o: Outcome)
    requires o.trace == trace && (i >= |order| || o.result.Served? || Over(c, env, started, o.health.tick))
    ensures OrderFrom(c, env, started, order, i, trace, o)
  {
    assert o.trace.log[|trace.log|..] == [];
  }

  /** One target of the chain, as far as the order goes. */
  lemma TriedInOrder(c: Config, env: Env, started: int, order: seq<Target>, i: nat, acc: Tally, h: Health, trace: Trace)
    returns (s: Step)
    requires Sane(env) && i < |order| && !Spent(c, env, started, h.tick)
    ensures Tries(order[i], trace, s)
    ensures match Advance(c, env, started, order, i, acc, h, trace)
            case End(o) => o.trace == s.trace && (o.result.Served? || Over(c, env, started, o.health.tick))
            case Next(_, _, trace1) => trace1 == s.trace
  {
    s := TryTarget(c, env, started, order[i], Tick(h), trace);
    OneTarget(c, env, started, order[i], Tick(h), trace);
    OverStays(c, env, started, s.health.tick, s.health.tick + 2);
    OverStays(c, env, started, s.health.tick + 1, s.health.tick + 2);
  }

  lemma RoundInOrder(c: Config, env: Env, started: int, order: seq<Target>, i: nat, acc: Tally, h: Health, trace: Trace)
    requires Sane(env) && i <= |order|
    ensures RoundOk(c, env, started, order, Orderly(c, env, started, order), i, acc, h, trace)
  {
    if i == |order| || Spent(c, env, started, h.tick) {
      var o := Advance(c, env, started, order, i, acc, h, trace).outcome;
      OverStays(c, env, started, h.tick, o.health.tick);
      AddsNothing(c, env, started, order, i, trace, o);
    } else {
      var s := TriedInOrder(c, env, started, order, i, acc, h, trace);
      forall o | OrderFrom(c, env, started, order, i + 1, s.trace, o)
        ensures OrderFrom(c, env, started, order, i, trace, o)
      {
        TriedAndWentOn(c, env, started, order, i, trace, s, o);
      }
      var link := Advance(c, env, started, order, i, acc, h, trace);
      if link.End? {
        AddsNothing(c, env, started, order, i + 1, s.trace, link.outcome);
      }
    }
  }

  /** A chain tries its targets in order, and gives up before the last one only when it
      served, the client left or the budget ran out. */
  lemma ChainTriesInOrder(c: Config, env: Env, started: int, order: seq<Target>, i: nat, acc: Tally, h: Health, trace: Trace)
    requires Sane(env) && i <= |order|
    ensures OrderFrom(c, env, started, order, i, trace, Chain(c, env, started, order, i, acc, h, trace))
  {
    forall j: nat, acc1, h1, trace1 | j <= |order|
      ensures RoundOk(c, env, started, order, Orderly(c, env, started, order), j, acc1, h1, trace1)
    {
      RoundInOrder(c, env, started, order, j, acc1, h1, trace1);
    }
    ChainInduction(c, env, started, order, Orderly(c, env, started, order), i, acc, h, trace);
  }
}
