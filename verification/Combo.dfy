/** The combo failover engine (internal/combo/combo.go, tracker.go) with the dispatch callback
    runCombo gives it on the chat wire (internal/api/chat.go). Every reading of the clock and of
    a context is one tick of an environment that is otherwise arbitrary. */
module Combo {
  import opened Bytes
  import opened Strikes
  import opened RoundRobin

  datatype Target = Target(provider: string, model: string)

  datatype Strategy = Priority | FillFirst | Reliable | RoundRobin

  datatype Config = Config(
    name: string,
    strategy: Strategy,
    targets: seq<Target>,
    tracked: bool,
    drainTTL: int,
    timeout: int,
    stream: bool)

  /** What errors.As and errors.Is find in an error, whatever it wraps. */
  datatype Err = Err(
    status: Option<int>,
    drainable: Option<bool>,
    cooldown: Option<int>,
    retryAfter: Option<int>,
    busy: bool,
    stall: bool,
    canceled: bool,
    deadline: bool,
    comboTimeout: bool)

  const PLAIN: Err := Err(None, None, None, None, false, false, false, false, false)
  const COMBO_TIMEOUT: Err := PLAIN.(comboTimeout := true)

  datatype CtxErr = Canceled | DeadlineExceeded

  function FromCtx(e: CtxErr): Err {
    if e == Canceled then PLAIN.(canceled := true) else PLAIN.(deadline := true)
  }

  function OrElse<T>(a: Option<T>, b: Option<T>): Option<T> { if a.Some? then a else b }

  /** errors.Join: searches find the left error's answer first. */
  function Join(a: Err, b: Err): Err {
    Err(OrElse(a.status, b.status), OrElse(a.drainable, b.drainable), OrElse(a.cooldown, b.cooldown),
        OrElse(a.retryAfter, b.retryAfter), a.busy || b.busy, a.stall || b.stall, a.canceled || b.canceled,
        a.deadline || b.deadline, a.comboTimeout || b.comboTimeout)
  }

  function JoinLast(a: Err, last: Option<Err>): Err {
    match last case None => a case Some(b) => Join(a, b)
  }

  function OrPlain(last: Option<Err>): Err {
    match last case None => PLAIN case Some(e) => e
  }

  /** How one provider call ended, seen through its buffered writer. Done and
      CommittedFailure are exactly the endings that put bytes on the wire. */
  datatype Attempt = Unavailable(err: Err) | Failed(err: Err) | Done | CommittedFailure(err: Err)

  predicate Touches(a: Attempt) { a.Done? || a.CommittedFailure? }

  /** The clock, the client, the timers and the upstreams: anything at all. now and gone are
      read by tick, upstream by dispatch number; lag is how late a deadline timer fires. */
  datatype Env = Env(
    now: nat -> int,
    gone: nat -> Option<CtxErr>,
    lag: int -> nat,
    upstream: nat -> Attempt)

  /** Time never runs backwards and a request context that ended stays ended. */
  ghost predicate Sane(env: Env) {
    && (forall i: nat, j: nat :: i <= j ==> env.now(i) <= env.now(j))
    && (forall i: nat, j: nat :: i <= j && env.gone(i).Some? ==> env.gone(j) == env.gone(i))
  }

  /** The context of one dispatch. */
  datatype Ctx = Parent | Cancelled | Deadline(at: int)

  function CtxError(env: Env, ctx: Ctx, tick: nat): Option<CtxErr> {
    match ctx
    case Parent => env.gone(tick)
    case Cancelled => if env.gone(tick).Some? then env.gone(tick) else Some(Canceled)
    case Deadline(at) =>
      if env.now(tick) >= at + env.lag(at) then Some(DeadlineExceeded) else env.gone(tick)
  }

  /** One finished dispatch: parked is until when the callback drained its target, ended what
      its context reported afterwards. */
  datatype Entry = Entry(target: Target, attempt: Attempt, parked: Option<int>, ended: Option<CtxErr>)

  /** What the client was sent, in order. */
  datatype Piece = AttemptBytes(dispatch: nat) | StreamError | Envelope

  /** The shared state a run reads and updates: ticks used so far, the tracker's drains, the
      strike slices, the 429 counts and the rotation counters. */
  datatype Health = Health(
    tick: nat,
    drains: map<string, int>,
    strikes: map<string, seq<int>>,
    hits: map<string, nat>,
    counters: map<string, nat>)

  /** What happened: the dispatches, what the client was sent, and runCombo's flag. */
  datatype Trace = Trace(log: seq<Entry>, wire: seq<Piece>, responseCommitted: bool)

  datatype Result = Served(target: Target) | Broke(err: Err) | NoHealthyTargets

  // ---------------------------------------------------------------- classifiers

  function Key(t: Target): string { t.provider + "/" + t.model }

  function StrikeKey(c: Config, t: Target): string { c.name + "\0" + Key(t) }

  predicate Is4xxOfCaller(code: int) { code == 400 || code == 404 || code == 422 }

  predicate Drainable(e: Err) {
    if e.drainable.Some? then e.drainable.value else !(e.status.Some? && Is4xxOfCaller(e.status.value))
  }

  predicate UpstreamRateLimit(e: Err) { !e.busy && e.status == Some(429) }

  predicate TransientGateway(e: Err) { e.status.Some? && (e.status.value == 502 || e.status.value == 503 || e.status.value == 504) }

  predicate ImmediateDrain(e: Err) {
    !e.busy && (e.status == Some(401) || e.status == Some(429) || e.cooldown.Some?)
  }

  predicate TracksFailures(c: Config) { !c.strategy.Priority? && c.tracked }

  function DrainTTL(c: Config): int { if c.drainTTL > 0 then c.drainTTL else 60 * SECOND }

  // ---------------------------------------------------------------- tracker

  function Tick(h: Health): Health { h.(tick := h.tick + 1) }

  predicate IsDrained(env: Env, h: Health, t: Target) {
    Key(t) in h.drains && env.now(h.tick) < h.drains[Key(t)]
  }

  function MarkDrained(env: Env, h: Health, t: Target, ttl: int): (r: Health)
    ensures r.tick >= h.tick
  {
    if ttl <= 0 then h else Tick(h).(drains := h.drains[Key(t) := env.now(h.tick) + ttl])
  }

  // ---------------------------------------------------------------- order

  datatype Partition = Partition(healthy: seq<Target>, drained: seq<Target>, health: Health)

  /** Each target is looked up once, in list order. */
  function Split(c: Config, env: Env, h: Health, ts: seq<Target>): (p: Partition)
    ensures p.health == h.(tick := p.health.tick) && p.health.tick >= h.tick
  {
    if ts == [] then Partition([], [], h)
    else
      var p := Split(c, env, h, ts[..|ts| - 1]);
      var t := ts[|ts| - 1];
      if c.tracked && IsDrained(env, p.health, t) then Partition(p.healthy, p.drained + [t], Tick(p.health))
      else Partition(p.healthy + [t], p.drained, Tick(p.health))
  }

  function Counter(h: Health, name: string): nat { if name in h.counters then h.counters[name] else 0 }

  /** orderedTargets. None is the panic of a counter past 2^63. */
  function Ordered(c: Config, env: Env, h: Health): (r: (Option<seq<Target>>, Health))
    ensures r.1.tick >= h.tick
  {
    if c.strategy.Priority? then (Some(c.targets), h)
    else
      var p := Split(c, env, h, c.targets);
      if c.strategy.FillFirst? then (Some(p.healthy + p.drained), p.health)
      else if !c.strategy.RoundRobin? || |p.healthy| < 2 then (Some(p.healthy), p.health)
      else
        var served := Counter(p.health, c.name);
        var h1 := p.health.(counters := p.health.counters[c.name := served + 1]);
        var start := StartIndex(served, |p.healthy|);
        if 0 <= start then (Some(Rotate(p.healthy, start)), h1) else (None, h1)
  }

  // ---------------------------------------------------------------- one dispatch

  predicate Spent(c: Config, env: Env, started: int, tick: nat) {
    c.timeout > 0 && env.now(tick) - started >= c.timeout
  }

  /** attemptContext: the attempt gets all that remains of the budget. */
  function AttemptContext(c: Config, env: Env, started: int, tick: nat): (r: (Ctx, nat))
    ensures r.1 >= tick
  {
    if c.timeout <= 0 then (Parent, tick)
    else
      var remaining := c.timeout - (env.now(tick) - started);
      if remaining <= 0 then (Cancelled, tick + 1)
      else (Deadline(env.now(tick + 1) + remaining), tick + 2)
  }

  /** Whether the callback of runCombo parks a target: after a committed failure, unless the
      client left or the gateway's own deadline ended the attempt. */
  predicate Parks(c: Config, env: Env, ctx: Ctx, tick: nat, a: Attempt) {
    var clientGone := env.gone(tick).Some?;
    var gatewayDeadline := CtxError(env, ctx, tick + 1).Some? && !clientGone;
    a.CommittedFailure? && c.tracked && !c.strategy.Priority? && !clientGone && !gatewayDeadline
  }

  function ParkedUntil(c: Config, env: Env, ctx: Ctx, tick: nat, a: Attempt): Option<int> {
    if Parks(c, env, ctx, tick, a) then Some(env.now(tick + 2) + DrainTTL(c)) else None
  }

  /** The callback on the tracker's side. */
  function CallbackHealth(c: Config, env: Env, ctx: Ctx, t: Target, h: Health, a: Attempt): (r: Health)
    ensures r.tick >= h.tick
  {
    if !a.CommittedFailure? then h
    else if Parks(c, env, ctx, h.tick, a) then MarkDrained(env, Tick(Tick(h)), t, DrainTTL(c))
    else Tick(Tick(h))
  }

  /** The same callback on the client's side: bytes of an attempt go out when it commits, and
      a committed failure ends the stream with an error event. */
  function CallbackWire(c: Config, clientGone: bool, a: Attempt, trace: Trace): Trace {
    var answer := trace.wire + [AttemptBytes(|trace.log|)];
    if a.Done? then trace.(wire := answer)
    else if a.CommittedFailure? then
      trace.(responseCommitted := true, wire := answer + if c.stream && !clientGone then [StreamError] else [])
    else trace
  }

  /** What the callback returns: a committed failure counts as handled. */
  function CallbackError(a: Attempt): Option<Err> {
    if Touches(a) then None else Some(a.err)
  }

  datatype Step = Step(err: Option<Err>, health: Health, trace: Trace)

  function DispatchOnce(c: Config, env: Env, started: int, t: Target, h: Health, trace: Trace): (r: Step)
    ensures r.health.tick > h.tick
  {
    var (ctx, tick) := AttemptContext(c, env, started, h.tick);
    var a := env.upstream(|trace.log|);
    var h1 := CallbackHealth(c, env, ctx, t, h.(tick := tick), a);
    var trace1 := CallbackWire(c, env.gone(tick).Some?, a, trace);
    var ended := CtxError(env, ctx, h1.tick);
    var entry := Entry(t, a, ParkedUntil(c, env, ctx, tick, a), ended);
    Step(WithContext(CallbackError(a), ended), Tick(h1), trace1.(log := trace1.log + [entry]))
  }

  /** An ended context turns even a success into an error. */
  function WithContext(err: Option<Err>, ended: Option<CtxErr>): Option<Err> {
    if ended.None? then err
    else if err.None? then Some(FromCtx(ended.value))
    else Some(Join(err.value, FromCtx(ended.value)))
  }

  /** attempt: a 502, 503 or 504 is tried once more on the same target. */
  function TryTarget(c: Config, env: Env, started: int, t: Target, h: Health, trace: Trace): (r: Step)
    ensures r.health.tick > h.tick
  {
    var s := DispatchOnce(c, env, started, t, h, trace);
    var h1 := Tick(s.health);
    if s.err.None? || !TransientGateway(s.err.value) || s.err.value.deadline || env.gone(s.health.tick).Some?
    then s.(health := h1)
    else if Spent(c, env, started, h1.tick) then s.(health := Tick(h1))
    else DispatchOnce(c, env, started, t, Tick(h1), s.trace)
  }

  // ---------------------------------------------------------------- draining

  function StrikesOf(h: Health, key: string): seq<int> { if key in h.strikes then h.strikes[key] else [] }

  function HitsOf(h: Health, key: string): nat { if key in h.hits then h.hits[key] else 0 }

  function ShouldDrain(c: Config, env: Env, h: Health, t: Target, e: Err, siblings: nat): (r: (bool, Health))
    ensures r.1.tick >= h.tick && r.1.drains == h.drains && r.1.counters == h.counters
  {
    if siblings == 0 then (false, h)
    else if ImmediateDrain(e) || e.stall then (true, h)
    else if e.status.None? || e.status.value < 500 || e.status.value >= 600 then (true, h)
    else
      var kept := Record(StrikesOf(h, StrikeKey(c, t)), env.now(h.tick));
      (|kept| >= TRANSIENT_STRIKES, Tick(h).(strikes := h.strikes[StrikeKey(c, t) := kept]))
  }

  function CooldownFor(c: Config, h: Health, t: Target, e: Err): (r: (int, Health))
    ensures r.1.tick == h.tick && r.1.drains == h.drains && r.1.counters == h.counters
  {
    if UpstreamRateLimit(e) then
      if e.retryAfter.Some? && e.retryAfter.value > 0 then (e.retryAfter.value, h)
      else
        var n := HitsOf(h, StrikeKey(c, t));
        (Backoff(n), h.(hits := h.hits[StrikeKey(c, t) := n + 1]))
    else if e.cooldown.Some? && e.cooldown.value > 0 then (e.cooldown.value, h)
    else (DrainTTL(c), h)
  }

  /** The tracker's share of one failure. */
  function Blame(c: Config, env: Env, h: Health, t: Target, e: Err, siblings: nat): (r: Health)
    ensures r.tick >= h.tick && r.counters == h.counters
    ensures r.drains == h.drains || (siblings > 0 && r.drains.Keys == h.drains.Keys + {Key(t)}
                                     && forall k :: k in h.drains && k != Key(t) ==> r.drains[k] == h.drains[k])
  {
    if !TracksFailures(c) || !Drainable(e) then h
    else
      var (drain, h1) := ShouldDrain(c, env, h, t, e, siblings);
      if !drain then h1
      else
        var (ttl, h2) := CooldownFor(c, h1, t, e);
        MarkDrained(env, h2, t, ttl)
  }

  // ---------------------------------------------------------------- the chain

  /** The failures so far: how many, how many of them were 429-class, and the last. */
  datatype Tally = Tally(failures: nat, limited: nat, last: Option<Err>)

  function Count(acc: Tally, e: Err): Tally {
    Tally(acc.failures + 1, acc.limited + (if e.busy || UpstreamRateLimit(e) then 1 else 0), Some(e))
  }

  datatype Outcome = Outcome(result: Result, health: Health, trace: Trace)

  /** The verdict once every target failed. */
  function Exhausted(c: Config, spent: bool, acc: Tally): Result {
    var last := if spent then Some(JoinLast(COMBO_TIMEOUT, acc.last)) else acc.last;
    if acc.failures == 0 then NoHealthyTargets
    else if acc.limited == acc.failures then Broke(OrPlain(last))
    else if c.strategy.Reliable? || c.strategy.RoundRobin? then
      Broke(if last.Some? && last.value.comboTimeout then COMBO_TIMEOUT else PLAIN)
    else Broke(OrPlain(last))
  }

  /** Whether the chain ends at once after an error, and with what. */
  function StopsWith(c: Config, env: Env, started: int, tick: nat, e: Err): Option<Err> {
    if env.gone(tick).Some? then Some(FromCtx(env.gone(tick).value))
    else if e.deadline && Spent(c, env, started, tick + 1) then Some(Join(COMBO_TIMEOUT, e))
    else None
  }

  /** One round of the chain: it ends, or goes on to the next target. */
  datatype Link = End(outcome: Outcome) | Next(acc: Tally, health: Health, trace: Trace)

  /** A failed target: the chain ends with the client or the budget, or goes on with the failure
      counted and blamed on the target. */
  function AfterFailure(c: Config, env: Env, started: int, order: seq<Target>, i: nat, acc: Tally, e: Err, h: Health, trace: Trace): (link: Link)
    requires i < |order|
    ensures match link
            case End(o) => o.health.tick > h.tick
            case Next(_, h1, _) => h1.tick > h.tick
  {
    var stop, h1 := StopsWith(c, env, started, h.tick, e), Tick(Tick(h));
    if stop.Some? then End(Outcome(Broke(stop.value), h1, trace))
    else Next(Count(acc, e), Blame(c, env, h1, order[i], e, |order| - i - 1), trace)
  }

  function Advance(c: Config, env: Env, started: int, order: seq<Target>, i: nat, acc: Tally, h: Health, trace: Trace): (link: Link)
    requires i <= |order|
    ensures match link
            case End(o) => o.health.tick > h.tick
            case Next(_, h1, _) => i < |order| && h1.tick > h.tick
  {
    var spent := Spent(c, env, started, h.tick);
    if i == |order| then End(Outcome(Exhausted(c, spent, acc), Tick(h), trace))
    else if spent then End(Outcome(Broke(JoinLast(COMBO_TIMEOUT, acc.last)), Tick(h), trace))
    else
      var s := TryTarget(c, env, started, order[i], Tick(h), trace);
      if s.err.None? then End(Outcome(Served(order[i]), s.health, s.trace))
      else AfterFailure(c, env, started, order, i, acc, s.err.value, s.health, s.trace)
  }

  function Chain(c: Config, env: Env, started: int, order: seq<Target>, i: nat, acc: Tally, h: Health, trace: Trace): (o: Outcome)
    requires i <= |order|
    ensures o.health.tick > h.tick
    decreases |order| - i
  {
    match Advance(c, env, started, order, i, acc, h, trace)
    case End(o) => o
    case Next(acc1, h1, trace1) => Chain(c, env, started, order, i + 1, acc1, h1, trace1)
  }

  /** What holds of a chain's outcome, by one round at a time: rel relates the round a chain
      starts with (its index, tally, health and trace) to an outcome. */
  type Relation = (nat, Tally, Health, Trace, Outcome) -> bool

  ghost predicate RoundOk(c: Config, env: Env, started: int, order: seq<Target>, rel: Relation,
                          i: nat, acc: Tally, h: Health, trace: Trace)
    requires i <= |order|
  {
    match Advance(c, env, started, order, i, acc, h, trace)
    case End(o) => rel(i, acc, h, trace, o)
    case Next(acc1, h1, trace1) => forall o :: rel(i + 1, acc1, h1, trace1, o) ==> rel(i, acc, h, trace, o)
  }

  lemma {:induction false} ChainInduction(c: Config, env: Env, started: int, order: seq<Target>, rel: Relation,
                                          i: nat, acc: Tally, h: Health, trace: Trace)
    requires i <= |order|
    requires forall j: nat, acc1, h1, trace1 :: j <= |order| ==> RoundOk(c, env, started, order, rel, j, acc1, h1, trace1)
    ensures rel(i, acc, h, trace, Chain(c, env, started, order, i, acc, h, trace))
    decreases |order| - i
  {
    assert RoundOk(c, env, started, order, rel, i, acc, h, trace);
    match Advance(c, env, started, order, i, acc, h, trace)
    case End(_) =>
    case Next(acc1, h1, trace1) => ChainInduction(c, env, started, order, rel, i + 1, acc1, h1, trace1);
  }

  /** Combo.Run. None is the panic of orderedTargets. */
  function Run(c: Config, env: Env, h: Health, trace: Trace): (Option<Result>, Health, Trace) {
    var (order, h1) := Ordered(c, env, h);
    if order.None? then (None, h1, trace)
    else
      var o := Chain(c, env, env.now(h1.tick), order.value, 0, Tally(0, 0, None), Tick(h1), trace);
      (Some(o.result), o.health, o.trace)
  }

  /** runCombo: the chain, then the error envelope when nothing was reported inside a stream. */
  function RunCombo(c: Config, env: Env, h: Health, trace: Trace): (Option<Result>, Health, Trace) {
    var (r, h1, trace1) := Run(c, env, h, trace.(responseCommitted := false));
    if r.Some? && !r.value.Served? && !trace1.responseCommitted
    then (r, h1, trace1.(wire := trace1.wire + [Envelope])) else (r, h1, trace1)
  }
}
