/** The engine as it runs: Combo.Run and runCombo over the shared tracker, strike and counter
    state and on a real client, updated step by step and proved against the functions of module
    Combo. */
module ComboEngine {
  import opened Bytes
  import opened Strikes
  import RR = RoundRobin
  import opened Combo
  import opened ComboSafety
  import opened ChatDispatch

  class Engine {
    const env: Env
    const site: Site
    /** What the client had before the first run. */
    ghost const first: bytes
    var tick: nat
    var drains: map<string, int>
    var strikes: map<string, seq<int>>
    var hits: map<string, nat>
    var counters: map<string, nat>
    var log: seq<Entry>
    var wire: seq<Piece>
    var responseCommitted: bool

    function H(): Health
      reads this
    {
      Health(tick, drains, strikes, hits, counters)
    }

    function T(): Trace
      reads this
    {
      Trace(log, wire, responseCommitted)
    }

    /** The client has exactly what the wire trace spells. */
    ghost predicate Shown()
      reads this, site.client
    {
      Wired(env, site) && site.client.body == first + Render(site, wire)
    }

    constructor (env: Env, site: Site)
      requires Wired(env, site)
      ensures this.env == env && this.site == site && first == site.client.body && Shown()
      ensures H() == Health(0, map[], map[], map[], map[]) && T() == Trace([], [], false)
    {
      this.env, this.site, first := env, site, site.client.body;
      tick, drains, strikes, hits, counters := 0, map[], map[], map[], map[];
      log, wire, responseCommitted := [], [], false;
    }

    method Now() returns (now: int)
      modifies `tick
      ensures H() == Tick(old(H())) && now == env.now(old(tick))
    {
      now := env.now(tick);
      tick := tick + 1;
    }

    method OutOfTime(c: Config, started: int) returns (spent: bool)
      modifies `tick
      ensures H() == Tick(old(H())) && spent == Spent(c, env, started, old(tick))
    {
      var now := Now();
      spent := c.timeout > 0 && now - started >= c.timeout;
    }

    method MarkDrained(t: Target, ttl: int)
      modifies `tick, `drains
      ensures H() == Combo.MarkDrained(env, old(H()), t, ttl)
    {
      if ttl <= 0 {
        return;
      }
      var now := Now();
      drains := drains[Key(t) := now + ttl];
    }

    /** The healthy and the drained targets, each in the order of the combo. */
    method SplitTargets(c: Config) returns (healthy: seq<Target>, drained: seq<Target>)
      modifies `tick
      ensures Partition(healthy, drained, H()) == Split(c, env, old(H()), c.targets)
    {
      healthy, drained := [], [];
      for i := 0 to |c.targets|
        invariant Partition(healthy, drained, H()) == Split(c, env, old(H()), c.targets[..i])
      {
        assert c.targets[..i + 1][..i] == c.targets[..i];
        var t := c.targets[i];
        var now := Now();
        if c.tracked && Key(t) in drains && now < drains[Key(t)] {
          drained := drained + [t];
        } else {
          healthy := healthy + [t];
        }
      }
      assert c.targets[..|c.targets|] == c.targets;
    }

    method OrderedTargets(c: Config) returns (order: Option<seq<Target>>)
      modifies `tick, `counters
      ensures (order, H()) == Ordered(c, env, old(H()))
    {
      if c.strategy.Priority? {
        return Some(c.targets);
      }
      var healthy, drained := SplitTargets(c);
      if c.strategy.FillFirst? {
        return Some(healthy + drained);
      }
      if !c.strategy.RoundRobin? || |healthy| < 2 {
        return Some(healthy);
      }
      var served := if c.name in counters then counters[c.name] else 0;
      counters := counters[c.name := served + 1];
      var start := RR.StartIndex(served, |healthy|);
      RR.StartIndexUsable(served, |healthy|);
      if start < 0 {
        return None;
      }
      return Some(healthy[start..] + healthy[..start]);
    }

    method NewContext(c: Config, started: int) returns (ctx: Ctx)
      modifies `tick
      ensures (ctx, tick) == AttemptContext(c, env, started, old(tick))
    {
      if c.timeout <= 0 {
        return Parent;
      }
      var now := Now();
      var remaining := c.timeout - (now - started);
      if remaining <= 0 {
        return Cancelled;
      }
      now := Now();
      return Deadline(now + remaining);
    }

    /** One more piece on the wire, and on the client. */
    method Put(piece: Piece)
      requires Wired(env, site) && site.client.body == first + Render(site, wire) + Spelled(site, piece)
      modifies `wire
      ensures wire == old(wire) + [piece] && Shown()
    {
      RenderSnoc(site, wire, piece);
      Assoc(first, Render(site, wire), Spelled(site, piece));
      wire := wire + [piece];
    }

    /** The provider's part of a dispatch. */
    method Call(c: Config) returns (a: Attempt)
      requires Shown() && c.stream == site.stream
      modifies `wire, site.client
      ensures Shown() && a == env.upstream(|log|)
      ensures wire == old(wire) + if Touches(a) then [AttemptBytes(|log|)] else []
    {
      a := Serve(site, |log|);
      if Touches(a) {
        Put(AttemptBytes(|log|));
      }
    }

    /** The dispatch callback of runCombo: its error, and until when it parked the target. */
    method Dispatch(c: Config, ctx: Ctx, t: Target) returns (a: Attempt, parked: Option<int>)
      requires Shown() && c.stream == site.stream
      modifies `tick, `drains, `wire, `responseCommitted, site.client
      ensures Shown() && a == env.upstream(|log|) && parked == ParkedUntil(c, env, ctx, old(tick), a)
      ensures H() == CallbackHealth(c, env, ctx, t, old(H()), a)
      ensures T() == CallbackWire(c, env.gone(old(tick)).Some?, a, old(T()))
    {
      a := Call(c);
      parked := None;
      if a.CommittedFailure? {
        parked := Break(c, ctx, t, a);
      }
    }

    /** A failure the client has seen the beginning of: the request is answered, the target may be
        parked, and a stream ends with an error event. */
    method Break(c: Config, ctx: Ctx, t: Target, ghost a: Attempt) returns (parked: Option<int>)
      requires Shown() && a.CommittedFailure?
      modifies `tick, `drains, `wire, `responseCommitted, site.client
      ensures Shown() && responseCommitted && parked == ParkedUntil(c, env, ctx, old(tick), a)
      ensures H() == CallbackHealth(c, env, ctx, t, old(H()), a)
      ensures wire == old(wire) + if c.stream && env.gone(old(tick)).None? then [StreamError] else []
    {
      responseCommitted := true;
      var clientGone := env.gone(tick).Some?;
      parked := Park(c, ctx, t, a, clientGone);
      if c.stream && !clientGone {
        site.client.Write(site.errorEvent);
        Put(StreamError);
      } else {
        EmptyRight(wire);
      }
    }

    /** The callback after a failure the client has seen the beginning of: the target is parked
        unless the client left or the gateway's own deadline ended the attempt. */
    method Park(c: Config, ctx: Ctx, t: Target, ghost a: Attempt, clientGone: bool) returns (parked: Option<int>)
      requires a.CommittedFailure? && clientGone == env.gone(tick).Some?
      modifies `tick, `drains
      ensures parked == ParkedUntil(c, env, ctx, old(tick), a) && H() == CallbackHealth(c, env, ctx, t, old(H()), a)
    {
      var gatewayDeadline := CtxError(env, ctx, tick + 1).Some? && !clientGone;
      tick := tick + 2;
      parked := None;
      if c.tracked && !c.strategy.Priority? && !clientGone && !gatewayDeadline {
        parked := Some(env.now(tick) + DrainTTL(c));
        MarkDrained(t, DrainTTL(c));
      }
    }

    method DispatchOnce(c: Config, started: int, t: Target) returns (err: Option<Err>)
      requires Shown() && c.stream == site.stream
      modifies `tick, `drains, `wire, `responseCommitted, `log, site.client
      ensures Shown() && Step(err, H(), T()) == Combo.DispatchOnce(c, env, started, t, old(H()), old(T()))
    {
      var ctx := NewContext(c, started);
      var a, parked := Dispatch(c, ctx, t);
      var ended := CtxError(env, ctx, tick);
      tick := tick + 1;
      log := log + [Entry(t, a, parked, ended)];
      err := Joined(CallbackError(a), ended);
    }

    /** The error of a dispatch with that of its context. */
    method Joined(err: Option<Err>, ended: Option<CtxErr>) returns (joined: Option<Err>)
      ensures joined == WithContext(err, ended)
    {
      if ended.None? {
        return err;
      }
      if err.None? {
        return Some(FromCtx(ended.value));
      }
      return Some(Join(err.value, FromCtx(ended.value)));
    }

    method Attempt(c: Config, started: int, t: Target) returns (err: Option<Err>)
      requires Shown() && c.stream == site.stream
      modifies `tick, `drains, `wire, `responseCommitted, `log, site.client
      ensures Shown() && Step(err, H(), T()) == TryTarget(c, env, started, t, old(H()), old(T()))
    {
      err := DispatchOnce(c, started, t);
      var again := MayRetry(c, started, err);
      if again {
        err := DispatchOnce(c, started, t);
      }
    }

    /** Whether the same target is tried once more. */
    method MayRetry(c: Config, started: int, err: Option<Err>) returns (again: bool)
      modifies `tick
      ensures again == Retries(c, env, started, Step(err, old(H()), T()))
      ensures H() == if err.None? || !TransientGateway(err.value) || err.value.deadline || env.gone(old(tick)).Some?
                     then Tick(old(H())) else Tick(Tick(old(H())))
    {
      var gone := env.gone(tick).Some?;
      tick := tick + 1;
      if err.None? || !TransientGateway(err.value) || err.value.deadline || gone {
        return false;
      }
      var spent := OutOfTime(c, started);
      return !spent;
    }

    method RecordTransient(c: Config, t: Target) returns (count: nat)
      modifies `tick, `strikes
      ensures var key := StrikeKey(c, t);
              var kept := Record(StrikesOf(old(H()), key), env.now(old(tick)));
              count == |kept| && H() == Tick(old(H())).(strikes := old(strikes)[key := kept])
    {
      var key := StrikeKey(c, t);
      var now := Now();
      var slice := new StrikeLog.Of(if key in strikes then strikes[key] else []);
      slice.RecordOne(now);
      var kept := slice.at[..slice.len];
      strikes := strikes[key := kept];
      return |kept|;
    }

    method ShouldDrain(c: Config, t: Target, e: Err, siblings: nat) returns (drain: bool)
      modifies `tick, `strikes
      ensures (drain, H()) == Combo.ShouldDrain(c, env, old(H()), t, e, siblings)
    {
      if siblings == 0 {
        return false;
      }
      if ImmediateDrain(e) || e.stall {
        return true;
      }
      if e.status.None? || e.status.value < 500 || e.status.value >= 600 {
        return true;
      }
      var count := RecordTransient(c, t);
      return count >= TRANSIENT_STRIKES;
    }

    method CooldownFor(c: Config, t: Target, e: Err) returns (ttl: int)
      modifies `hits
      ensures (ttl, H()) == Combo.CooldownFor(c, old(H()), t, e)
    {
      if UpstreamRateLimit(e) {
        if e.retryAfter.Some? && e.retryAfter.value > 0 {
          return e.retryAfter.value;
        }
        var key := StrikeKey(c, t);
        var n := if key in hits then hits[key] else 0;
        hits := hits[key := n + 1];
        ttl := RateLimitCooldown(n);
        return;
      }
      if e.cooldown.Some? && e.cooldown.value > 0 {
        return e.cooldown.value;
      }
      return DrainTTL(c);
    }

    method Blame(c: Config, t: Target, e: Err, siblings: nat)
      modifies `tick, `drains, `strikes, `hits
      ensures H() == Combo.Blame(c, env, old(H()), t, e, siblings)
    {
      if TracksFailures(c) && Drainable(e) {
        var drain := ShouldDrain(c, t, e, siblings);
        if drain {
          var ttl := CooldownFor(c, t, e);
          MarkDrained(t, ttl);
        }
      }
    }

    /** A target that failed: the loop stops with the end of the client or of the budget, or the
        failure is counted and blamed on the target. */
    method AfterFailure(c: Config, started: int, order: seq<Target>, i: nat, acc: Tally, e: Err)
      returns (stop: Option<Result>, next: Tally)
      requires i < |order|
      modifies `tick, `drains, `strikes, `hits
      ensures Combo.AfterFailure(c, env, started, order, i, acc, e, old(H()), T())
           == if stop.Some? then End(Outcome(stop.value, H(), T())) else Next(next, H(), T())
    {
      var stopErr := StopsWith(c, env, started, tick, e);
      tick := tick + 2;
      next := Count(acc, e);
      if stopErr.Some? {
        return Some(Broke(stopErr.value)), next;
      }
      Blame(c, order[i], e, |order| - i - 1);
      stop := None;
    }

    /** One turn of the loop over the targets: the chain ends here with a result, or goes on
        with the next target and the failure counted. */
    method TryNext(c: Config, started: int, order: seq<Target>, i: nat, acc: Tally) returns (stop: Option<Result>, next: Tally)
      requires i < |order| && Shown() && c.stream == site.stream
      modifies this, site.client
      ensures Shown()
      ensures Advance(c, env, started, order, i, acc, old(H()), old(T()))
           == if stop.Some? then End(Outcome(stop.value, H(), T())) else Next(next, H(), T())
    {
      ghost var s := TryTarget(c, env, started, order[i], Tick(H()), T());
      var spent := OutOfTime(c, started);
      if spent {
        return Some(Broke(JoinLast(COMBO_TIMEOUT, acc.last))), acc;
      }
      var err := Attempt(c, started, order[i]);
      if err.None? {
        return Some(Served(order[i])), acc;
      }
      assert s == Step(err, H(), T());
      stop, next := AfterFailure(c, started, order, i, acc, err.value);
    }

    /** The loop over the ordered targets, and the verdict when all of them failed. */
    method TryAll(c: Config, started: int, order: seq<Target>) returns (r: Result)
      requires Shown() && c.stream == site.stream
      modifies this, site.client
      ensures Shown()
      ensures Outcome(r, H(), T()) == Chain(c, env, started, order, 0, Tally(0, 0, None), old(H()), old(T()))
    {
      var acc := Tally(0, 0, None);
      for i := 0 to |order|
        invariant Shown()
        invariant Chain(c, env, started, order, i, acc, H(), T())
               == Chain(c, env, started, order, 0, Tally(0, 0, None), old(H()), old(T()))
      {
        var stop;
        stop, acc := TryNext(c, started, order, i, acc);
        if stop.Some? {
          return stop.value;
        }
      }
      var spent := OutOfTime(c, started);
      return Exhausted(c, spent, acc);
    }

    /** Combo.Run. */
    method Run(c: Config) returns (r: Option<Result>)
      requires Shown() && c.stream == site.stream
      modifies this, site.client
      ensures Shown() && (r, H(), T()) == Combo.Run(c, env, old(H()), old(T()))
    {
      var order := OrderedTargets(c);
      if order.None? {
        return None;
      }
      var started := Now();
      var result := TryAll(c, started, order.value);
      return Some(result);
    }

    /** runCombo on the chat wire. */
    method RunCombo(c: Config) returns (r: Option<Result>)
      requires Shown() && c.stream == site.stream
      modifies this, site.client
      ensures Shown() && (r, H(), T()) == Combo.RunCombo(c, env, old(H()), old(T()))
    {
      responseCommitted := false;
      r := Run(c);
      if r.Some? && !r.value.Served? && !responseCommitted {
        site.client.Write(site.envelope);
        Put(Envelope);
      }
    }

    /** A whole request. Whatever the providers, the clock and the client do, the client gets the
        complete bytes of the last dispatch or no attempt bytes at all, and behind them at most
        one error event or envelope; an envelope alone when nobody was reached. */
    method ServeChat(c: Config) returns (r: Option<Result>)
      requires Shown() && Sane(env) && c.stream == site.stream
      modifies this, site.client
      ensures Shown() && (r, H(), T()) == Combo.RunCombo(c, env, old(H()), old(T()))
      ensures site.client.body
           == old(site.client.body) + (AnswerBytes(site, old(T()), T()) + ClosingBytes(site, old(T()), T()))
      ensures LastTouched(log, |old(log)|) ==>
                site.jobs(|log| - 1).Call? && AnswerBytes(site, old(T()), T()) == Attempts.BytesOf(site.jobs(|log| - 1).job)
      ensures r.Some? && !LastTouched(log, |old(log)|) ==> site.client.body == old(site.client.body) + site.envelope
    {
      ghost var h, before := H(), T();
      r := RunCombo(c);
      RunBytes(site, c, env, h, before, r, H(), T());
      Assoc(first, Render(site, before.wire), AnswerBytes(site, before, T()) + ClosingBytes(site, before, T()));
      Assoc(first, Render(site, before.wire), site.envelope);
    }
  }
}
