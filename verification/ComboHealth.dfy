/** The tracker over many runs: a combo that alone uses its tracker never runs out of targets. */
module ComboHealth {
  import opened Bytes
  import opened RoundRobin
  import opened Combo
  import opened ComboSafety

  ghost predicate DistinctKeys(ts: seq<Target>) {
    forall i, j :: 0 <= i < j < |ts| ==> Key(ts[i]) != Key(ts[j])
  }

  /** Time only heals: an entry that has expired stays expired. */
  lemma Heals(env: Env, early: Health, late: Health, t: Target)
    requires Sane(env) && early.tick <= late.tick && !IsDrained(env, early, t)
    requires Key(t) in late.drains ==> Key(t) in early.drains && late.drains[Key(t)] == early.drains[Key(t)]
    ensures !IsDrained(env, late, t)
  {
    assert env.now(early.tick) <= env.now(late.tick);
  }

  /** The healthy targets are among ts, none of them drained, and only drained ones are left out. */
  ghost predicate Sorts(env: Env, h: Health, ts: seq<Target>, p: Partition) {
    && p.health.tick >= h.tick && p.health.drains == h.drains
    && (forall t :: t in p.healthy ==> t in ts && !IsDrained(env, p.health, t))
    && DistinctKeys(p.healthy)
    && (forall t :: t in ts && !IsDrained(env, h, t) ==> t in p.healthy)
  }

  lemma {:induction false} SplitFacts(c: Config, env: Env, h: Health, ts: seq<Target>)
    requires Sane(env) && DistinctKeys(ts) && c.tracked
    ensures Sorts(env, h, ts, Split(c, env, h, ts))
    ensures var p := Split(c, env, h, ts); multiset(p.healthy + p.drained) == multiset(ts)
  {
    SplitKeepsAll(c, env, h, ts);
    if ts != [] {
      var init, t := ts[..|ts| - 1], ts[|ts| - 1];
      assert ts == init + [t];
      SplitFacts(c, env, h, init);
      OneSorted(env, h, init, t, Split(c, env, h, init), Split(c, env, h, ts));
    }
  }

  lemma OneSorted(env: Env, h: Health, init: seq<Target>, t: Target, p: Partition, q: Partition)
    requires Sane(env) && DistinctKeys(init + [t]) && Sorts(env, h, init, p)
    requires q.health == Tick(p.health)
    requires q.healthy == if IsDrained(env, p.health, t) then p.healthy else p.healthy + [t]
    ensures Sorts(env, h, init + [t], q)
  {
    forall u | !IsDrained(env, p.health, u)
      ensures !IsDrained(env, q.health, u)
    {
      Heals(env, p.health, q.health, u);
    }
    if !IsDrained(env, h, t) {
      Heals(env, h, p.health, t);
    }
    NewKey(init, t);
    forall u | u in q.healthy
      ensures u in init + [t] && !IsDrained(env, q.health, u)
    {
      assert u in p.healthy || u == t;
    }
    if !IsDrained(env, p.health, t) {
      AddKey(p.healthy, t);
    }
  }

  lemma NewKey(init: seq<Target>, t: Target)
    requires DistinctKeys(init + [t])
    ensures forall u :: u in init ==> Key(u) != Key(t)
  {
    forall u | u in init
      ensures Key(u) != Key(t)
    {
      var i :| 0 <= i < |init| && init[i] == u;
      assert (init + [t])[i] == u && (init + [t])[|init|] == t;
    }
  }

  lemma AddKey(ts: seq<Target>, t: Target)
    requires DistinctKeys(ts) && forall u :: u in ts ==> Key(u) != Key(t)
    ensures DistinctKeys(ts + [t])
  {
    assert forall i :: 0 <= i < |ts| ==> ts[i] in ts;
  }

  /** No target is lost or doubled. */
  lemma {:induction false} SplitKeepsAll(c: Config, env: Env, h: Health, ts: seq<Target>)
    ensures var p := Split(c, env, h, ts); multiset(p.healthy + p.drained) == multiset(ts)
  {
    if ts != [] {
      var init, t := ts[..|ts| - 1], ts[|ts| - 1];
      assert ts == init + [t];
      SplitKeepsAll(c, env, h, init);
      SplitMultiset(Split(c, env, h, init), Split(c, env, h, ts), t);
    }
  }

  lemma SplitMultiset(p: Partition, q: Partition, t: Target)
    requires (q.healthy == p.healthy + [t] && q.drained == p.drained) || (q.healthy == p.healthy && q.drained == p.drained + [t])
    ensures multiset(q.healthy + q.drained) == multiset(p.healthy + p.drained + [t])
  {
  }

  lemma RotateKeepsKeys(ts: seq<Target>, start: nat)
    requires start <= |ts| && DistinctKeys(ts)
    ensures DistinctKeys(Rotate(ts, start))
  {
    var r := Rotate(ts, start);
    forall i, j | 0 <= i < j < |r| ensures Key(r[i]) != Key(r[j]) {
      var a := if i < |ts| - start then start + i else i - (|ts| - start);
      var b := if j < |ts| - start then start + j else j - (|ts| - start);
      assert r[i] == ts[a] && r[j] == ts[b] && a != b;
    }
  }

  lemma RotateKeepsMembers(ts: seq<Target>, start: nat)
    requires start <= |ts|
    ensures forall t :: t in Rotate(ts, start) <==> t in ts
  {
    assert ts == ts[..start] + ts[start..];
  }

  /** Strategies that skip drained targets and forget them otherwise. */
  predicate SkipsDrained(c: Config) { c.strategy.Reliable? || c.strategy.RoundRobin? }

  /** The order of a run holds exactly the targets found healthy, so it is empty only when
      every single target was drained. */
  lemma OrderedFacts(c: Config, env: Env, h: Health)
    requires Sane(env) && DistinctKeys(c.targets) && c.tracked && SkipsDrained(c)
    ensures var (order, h1) := Ordered(c, env, h);
            && h1.drains == h.drains && h1.tick >= h.tick
            && (order.Some? ==>
                  && DistinctKeys(order.value)
                  && (forall t :: t in order.value ==> t in c.targets && !IsDrained(env, h1, t))
                  && (forall t :: t in c.targets && !IsDrained(env, h, t) ==> t in order.value))
  {
    var p := Split(c, env, h, c.targets);
    SplitFacts(c, env, h, c.targets);
    var (order, h1) := Ordered(c, env, h);
    assert forall t :: IsDrained(env, p.health, t) == IsDrained(env, h1, t);
    if order.Some? && order.value != p.healthy {
      var start := StartIndex(Counter(p.health, c.name), |p.healthy|);
      StartIndexUsable(Counter(p.health, c.name), |p.healthy|);
      RotateKeepsKeys(p.healthy, start);
      RotateKeepsMembers(p.healthy, start);
    }
  }

  /** What a run may do to the tracker entry of a target t: nothing, unless its last dispatch was
      of t and the callback parked it. */
  predicate EntryOf(t: Target, before: Trace, h: Health, after: Trace, h1: Health) {
    DrainOf(h1, t) == OrElse(ParkedLast(t, before, after), DrainOf(h, t))
  }

  function DrainOf(h: Health, t: Target): Option<int> {
    if Key(t) in h.drains then Some(h.drains[Key(t)]) else None
  }

  /** Until when the last dispatch after before parked target t. */
  function ParkedLast(t: Target, before: Trace, after: Trace): Option<int> {
    if |after.log| > |before.log| && after.log[|after.log| - 1].target == t then after.log[|after.log| - 1].parked
    else None
  }

  /** One dispatch drains its target when the callback parks it, and nothing else. */
  lemma DispatchDrains(c: Config, env: Env, started: int, t: Target, h: Health, trace: Trace)
    ensures var s := DispatchOnce(c, env, started, t, h, trace);
            var parked := s.trace.log[|s.trace.log| - 1].parked;
            && s.health.drains == (if parked.Some? then h.drains[Key(t) := parked.value] else h.drains)
            && (parked.Some? ==> s.trace.log[|s.trace.log| - 1].attempt.CommittedFailure?)
  {
  }

  lemma TryDrains(c: Config, env: Env, started: int, t: Target, h: Health, trace: Trace)
    requires Sane(env)
    ensures var s := TryTarget(c, env, started, t, h, trace);
            && |s.trace.log| > |trace.log| && s.trace.log[|s.trace.log| - 1].target == t
            && var parked := s.trace.log[|s.trace.log| - 1].parked;
               && s.health.drains == (if parked.Some? then h.drains[Key(t) := parked.value] else h.drains)
               && (parked.Some? ==> LastTouched(s.trace.log, |trace.log|))
  {
    var s := DispatchOnce(c, env, started, t, h, trace);
    DispatchDrains(c, env, started, t, h, trace);
    TryUnfold(c, env, started, t, h, trace);
    OneTarget(c, env, started, t, h, trace);
    if Retries(c, env, started, s) {
      RetryMeansUntouched(c, env, started, t, h, trace);
      DispatchDrains(c, env, started, t, Tick(Tick(s.health)), s.trace);
    }
  }

  predicate Extends(before: Trace, after: Trace) {
    |before.log| <= |after.log| && before.log == after.log[..|before.log|]
  }

  predicate BlamesOnly(drains: map<string, int>, after: map<string, int>, order: seq<Target>, i: nat)
    requires i < |order|
  {
    || after == drains
    || (i + 1 < |order| && after.Keys == drains.Keys + {Key(order[i])}
        && forall k :: k in drains && k != Key(order[i]) ==> after[k] == drains[k])
  }

  /** One target of the chain, on the tracker's side: what the target left, and what Blame adds.
      Blame only drains a target that has siblings behind it, and a parked target is the last. */
  lemma DrainRound(c: Config, env: Env, started: int, order: seq<Target>, i: nat, acc: Tally, h: Health, trace: Trace)
    returns (s: Step)
    requires Sane(env) && i < |order| && !Spent(c, env, started, h.tick)
    ensures Extends(trace, s.trace) && |s.trace.log| > |trace.log| && s.trace.log[|s.trace.log| - 1].target == order[i]
    ensures var parked := s.trace.log[|s.trace.log| - 1].parked;
            && s.health.drains == (if parked.Some? then h.drains[Key(order[i]) := parked.value] else h.drains)
            && match Advance(c, env, started, order, i, acc, h, trace)
               case End(o) => o.trace == s.trace && o.health.drains == s.health.drains
               case Next(_, h1, trace1) =>
                 && trace1 == s.trace && BlamesOnly(s.health.drains, h1.drains, order, i)
                 && (parked.Some? ==> Spent(c, env, started, h1.tick))
  {
    s := TryTarget(c, env, started, order[i], Tick(h), trace);
    TryDrains(c, env, started, order[i], Tick(h), trace);
    OneTarget(c, env, started, order[i], Tick(h), trace);
    if s.err.Some? && StopsWith(c, env, started, s.health.tick, s.err.value).None? {
      var h1 := Blame(c, env, Tick(Tick(s.health)), order[i], s.err.value, |order| - i - 1);
      OverStays(c, env, started, s.health.tick, h1.tick);
    }
  }

  /** A chain that went on from before leaves the entry of t alone, but for parking it last. */
  predicate Spares(t: Target, before: Trace, h: Health, o: Outcome) {
    Extends(before, o.trace) && EntryOf(t, before, h, o.trace, o.health)
  }

  /** What one target leaves of the last one's entry, Blame included. */
  lemma SparesLast(order: seq<Target>, i: nat, trace: Trace, h: Health, s: Step, drains: map<string, int>, t: Trace, h1: Health)
    requires i < |order| && DistinctKeys(order)
    requires |s.trace.log| > |trace.log| && s.trace.log[|s.trace.log| - 1].target == order[i] && t == s.trace
    requires var parked := s.trace.log[|s.trace.log| - 1].parked;
             drains == if parked.Some? then h.drains[Key(order[i]) := parked.value] else h.drains
    requires BlamesOnly(drains, h1.drains, order, i)
    ensures EntryOf(order[|order| - 1], trace, h, t, h1)
  {
    if i < |order| - 1 {
      assert Key(order[i]) != Key(order[|order| - 1]);
    }
  }

  /** A target that parked nothing, and then the rest of the chain. */
  lemma RestOfChain(last: Target, trace: Trace, h: Health, mid: Trace, h1: Health, o: Outcome)
    requires EntryOf(last, trace, h, mid, h1) && Spares(last, mid, h1, o)
    requires |mid.log| > |trace.log| && mid.log[|mid.log| - 1].parked.None? && Extends(trace, mid)
    ensures Spares(last, trace, h, o)
  {
    if |o.trace.log| == |mid.log| {
      assert o.trace.log == mid.log;
    }
  }

  ghost function Sparing(c: Config, env: Env, started: int, last: Target): Relation {
    (i, acc, h, trace, o) => QuietWhenSpent(c, env, started, h, trace, o) && Spares(last, trace, h, o)
  }

  lemma RoundSpares(c: Config, env: Env, started: int, order: seq<Target>, i: nat, acc: Tally, h: Health, trace: Trace)
    requires Sane(env) && i <= |order| && order != [] && DistinctKeys(order)
    ensures RoundOk(c, env, started, order, Sparing(c, env, started, order[|order| - 1]), i, acc, h, trace)
  {
    if i < |order| && !Spent(c, env, started, h.tick) {
      var s := DrainRound(c, env, started, order, i, acc, h, trace);
      LinkSpares(c, env, started, order, i, h, trace, s, Advance(c, env, started, order, i, acc, h, trace));
    }
  }

  /** What a round leaves of the last target's entry, whatever comes after it. */
  lemma LinkSpares(c: Config, env: Env, started: int, order: seq<Target>, i: nat, h: Health, trace: Trace, s: Step, link: Link)
    requires i < |order| && DistinctKeys(order)
    requires Extends(trace, s.trace) && |s.trace.log| > |trace.log| && s.trace.log[|s.trace.log| - 1].target == order[i]
    requires var parked := s.trace.log[|s.trace.log| - 1].parked;
             && s.health.drains == (if parked.Some? then h.drains[Key(order[i]) := parked.value] else h.drains)
             && match link
                case End(o) => o.trace == s.trace && o.health.drains == s.health.drains
                case Next(_, h1, mid) =>
                  && mid == s.trace && BlamesOnly(s.health.drains, h1.drains, order, i)
                  && (parked.Some? ==> Spent(c, env, started, h1.tick))
    ensures var last := order[|order| - 1];
            match link
            case End(o) => Spares(last, trace, h, o)
            case Next(_, h1, mid) =>
              forall o :: QuietWhenSpent(c, env, started, h1, mid, o) && Spares(last, mid, h1, o) ==> Spares(last, trace, h, o)
  {
    match link
    case End(o) => SparesLast(order, i, trace, h, s, s.health.drains, o.trace, o.health);
    case Next(_, h1, mid) =>
      SparesLast(order, i, trace, h, s, s.health.drains, mid, h1);
      SparesRest(c, env, started, order[|order| - 1], trace, h, mid, h1);
  }

  lemma SparesRest(c: Config, env: Env, started: int, last: Target, trace: Trace, h: Health, mid: Trace, h1: Health)
    requires EntryOf(last, trace, h, mid, h1) && Extends(trace, mid) && |mid.log| > |trace.log|
    requires mid.log[|mid.log| - 1].parked.Some? ==> Spent(c, env, started, h1.tick)
    ensures forall o :: QuietWhenSpent(c, env, started, h1, mid, o) && Spares(last, mid, h1, o) ==> Spares(last, trace, h, o)
  {
    forall o | QuietWhenSpent(c, env, started, h1, mid, o) && Spares(last, mid, h1, o)
      ensures Spares(last, trace, h, o)
    {
      if mid.log[|mid.log| - 1].parked.None? {
        RestOfChain(last, trace, h, mid, h1, o);
      }
    }
  }

  /** A chain never touches the tracker entry of its last target, unless its own last dispatch is
      of that target and parks it. */
  lemma ChainSparesLast(c: Config, env: Env, started: int, order: seq<Target>, i: nat, acc: Tally, h: Health, trace: Trace)
    requires Sane(env) && i <= |order| && order != [] && DistinctKeys(order)
    ensures Spares(order[|order| - 1], trace, h, Chain(c, env, started, order, i, acc, h, trace))
  {
    var rel := Sparing(c, env, started, order[|order| - 1]);
    forall j: nat, acc1, h1, trace1 | j <= |order|
      ensures RoundOk(c, env, started, order, rel, j, acc1, h1, trace1)
    {
      RoundSpares(c, env, started, order, j, acc1, h1, trace1);
    }
    ChainInduction(c, env, started, order, rel, i, acc, h, trace);
  }

  ghost predicate SomeHealthy(c: Config, env: Env, h: Health) {
    exists t :: t in c.targets && !IsDrained(env, h, t)
  }

  /** The target a run tries last, if it gets that far. */
  function LastInOrder(c: Config, env: Env, h: Health): Option<Target> {
    var order := Ordered(c, env, h).0;
    if order.Some? && order.value != [] then Some(order.value[|order.value| - 1]) else None
  }

  /** How a run can drain every target: its last dispatch was of the last target of its order and
      failed after the client was reached; the callback parked it, and the time has not run out;
      and every other target of the combo is drained as well. */
  ghost predicate Empties(c: Config, env: Env, h: Health, trace: Trace) {
    var last := LastInOrder(c, env, h);
    var (_, h1, after) := Run(c, env, h, trace);
    && last.Some?
    && (var parked := ParkedLast(last.value, trace, after);
        parked.Some? && env.now(h1.tick) < parked.value)
    && (forall t :: t in c.targets && t != last.value ==> IsDrained(env, h1, t))
  }

  /** "No healthy targets" comes back exactly when the order is empty. */
  lemma NoHealthyMeansEmptyOrder(c: Config, env: Env, h: Health, trace: Trace)
    ensures Run(c, env, h, trace).0 == Some(NoHealthyTargets) <==> Ordered(c, env, h).0 == Some([])
  {
    var (order, h0) := Ordered(c, env, h);
    if order.Some? && order.value != [] {
      ChainFinds(c, env, env.now(h0.tick), order.value, Tick(h0), trace);
    }
  }

  ghost function Finding(): Relation {
    (i: nat, acc: Tally, h, trace, o: Outcome) => (acc.failures == 0 ==> i == 0) ==> !o.result.NoHealthyTargets?
  }

  lemma ChainFinds(c: Config, env: Env, started: int, order: seq<Target>, h: Health, trace: Trace)
    requires order != []
    ensures !Chain(c, env, started, order, 0, Tally(0, 0, None), h, trace).result.NoHealthyTargets?
  {
    forall j: nat, acc1: Tally, h1: Health, trace1: Trace | j <= |order|
      ensures RoundOk(c, env, started, order, Finding(), j, acc1, h1, trace1)
    {
    }
    ChainInduction(c, env, started, order, Finding(), 0, Tally(0, 0, None), h, trace);
  }

  lemma LastIsHealthy(c: Config, env: Env, h: Health) returns (last: Target, order: seq<Target>, h0: Health)
    requires Sane(env) && DistinctKeys(c.targets) && c.tracked && SkipsDrained(c) && SomeHealthy(c, env, h)
    requires Ordered(c, env, h).0.Some?
    ensures LastInOrder(c, env, h) == Some(last) && last in c.targets && Ordered(c, env, h) == (Some(order), h0)
    ensures order != [] && last == order[|order| - 1] && DistinctKeys(order) && !IsDrained(env, h0, last)
  {
    order, h0 := Ordered(c, env, h).0.value, Ordered(c, env, h).1;
    OrderedFacts(c, env, h);
    assert order != [];
    last := order[|order| - 1];
    assert last in order;
  }

  /** A run, as far as the last target of its order goes. */
  lemma RunSparesLast(c: Config, env: Env, h: Health, trace: Trace) returns (last: Target)
    requires Sane(env) && DistinctKeys(c.targets) && c.tracked && SkipsDrained(c) && SomeHealthy(c, env, h)
    requires Ordered(c, env, h).0.Some?
    ensures LastInOrder(c, env, h) == Some(last) && last in c.targets
    ensures var (_, h1, after) := Run(c, env, h, trace);
            var parked := ParkedLast(last, trace, after);
            IsDrained(env, h1, last) <==> parked.Some? && env.now(h1.tick) < parked.value
  {
    var order, h0;
    last, order, h0 := LastIsHealthy(c, env, h);
    var o := RunFromLast(c, env, h, trace, order, h0);
    LastDrained(env, last, trace, h0, o);
  }

  lemma RunFromLast(c: Config, env: Env, h: Health, trace: Trace, order: seq<Target>, h0: Health) returns (o: Outcome)
    requires Sane(env) && Ordered(c, env, h) == (Some(order), h0) && order != [] && DistinctKeys(order)
    ensures Run(c, env, h, trace) == (Some(o.result), o.health, o.trace)
    ensures Spares(order[|order| - 1], trace, Tick(h0), o) && h0.tick <= o.health.tick
  {
    o := ChainFromStart(c, env, env.now(h0.tick), order, Tick(h0), trace);
    RunIs(c, env, h, trace, order, h0, o);
  }

  lemma RunIs(c: Config, env: Env, h: Health, trace: Trace, order: seq<Target>, h0: Health, o: Outcome)
    requires Ordered(c, env, h) == (Some(order), h0)
    requires o == Chain(c, env, env.now(h0.tick), order, 0, Tally(0, 0, None), Tick(h0), trace)
    ensures Run(c, env, h, trace) == (Some(o.result), o.health, o.trace)
  {
  }

  lemma ChainFromStart(c: Config, env: Env, started: int, order: seq<Target>, h: Health, trace: Trace) returns (o: Outcome)
    requires Sane(env) && order != [] && DistinctKeys(order)
    ensures o == Chain(c, env, started, order, 0, Tally(0, 0, None), h, trace)
    ensures Spares(order[|order| - 1], trace, h, o) && h.tick <= o.health.tick
  {
    o := Chain(c, env, started, order, 0, Tally(0, 0, None), h, trace);
    ChainSparesLast(c, env, started, order, 0, Tally(0, 0, None), h, trace);
  }

  /** One run on a tracker with a healthy target: it finds one, and it leaves none exactly when
      the last target of its order ended in a committed failure that parked it, and all others
      are drained. */
  lemma RunKeepsOneHealthy(c: Config, env: Env, h: Health, trace: Trace)
    requires Sane(env) && DistinctKeys(c.targets) && c.tracked && SkipsDrained(c) && SomeHealthy(c, env, h)
    ensures var (r, h1, _) := Run(c, env, h, trace);
            && r != Some(NoHealthyTargets)
            && (r.Some? ==> (!SomeHealthy(c, env, h1) <==> Empties(c, env, h, trace)))
  {
    NoHealthyMeansEmptyOrder(c, env, h, trace);
    if Ordered(c, env, h).0.Some? {
      var last := RunSparesLast(c, env, h, trace);
    }
  }

  /** When the last target is drained after a run that began with it healthy. */
  lemma LastDrained(env: Env, last: Target, trace: Trace, h0: Health, o: Outcome)
    requires Sane(env) && h0.tick <= o.health.tick && !IsDrained(env, h0, last) && Spares(last, trace, Tick(h0), o)
    ensures var parked := ParkedLast(last, trace, o.trace);
            IsDrained(env, o.health, last) <==> parked.Some? && env.now(o.health.tick) < parked.value
  {
    if ParkedLast(last, trace, o.trace).None? {
      Heals(env, h0, o.health, last);
    }
  }

  /** The result of each of n runs, one after the other, and the state they leave. */
  function Runs(c: Config, env: Env, h: Health, trace: Trace, n: nat): (seq<Option<Result>>, Health, Trace) {
    if n == 0 then ([], h, trace)
    else
      var (rs, h1, trace1) := Runs(c, env, h, trace, n - 1);
      var (r, h2, trace2) := RunCombo(c, env, h1, trace1);
      (rs + [r], h2, trace2)
  }

  /** The envelope changes neither the verdict nor the tracker. */
  lemma EnvelopeIsOnTop(c: Config, env: Env, h: Health, trace: Trace)
    ensures RunCombo(c, env, h, trace).0 == Run(c, env, h, trace.(responseCommitted := false)).0
    ensures RunCombo(c, env, h, trace).1 == Run(c, env, h, trace.(responseCommitted := false)).1
  {
  }

  /** The state before run number n. */
  function StateOf(c: Config, env: Env, h: Health, trace: Trace, n: nat): (Health, Trace) {
    var (_, h1, trace1) := Runs(c, env, h, trace, n);
    (h1, trace1.(responseCommitted := false))
  }

  /** Whether run number m empties the combo, and whether a target is healthy before it. */
  ghost predicate EmptiesAt(c: Config, env: Env, h: Health, trace: Trace, m: nat) {
    var (h1, trace1) := StateOf(c, env, h, trace, m);
    Empties(c, env, h1, trace1)
  }

  ghost predicate HealthyAt(c: Config, env: Env, h: Health, trace: Trace, m: nat) {
    SomeHealthy(c, env, StateOf(c, env, h, trace, m).0)
  }

  /** None of the first n runs empties the combo. */
  ghost predicate NoneEmpties(c: Config, env: Env, h: Health, trace: Trace, n: nat) {
    forall m: nat :: m < n ==> !EmptiesAt(c, env, h, trace, m)
  }

  ghost predicate AlwaysHealthy(c: Config, env: Env, h: Health, trace: Trace, n: nat) {
    forall m: nat :: m <= n ==> HealthyAt(c, env, h, trace, m)
  }

  /** The rotation counter is far enough from overflowing; only round-robin has one. */
  predicate CounterLasts(c: Config, h: Health, n: nat) { c.strategy.RoundRobin? ==> Counter(h, c.name) + n < INT64 }

  /** The verdict of run number m. */
  function ResultAt(c: Config, env: Env, h: Health, trace: Trace, m: nat): Option<Result> {
    var (h1, trace1) := StateOf(c, env, h, trace, m);
    Run(c, env, h1, trace1).0
  }

  lemma OneMoreRun(c: Config, env: Env, h: Health, trace: Trace, n: nat)
    requires Sane(env) && DistinctKeys(c.targets) && c.tracked && SkipsDrained(c)
    requires HealthyAt(c, env, h, trace, n) && CounterLasts(c, StateOf(c, env, h, trace, n).0, 1)
    ensures ResultAt(c, env, h, trace, n).Some? && ResultAt(c, env, h, trace, n) != Some(NoHealthyTargets)
    ensures HealthyAt(c, env, h, trace, n + 1) <==> !EmptiesAt(c, env, h, trace, n)
  {
    var (h1, trace1) := StateOf(c, env, h, trace, n);
    EnvelopeIsOnTop(c, env, h1, Runs(c, env, h, trace, n).2);
    RunKeepsOneHealthy(c, env, h1, trace1);
    RunCounts(c, env, h1, trace1);
  }

  lemma StateStep(c: Config, env: Env, h: Health, trace: Trace, n: nat)
    ensures var (h1, trace1) := StateOf(c, env, h, trace, n);
            StateOf(c, env, h, trace, n + 1).0 == Run(c, env, h1, trace1).1
  {
    EnvelopeIsOnTop(c, env, Runs(c, env, h, trace, n).1, Runs(c, env, h, trace, n).2);
  }

  lemma CounterStep(c: Config, env: Env, h: Health, trace: Trace, n: nat)
    requires CounterLasts(c, StateOf(c, env, h, trace, n).0, 1)
    ensures Counter(StateOf(c, env, h, trace, n + 1).0, c.name) <= Counter(StateOf(c, env, h, trace, n).0, c.name) + 1
  {
    var (h1, trace1) := StateOf(c, env, h, trace, n);
    StateStep(c, env, h, trace, n);
    RunCounts(c, env, h1, trace1);
  }

  lemma {:induction false} CountersLast(c: Config, env: Env, h: Health, trace: Trace, n: nat)
    requires CounterLasts(c, h, n)
    ensures c.strategy.RoundRobin? ==> Counter(StateOf(c, env, h, trace, n).0, c.name) <= Counter(h, c.name) + n
  {
    if n > 0 {
      var m := n - 1;
      CountersLast(c, env, h, trace, m);
      CounterStep(c, env, h, trace, m);
      assert m + 1 == n;
    }
  }

  lemma RunsStep(c: Config, env: Env, h: Health, trace: Trace, n: nat)
    ensures Runs(c, env, h, trace, n + 1).0 == Runs(c, env, h, trace, n).0 + [ResultAt(c, env, h, trace, n)]
  {
    EnvelopeIsOnTop(c, env, Runs(c, env, h, trace, n).1, Runs(c, env, h, trace, n).2);
  }

  lemma RunsAt(c: Config, env: Env, h: Health, trace: Trace, n: nat, k: nat)
    requires k < n
    ensures |Runs(c, env, h, trace, n).0| == n && Runs(c, env, h, trace, n).0[k] == ResultAt(c, env, h, trace, k)
  {
    var results := (m: nat) => Runs(c, env, h, trace, m).0;
    var result := (m: nat) => ResultAt(c, env, h, trace, m);
    forall m: nat | m < n
      ensures results(m + 1) == results(m) + [result(m)]
    {
      RunsStep(c, env, h, trace, m);
    }
    assert results(0) == [];
    OneByOne(results, result, n, k);
    assert results(n)[k] == result(k);
  }

  lemma {:induction false} OneByOne<T>(items: nat -> seq<T>, item: nat -> T, n: nat, k: nat)
    requires k < n && items(0) == [] && forall m: nat :: m < n ==> items(m + 1) == items(m) + [item(m)]
    ensures |items(n)| == n && items(n)[k] == item(k)
  {
    assert items(n - 1 + 1) == items(n - 1) + [item(n - 1)];
    if n > 1 {
      OneByOne(items, item, n - 1, if k < n - 1 then k else 0);
    }
  }

  /** A state that only one kind of step can spoil. */
  lemma {:induction false} UntilSpoiled(good: nat -> bool, spoils: nat -> bool, n: nat)
    requires good(0) && forall m: nat :: m < n && good(m) ==> (good(m + 1) <==> !spoils(m))
    ensures (forall m: nat :: m < n ==> !spoils(m)) <==> (forall m: nat :: m <= n ==> good(m))
  {
    if n > 0 {
      UntilSpoiled(good, spoils, n - 1);
      if good(n - 1) {
        assert good(n - 1 + 1) <==> !spoils(n - 1);
      }
    }
  }

  /** Over any number of sequential runs that start with some target undrained: a target is
      healthy all the way exactly when no run empties the combo, and as long as that is so
      "no healthy targets" never comes back. */
  lemma NeverNoHealthyTargets(c: Config, env: Env, h: Health, trace: Trace, n: nat)
    requires Sane(env) && DistinctKeys(c.targets) && c.tracked && SkipsDrained(c) && SomeHealthy(c, env, h)
    requires CounterLasts(c, h, n)
    ensures NoneEmpties(c, env, h, trace, n) <==> AlwaysHealthy(c, env, h, trace, n)
    ensures |Runs(c, env, h, trace, n).0| == n
    ensures forall m: nat :: m < n ==> Runs(c, env, h, trace, n).0[m] == ResultAt(c, env, h, trace, m)
    ensures NoneEmpties(c, env, h, trace, n) ==>
              forall m: nat :: m < n ==>
                ResultAt(c, env, h, trace, m).Some? && ResultAt(c, env, h, trace, m) != Some(NoHealthyTargets)
  {
    forall m: nat | m < n
      ensures |Runs(c, env, h, trace, n).0| == n && Runs(c, env, h, trace, n).0[m] == ResultAt(c, env, h, trace, m)
    {
      RunsAt(c, env, h, trace, n, m);
    }
    forall m: nat | m < n && HealthyAt(c, env, h, trace, m)
      ensures HealthyAt(c, env, h, trace, m + 1) <==> !EmptiesAt(c, env, h, trace, m)
      ensures ResultAt(c, env, h, trace, m).Some? && ResultAt(c, env, h, trace, m) != Some(NoHealthyTargets)
    {
      CountersLast(c, env, h, trace, m);
      OneMoreRun(c, env, h, trace, m);
    }
    HealthyUntilEmptied(c, env, h, trace, n);
  }

  lemma HealthyUntilEmptied(c: Config, env: Env, h: Health, trace: Trace, n: nat)
    requires HealthyAt(c, env, h, trace, 0)
    requires forall m: nat :: m < n && HealthyAt(c, env, h, trace, m) ==>
               (HealthyAt(c, env, h, trace, m + 1) <==> !EmptiesAt(c, env, h, trace, m))
    ensures NoneEmpties(c, env, h, trace, n) <==> AlwaysHealthy(c, env, h, trace, n)
  {
    var good := (m: nat) => HealthyAt(c, env, h, trace, m);
    var spoils := (m: nat) => EmptiesAt(c, env, h, trace, m);
    assert forall m: nat :: good(m) == HealthyAt(c, env, h, trace, m);
    assert forall m: nat :: spoils(m) == EmptiesAt(c, env, h, trace, m);
    UntilSpoiled(good, spoils, n);
  }

  /** A run bumps the rotation counter at most once, and only an overflown counter panics. */
  lemma RunCounts(c: Config, env: Env, h: Health, trace: Trace)
    requires CounterLasts(c, h, 1)
    ensures var (r, h1, _) := Run(c, env, h, trace);
            r.Some? && Counter(h1, c.name) <= Counter(h, c.name) + 1
  {
    var p := Split(c, env, h, c.targets);
    if |p.healthy| > 0 && c.strategy.RoundRobin? {
      StartIndexUsable(Counter(p.health, c.name), |p.healthy|);
    }
    var (order, h1) := Ordered(c, env, h);
    if order.Some? {
      ChainKeepsCounters(c, env, env.now(h1.tick), order.value, 0, Tally(0, 0, None), Tick(h1), trace);
    }
  }

  ghost function Counting(): Relation { (i, acc, h: Health, trace, o: Outcome) => o.health.counters == h.counters }

  lemma ChainKeepsCounters(c: Config, env: Env, started: int, order: seq<Target>, i: nat, acc: Tally, h: Health, trace: Trace)
    requires i <= |order|
    ensures Chain(c, env, started, order, i, acc, h, trace).health.counters == h.counters
  {
    forall j: nat, acc1: Tally, h1: Health, trace1: Trace | j <= |order|
      ensures RoundOk(c, env, started, order, Counting(), j, acc1, h1, trace1)
    {
      if j < |order| {
        TryKeepsCounters(c, env, started, order[j], Tick(h1), trace1);
      }
    }
    ChainInduction(c, env, started, order, Counting(), i, acc, h, trace);
  }

  lemma TryKeepsCounters(c: Config, env: Env, started: int, t: Target, h: Health, trace: Trace)
    ensures TryTarget(c, env, started, t, h, trace).health.counters == h.counters
  {
    var s := DispatchOnce(c, env, started, t, h, trace);
    assert s.health.counters == h.counters;
    assert DispatchOnce(c, env, started, t, Tick(Tick(s.health)), s.trace).health.counters == h.counters;
  }

  // ---------------------------------------------------------------- what decides it

  /** No upstream ever fails after the client was reached, so the callback has nothing to mark. */
  ghost predicate CallbackMarksNothing(env: Env) { forall k: nat :: !env.upstream(k).CommittedFailure? }

  /** No dispatch in between parked its target. */
  predicate NoParks(before: Trace, after: Trace) {
    Extends(before, after) && forall k :: |before.log| <= k < |after.log| ==> after.log[k].parked.None?
  }

  lemma NoParksTwice(before: Trace, mid: Trace, after: Trace)
    requires NoParks(before, mid) && NoParks(mid, after)
    ensures NoParks(before, after)
  {
    assert forall k :: 0 <= k < |mid.log| ==> after.log[k] == mid.log[k];
  }

  lemma DispatchParksNothing(c: Config, env: Env, started: int, t: Target, h: Health, trace: Trace)
    requires CallbackMarksNothing(env)
    ensures NoParks(trace, DispatchOnce(c, env, started, t, h, trace).trace)
  {
    assert !env.upstream(|trace.log|).CommittedFailure?;
  }

  lemma TryParksNothing(c: Config, env: Env, started: int, t: Target, h: Health, trace: Trace)
    requires CallbackMarksNothing(env)
    ensures NoParks(trace, TryTarget(c, env, started, t, h, trace).trace)
  {
    var s := DispatchOnce(c, env, started, t, h, trace);
    DispatchParksNothing(c, env, started, t, h, trace);
    TryUnfold(c, env, started, t, h, trace);
    if Retries(c, env, started, s) {
      DispatchParksNothing(c, env, started, t, Tick(Tick(s.health)), s.trace);
      NoParksTwice(trace, s.trace, DispatchOnce(c, env, started, t, Tick(Tick(s.health)), s.trace).trace);
    }
  }

  ghost function ParkingNothing(): Relation { (i, acc, h, trace, o: Outcome) => NoParks(trace, o.trace) }

  lemma RoundParksNothing(c: Config, env: Env, started: int, order: seq<Target>, i: nat, acc: Tally, h: Health, trace: Trace)
    requires CallbackMarksNothing(env) && i <= |order|
    ensures RoundOk(c, env, started, order, ParkingNothing(), i, acc, h, trace)
  {
    if i < |order| && !Spent(c, env, started, h.tick) {
      var s := TryTarget(c, env, started, order[i], Tick(h), trace);
      TryParksNothing(c, env, started, order[i], Tick(h), trace);
      forall o: Outcome | NoParks(s.trace, o.trace)
        ensures NoParks(trace, o.trace)
      {
        NoParksTwice(trace, s.trace, o.trace);
      }
    }
  }

  lemma RunParksNothing(c: Config, env: Env, h: Health, trace: Trace)
    requires CallbackMarksNothing(env)
    ensures NoParks(trace, Run(c, env, h, trace).2)
  {
    var (order, h1) := Ordered(c, env, h);
    if order.Some? {
      var started := env.now(h1.tick);
      forall j: nat, acc1, h2, trace1 | j <= |order.value|
        ensures RoundOk(c, env, started, order.value, ParkingNothing(), j, acc1, h2, trace1)
      {
        RoundParksNothing(c, env, started, order.value, j, acc1, h2, trace1);
      }
      ChainInduction(c, env, started, order.value, ParkingNothing(), 0, Tally(0, 0, None), Tick(h1), trace);
    }
  }

  lemma MarkingNothingNeverEmpties(c: Config, env: Env, h: Health, trace: Trace, m: nat)
    requires CallbackMarksNothing(env)
    ensures !EmptiesAt(c, env, h, trace, m)
  {
    var (h1, trace1) := StateOf(c, env, h, trace, m);
    RunParksNothing(c, env, h1, trace1);
  }

  /** With a callback that marks nothing, some target stays healthy over any number of runs and
      "no healthy targets" never comes back. */
  lemma MarkingNothingKeepsHealthy(c: Config, env: Env, h: Health, trace: Trace, n: nat)
    requires Sane(env) && CallbackMarksNothing(env)
    requires DistinctKeys(c.targets) && c.tracked && SkipsDrained(c) && SomeHealthy(c, env, h) && CounterLasts(c, h, n)
    ensures AlwaysHealthy(c, env, h, trace, n)
    ensures var rs := Runs(c, env, h, trace, n).0;
            |rs| == n && forall m :: 0 <= m < n ==> rs[m].Some? && rs[m] != Some(NoHealthyTargets)
  {
    forall m: nat | m < n
      ensures !EmptiesAt(c, env, h, trace, m)
    {
      MarkingNothingNeverEmpties(c, env, h, trace, m);
    }
    NeverNoHealthyTargets(c, env, h, trace, n);
  }

  const UNAUTHORIZED: Err := PLAIN.(status := Some(401))

  /** A clock that stands still and a client that stays; all upstreams refuse with 401 but one,
      which answers a. */
  ghost predicate Emptying(env: Env, bad: nat, a: Attempt) {
    && (forall i: nat :: env.now(i) == 0) && ClientStays(env)
    && env.upstream(bad) == a && forall k: nat :: k != bad ==> env.upstream(k) == Failed(UNAUTHORIZED)
  }

  function EmptyingEnv(bad: nat, a: Attempt): (env: Env)
    ensures Sane(env) && Emptying(env, bad, a)
  {
    Env((i: nat) => 0, (i: nat) => None, (at: int) => 0, (k: nat) => if k == bad then a else Failed(UNAUTHORIZED))
  }

  lemma RefusedDispatch(c: Config, env: Env, bad: nat, a: Attempt, t: Target, h: Health, trace: Trace)
    requires Emptying(env, bad, a)
    requires |trace.log| != bad
    ensures var s := DispatchOnce(c, env, 0, t, h, trace);
            && s.err == Some(UNAUTHORIZED) && s.health == h.(tick := s.health.tick)
            && |s.trace.log| == |trace.log| + 1
  {
  }

  lemma ParkedDispatch(c: Config, env: Env, bad: nat, a: Attempt, t: Target, h: Health, trace: Trace)
    requires Emptying(env, bad, a)
    requires |trace.log| == bad && a.CommittedFailure? && c.tracked && SkipsDrained(c)
    ensures var s := DispatchOnce(c, env, 0, t, h, trace);
            s.err.None? && s.health.drains == h.drains[Key(t) := DrainTTL(c)]
  {
  }

  /** A refused target is drained as long as there is another one behind it. */
  lemma RefusedRound(c: Config, env: Env, bad: nat, a: Attempt, order: seq<Target>, i: nat, acc: Tally, h: Health, trace: Trace)
    requires Emptying(env, bad, a)
    requires c.tracked && SkipsDrained(c) && i + 1 < |order| && |trace.log| != bad
    ensures var link := Advance(c, env, 0, order, i, acc, h, trace);
            link.Next? && link.health.drains == h.drains[Key(order[i]) := DrainTTL(c)] && |link.trace.log| == |trace.log| + 1
  {
    RefusedDispatch(c, env, bad, a, order[i], Tick(h), trace);
    var s := TryTarget(c, env, 0, order[i], Tick(h), trace);
    assert s.err == Some(UNAUTHORIZED) && s.health.drains == h.drains;
  }

  lemma ParkedRound(c: Config, env: Env, bad: nat, a: Attempt, order: seq<Target>, i: nat, acc: Tally, h: Health, trace: Trace)
    requires Emptying(env, bad, a)
    requires c.tracked && SkipsDrained(c) && i < |order| && |trace.log| == bad && a.CommittedFailure?
    ensures var link := Advance(c, env, 0, order, i, acc, h, trace);
            link.End? && link.outcome.result.Served? && link.outcome.health.drains == h.drains[Key(order[i]) := DrainTTL(c)]
  {
    ParkedDispatch(c, env, bad, a, order[i], Tick(h), trace);
    var s := TryTarget(c, env, 0, order[i], Tick(h), trace);
    assert s.err.None?;
  }

  /** The first n targets are drained for a whole drain TTL. */
  predicate DrainedUpTo(c: Config, order: seq<Target>, n: nat, drains: map<string, int>)
    requires n <= |order|
  {
    forall j :: 0 <= j < n ==> Key(order[j]) in drains && drains[Key(order[j])] == DrainTTL(c)
  }

  lemma {:induction false} EmptyingChain(c: Config, env: Env, bad: nat, a: Attempt, order: seq<Target>, i: nat, acc: Tally, h: Health, trace: Trace)
    requires Emptying(env, bad, a)
    requires c.tracked && SkipsDrained(c) && i < |order| && a.CommittedFailure?
    requires |trace.log| + |order| - 1 - i == bad && DrainedUpTo(c, order, i, h.drains)
    ensures var o := Chain(c, env, 0, order, i, acc, h, trace);
            o.result.Served? && DrainedUpTo(c, order, |order|, o.health.drains)
    decreases |order| - i
  {
    if i + 1 == |order| {
      ParkedRound(c, env, bad, a, order, i, acc, h, trace);
    } else {
      RefusedRound(c, env, bad, a, order, i, acc, h, trace);
      var link := Advance(c, env, 0, order, i, acc, h, trace);
      EmptyingChain(c, env, bad, a, order, i + 1, link.acc, link.health, link.trace);
    }
  }

  lemma PlainOrder(c: Config, env: Env, h: Health, p: Partition)
    requires SkipsDrained(c) && p == Split(c, env, h, c.targets) && (c.strategy.Reliable? || |p.healthy| < 2)
    ensures Ordered(c, env, h).0 == Some(p.healthy)
  {
  }

  lemma RotatedOrder(c: Config, env: Env, h: Health)
    requires Undrained(c, h) && c.strategy.RoundRobin? && |c.targets| >= 2
    ensures var start := StartIndex(Counter(h, c.name), |c.targets|);
            0 <= start <= |c.targets| && Ordered(c, env, h).0 == Some(Rotate(c.targets, start))
  {
    UndrainedSplit(c, env, h, c.targets);
    StartIndexUsable(Counter(h, c.name), |c.targets|);
  }

  lemma OrderKeepsDrains(c: Config, env: Env, h: Health)
    ensures Ordered(c, env, h).1.drains == h.drains
  {
  }

  /** On an undrained tracker the order is a permutation of the targets. */
  lemma UndrainedPermutation(c: Config, env: Env, h: Health) returns (order: seq<Target>)
    requires Undrained(c, h) && SkipsDrained(c)
    ensures Ordered(c, env, h).0 == Some(order) && |order| == |c.targets| && multiset(order) == multiset(c.targets)
  {
    if c.strategy.Reliable? || |c.targets| < 2 {
      UndrainedSplit(c, env, h, c.targets);
      PlainOrder(c, env, h, Partition(c.targets, [], h.(tick := h.tick + |c.targets|)));
      order := c.targets;
    } else {
      RotatedOrder(c, env, h);
      order := Turned(c.targets, StartIndex(Counter(h, c.name), |c.targets|));
    }
  }

  lemma Turned(ts: seq<Target>, start: nat) returns (r: seq<Target>)
    requires start <= |ts|
    ensures r == Rotate(ts, start) && |r| == |ts| && multiset(r) == multiset(ts)
  {
    r := Rotate(ts, start);
    RotateIsPermutation(ts, start);
  }

  lemma {:induction false} DrainedSplit(c: Config, env: Env, h: Health, ts: seq<Target>)
    requires c.tracked && forall i, k: nat :: 0 <= i < |ts| ==> IsDrained(env, h.(tick := k), ts[i])
    ensures Split(c, env, h, ts).healthy == []
  {
    if ts != [] {
      DrainedSplit(c, env, h, ts[..|ts| - 1]);
    }
  }

  predicate AllParked(c: Config, drains: map<string, int>) {
    forall t :: t in c.targets ==> Key(t) in drains && drains[Key(t)] == DrainTTL(c)
  }

  lemma ParkedByOrder(c: Config, order: seq<Target>, drains: map<string, int>)
    requires multiset(order) == multiset(c.targets) && DrainedUpTo(c, order, |order|, drains)
    ensures AllParked(c, drains)
  {
    forall t | t in c.targets
      ensures t in order
    {
      assert t in multiset(order);
    }
  }

  /** The run that empties the combo. */
  lemma EmptyingRun(c: Config, env: Env, h: Health, trace: Trace, a: Attempt)
    requires c.tracked && SkipsDrained(c) && Undrained(c, h) && a.CommittedFailure?
    requires Emptying(env, |trace.log| + |c.targets| - 1, a)
    ensures var (r, h1, _) := Run(c, env, h, trace); r.Some? && r.value.Served? && AllParked(c, h1.drains)
  {
    var order := UndrainedPermutation(c, env, h);
    var h1 := Ordered(c, env, h).1;
    var o := EmptyingOutcome(c, env, |trace.log| + |c.targets| - 1, a, order, Tick(h1), trace);
    RunIs(c, env, h, trace, order, h1, o);
    ParkedByOrder(c, order, o.health.drains);
  }

  lemma EmptyingOutcome(c: Config, env: Env, bad: nat, a: Attempt, order: seq<Target>, h: Health, trace: Trace) returns (o: Outcome)
    requires Emptying(env, bad, a)
    requires c.tracked && SkipsDrained(c) && order != [] && a.CommittedFailure? && |trace.log| + |order| - 1 == bad
    ensures o == Chain(c, env, 0, order, 0, Tally(0, 0, None), h, trace)
    ensures o.result.Served? && DrainedUpTo(c, order, |order|, o.health.drains)
  {
    o := Chain(c, env, 0, order, 0, Tally(0, 0, None), h, trace);
    EmptyingChain(c, env, bad, a, order, 0, Tally(0, 0, None), h, trace);
  }

  /** A combo all of whose targets are drained has an empty order. */
  lemma AllDrainedMeansNone(c: Config, env: Env, bad: nat, a: Attempt, h: Health, trace: Trace)
    requires Emptying(env, bad, a)
    requires c.tracked && SkipsDrained(c) && AllParked(c, h.drains)
    ensures Run(c, env, h, trace).0 == Some(NoHealthyTargets)
  {
    DrainedSplit(c, env, h, c.targets);
    NoHealthyMeansEmptyOrder(c, env, h, trace);
  }

  /** A callback that does mark breaks it, for every combo on an undrained tracker: refusals of
      all targets but the last, and then a failure of that one after it reached the client, leave
      nothing for the next run. */
  lemma CommittedFailureEmptiesOrder(c: Config, h: Health, trace: Trace, a: Attempt) returns (env: Env)
    requires c.tracked && SkipsDrained(c) && Undrained(c, h) && a.CommittedFailure?
    ensures Sane(env) && ClientStays(env) && forall k: nat :: env.upstream(k) == a || env.upstream(k) == Failed(UNAUTHORIZED)
    ensures var first := ResultAt(c, env, h, trace, 0);
            first.Some? && first.value.Served? && ResultAt(c, env, h, trace, 1) == Some(NoHealthyTargets)
  {
    env := EmptyingEnv(|trace.log| + |c.targets| - 1, a);
    FirstEmpties(c, env, h, trace, a);
    RunsOut(c, env, |trace.log| + |c.targets| - 1, a, h, trace, 1);
  }

  lemma FirstEmpties(c: Config, env: Env, h: Health, trace: Trace, a: Attempt)
    requires c.tracked && SkipsDrained(c) && Undrained(c, h) && a.CommittedFailure?
    requires Emptying(env, |trace.log| + |c.targets| - 1, a)
    ensures var first := ResultAt(c, env, h, trace, 0);
            first.Some? && first.value.Served? && AllParked(c, StateOf(c, env, h, trace, 1).0.drains)
  {
    EmptyingRun(c, env, h, trace.(responseCommitted := false), a);
    FirstRun(c, env, h, trace);
  }

  lemma FirstRun(c: Config, env: Env, h: Health, trace: Trace)
    ensures var (r, h1, _) := Run(c, env, h, trace.(responseCommitted := false));
            ResultAt(c, env, h, trace, 0) == r && StateOf(c, env, h, trace, 1).0 == h1
  {
    EnvelopeIsOnTop(c, env, h, trace);
    assert Runs(c, env, h, trace, 0) == ([], h, trace);
    assert Runs(c, env, h, trace, 1).1 == RunCombo(c, env, h, trace).1;
  }

  lemma RunsOut(c: Config, env: Env, bad: nat, a: Attempt, h: Health, trace: Trace, m: nat)
    requires Emptying(env, bad, a)
    requires c.tracked && SkipsDrained(c) && AllParked(c, StateOf(c, env, h, trace, m).0.drains)
    ensures ResultAt(c, env, h, trace, m) == Some(NoHealthyTargets)
  {
    var (h1, trace1) := StateOf(c, env, h, trace, m);
    AllDrainedMeansNone(c, env, bad, a, h1, trace1);
  }

  /** The upstreams only give certain answers. */
  ghost predicate Answers(env: Env, allowed: Attempt -> bool) { forall k: nat :: allowed(env.upstream(k)) }

  ghost predicate RunsOutAt(c: Config, h: Health, trace: Trace, allowed: Attempt -> bool, env: Env, n: nat) {
    && Sane(env) && Answers(env, allowed) && CounterLasts(c, h, n + 1)
    && ResultAt(c, env, h, trace, n) == Some(NoHealthyTargets)
  }

  /** Some sane environment with these answers runs the combo out of targets. */
  ghost predicate CanRunOut(c: Config, h: Health, trace: Trace, allowed: Attempt -> bool) {
    exists env, n: nat :: RunsOutAt(c, h, trace, allowed, env, n)
  }

  /** So a failure after the client was reached is what decides, for every combo on an undrained
      tracker whose upstreams may refuse: without one no run is ever out of targets. */
  lemma CommittedFailureDecides(c: Config, h: Health, trace: Trace, allowed: Attempt -> bool)
    requires c.tracked && SkipsDrained(c) && DistinctKeys(c.targets) && Undrained(c, h) && CounterLasts(c, h, 2)
    requires allowed(Failed(UNAUTHORIZED))
    ensures CanRunOut(c, h, trace, allowed) <==> exists a: Attempt :: a.CommittedFailure? && allowed(a)
  {
    if a: Attempt :| a.CommittedFailure? && allowed(a) {
      var env := CommittedFailureEmptiesOrder(c, h, trace, a);
      assert RunsOutAt(c, h, trace, allowed, env, 1);
    } else {
      forall env, n: nat
        ensures !RunsOutAt(c, h, trace, allowed, env, n)
      {
        NeverRunsOut(c, h, trace, allowed, env, n);
      }
    }
  }

  lemma NeverRunsOut(c: Config, h: Health, trace: Trace, allowed: Attempt -> bool, env: Env, n: nat)
    requires c.tracked && SkipsDrained(c) && DistinctKeys(c.targets) && Undrained(c, h)
    requires forall a: Attempt :: a.CommittedFailure? ==> !allowed(a)
    ensures !RunsOutAt(c, h, trace, allowed, env, n)
  {
    if Sane(env) && Answers(env, allowed) && CounterLasts(c, h, n + 1) {
      assert !IsDrained(env, h, c.targets[0]);
      MarkingNothingKeepsHealthy(c, env, h, trace, n + 1);
      RunsAt(c, env, h, trace, n + 1, n);
    }
  }

  // ---------------------------------------------------------------- 429 stays a 429

  predicate RateLimited(e: Err) { e.busy || UpstreamRateLimit(e) }

  /** A dispatch that only met a limit: it left the client untouched. */
  predicate LimitedEntry(e: Entry) { !Touches(e.attempt) && RateLimited(e.attempt.err) }

  predicate AllLimited(log: seq<Entry>, from: nat) { forall k :: from <= k < |log| ==> LimitedEntry(log[k]) }

  /** The tally of a chain in which every failure so far was a limit, the last one last is of
      the last dispatch. */
  predicate OnlyLimits(i: nat, acc: Tally, trace: Trace) {
    && acc.limited == acc.failures && (acc.failures == 0 ==> i == 0)
    && (acc.failures > 0 ==>
          trace.log != [] && !Touches(trace.log[|trace.log| - 1].attempt)
          && acc.last == Some(trace.log[|trace.log| - 1].attempt.err))
  }

  /** The chain was never over. */
  predicate InTime(c: Config, env: Env, started: int, tick: nat) { !Over(c, env, started, tick) }

  predicate LimitedFrom(c: Config, env: Env, started: int, i: nat, acc: Tally, h: Health, trace: Trace, o: Outcome) {
    && Extends(trace, o.trace) && h.tick <= o.health.tick
    && (OnlyLimits(i, acc, trace) && AllLimited(o.trace.log, |trace.log|) && InTime(c, env, started, o.health.tick) ==>
          o.trace.log != [] && !Touches(o.trace.log[|o.trace.log| - 1].attempt)
          && o.result == Broke(o.trace.log[|o.trace.log| - 1].attempt.err))
  }

  ghost function Limiting(c: Config, env: Env, started: int): Relation {
    (i: nat, acc, h, trace, o) => LimitedFrom(c, env, started, i, acc, h, trace, o)
  }

  /** One dispatch whose context did not end returns what its attempt returned. */
  lemma DispatchReturns(c: Config, env: Env, started: int, t: Target, h: Health, trace: Trace)
    requires Sane(env)
    ensures var s := DispatchOnce(c, env, started, t, h, trace);
            var e := s.trace.log[|s.trace.log| - 1];
            && |s.trace.log| == |trace.log| + 1 && Extends(trace, s.trace)
            && (InTime(c, env, started, s.health.tick) ==> s.err == CallbackError(e.attempt))
  {
    var (ctx, tick) := AttemptContext(c, env, started, h.tick);
    var s := DispatchOnce(c, env, started, t, h, trace);
    EndedMeansOver(c, env, started, h.tick, s.health.tick - 1);
    OverStays(c, env, started, s.health.tick - 1, s.health.tick);
  }

  lemma TryReturns(c: Config, env: Env, started: int, t: Target, h: Health, trace: Trace)
    requires Sane(env)
    ensures var s := TryTarget(c, env, started, t, h, trace);
            var e := s.trace.log[|s.trace.log| - 1];
            && |s.trace.log| > |trace.log| && Extends(trace, s.trace)
            && (InTime(c, env, started, s.health.tick) ==> s.err == CallbackError(e.attempt))
  {
    var s := DispatchOnce(c, env, started, t, h, trace);
    DispatchReturns(c, env, started, t, h, trace);
    TryUnfold(c, env, started, t, h, trace);
    OneTarget(c, env, started, t, h, trace);
    if Retries(c, env, started, s) {
      DispatchReturns(c, env, started, t, Tick(Tick(s.health)), s.trace);
    } else {
      OverStays(c, env, started, s.health.tick, TryTarget(c, env, started, t, h, trace).health.tick);
    }
  }

  /** What is over early is over late. */
  lemma InTimeBefore(c: Config, env: Env, started: int, early: nat, late: nat)
    requires Sane(env) && early <= late && InTime(c, env, started, late)
    ensures InTime(c, env, started, early)
  {
    OverStays(c, env, started, early, late);
  }

  /** One target of the chain when time lasts: its error is that of its last attempt. */
  lemma LimitedRound(c: Config, env: Env, started: int, order: seq<Target>, i: nat, acc: Tally, h: Health, trace: Trace)
    returns (s: Step)
    requires Sane(env) && i < |order| && !Spent(c, env, started, h.tick)
    ensures |s.trace.log| > |trace.log| && Extends(trace, s.trace) && s.health.tick >= h.tick
    ensures InTime(c, env, started, s.health.tick) ==> s.err == CallbackError(s.trace.log[|s.trace.log| - 1].attempt)
    ensures match Advance(c, env, started, order, i, acc, h, trace)
            case End(o) =>
              && o.trace == s.trace && s.health.tick <= o.health.tick
              && (InTime(c, env, started, o.health.tick) ==> s.err.None?)
            case Next(acc1, h1, mid) =>
              && mid == s.trace && s.health.tick <= h1.tick && s.err.Some? && acc1 == Count(acc, s.err.value)
  {
    s := TryTarget(c, env, started, order[i], Tick(h), trace);
    TryReturns(c, env, started, order[i], Tick(h), trace);
    OverStays(c, env, started, s.health.tick, s.health.tick + 2);
    OverStays(c, env, started, s.health.tick + 1, s.health.tick + 2);
  }

  lemma RoundLimited(c: Config, env: Env, started: int, order: seq<Target>, i: nat, acc: Tally, h: Health, trace: Trace)
    requires Sane(env) && i <= |order| && order != []
    ensures RoundOk(c, env, started, order, Limiting(c, env, started), i, acc, h, trace)
  {
    if i == |order| || Spent(c, env, started, h.tick) {
      OverStays(c, env, started, h.tick, h.tick + 1);
    } else {
      var s := LimitedRound(c, env, started, order, i, acc, h, trace);
      LinkLimited(c, env, started, i, acc, h, trace, s, Advance(c, env, started, order, i, acc, h, trace));
    }
  }

  lemma LinkLimited(c: Config, env: Env, started: int, i: nat, acc: Tally, h: Health, trace: Trace, s: Step, link: Link)
    requires Sane(env)
    requires |s.trace.log| > |trace.log| && Extends(trace, s.trace) && s.health.tick >= h.tick
    requires InTime(c, env, started, s.health.tick) ==> s.err == CallbackError(s.trace.log[|s.trace.log| - 1].attempt)
    requires match link
             case End(o) =>
               && o.trace == s.trace && s.health.tick <= o.health.tick
               && (InTime(c, env, started, o.health.tick) ==> s.err.None?)
             case Next(acc1, h1, mid) =>
               && mid == s.trace && s.health.tick <= h1.tick && s.err.Some? && acc1 == Count(acc, s.err.value)
    ensures match link
            case End(o) => LimitedFrom(c, env, started, i, acc, h, trace, o)
            case Next(acc1, h1, mid) =>
              forall o :: LimitedFrom(c, env, started, i + 1, acc1, h1, mid, o) ==> LimitedFrom(c, env, started, i, acc, h, trace, o)
  {
    match link
    case End(o) =>
      if InTime(c, env, started, o.health.tick) {
        InTimeBefore(c, env, started, s.health.tick, o.health.tick);
        assert !LimitedEntry(o.trace.log[|o.trace.log| - 1]);
      }
    case Next(acc1, h1, mid) =>
      forall o | LimitedFrom(c, env, started, i + 1, acc1, h1, mid, o)
        ensures LimitedFrom(c, env, started, i, acc, h, trace, o)
      {
        if InTime(c, env, started, o.health.tick) && AllLimited(o.trace.log, |trace.log|) {
          InTimeBefore(c, env, started, s.health.tick, o.health.tick);
          assert o.trace.log[|mid.log| - 1] == mid.log[|mid.log| - 1];
          assert LimitedEntry(mid.log[|mid.log| - 1]);
        }
      }
  }

  lemma ChainLimited(c: Config, env: Env, started: int, order: seq<Target>, i: nat, acc: Tally, h: Health, trace: Trace)
    requires Sane(env) && i <= |order| && order != []
    ensures LimitedFrom(c, env, started, i, acc, h, trace, Chain(c, env, started, order, i, acc, h, trace))
  {
    forall j: nat, acc1, h1, trace1 | j <= |order|
      ensures RoundOk(c, env, started, order, Limiting(c, env, started), j, acc1, h1, trace1)
    {
      RoundLimited(c, env, started, order, j, acc1, h1, trace1);
    }
    ChainInduction(c, env, started, order, Limiting(c, env, started), i, acc, h, trace);
  }

  /** When all dispatches of a run met a limit, and neither the client left nor the budget ran
      out meanwhile, the last typed error comes back as it is, whatever the strategy. */
  lemma AllLimitedKeepsError(c: Config, env: Env, started: int, order: seq<Target>, h: Health, trace: Trace) returns (o: Outcome)
    requires Sane(env) && order != []
    ensures o == Chain(c, env, started, order, 0, Tally(0, 0, None), h, trace)
    ensures AllLimited(o.trace.log, |trace.log|) && InTime(c, env, started, o.health.tick) ==>
              o.trace.log != [] && !Touches(o.trace.log[|o.trace.log| - 1].attempt)
              && o.result == Broke(o.trace.log[|o.trace.log| - 1].attempt.err)
  {
    o := Chain(c, env, started, order, 0, Tally(0, 0, None), h, trace);
    ChainLimited(c, env, started, order, 0, Tally(0, 0, None), h, trace);
    FromTheStart(c, env, started, h, trace, o);
  }

  lemma FromTheStart(c: Config, env: Env, started: int, h: Health, trace: Trace, o: Outcome)
    requires LimitedFrom(c, env, started, 0, Tally(0, 0, None), h, trace, o)
    ensures AllLimited(o.trace.log, |trace.log|) && InTime(c, env, started, o.health.tick) ==>
              o.trace.log != [] && !Touches(o.trace.log[|o.trace.log| - 1].attempt)
              && o.result == Broke(o.trace.log[|o.trace.log| - 1].attempt.err)
  {
  }

  // ---------------------------------------------------------------- rotation over runs

  function Healthy(c: Config, env: Env, h: Health): seq<Target> { Split(c, env, h, c.targets).healthy }

  /** A round-robin run with n >= 2 healthy targets starts at the one the counter names, and
      its order is a rotation of them. */
  lemma RotationOrder(c: Config, env: Env, h: Health)
    requires c.strategy.RoundRobin? && |Healthy(c, env, h)| >= 2 && Counter(h, c.name) < INT64
    ensures var (order, h1) := Ordered(c, env, h);
            var healthy := Healthy(c, env, h);
            && order.Some? && multiset(order.value) == multiset(healthy) && |order.value| == |healthy|
            && order.value[0] == healthy[Counter(h, c.name) % |healthy|]
            && Counter(h1, c.name) == Counter(h, c.name) + 1
  {
    var healthy := Healthy(c, env, h);
    StartIndexUsable(Counter(h, c.name), |healthy|);
    RotateIsPermutation(healthy, StartIndex(Counter(h, c.name), |healthy|));
  }

  /** Whether a run from state h tries target t first. */
  predicate LedBy(c: Config, env: Env, h: Health, t: Target) {
    var order := Ordered(c, env, h).0;
    order.Some? && order.value != [] && order.value[0] == t
  }

  lemma WhoLeads(c: Config, env: Env, h: Health, healthy: seq<Target>, first: nat, m: nat, j: nat)
    requires c.strategy.RoundRobin? && |healthy| >= 2 && DistinctKeys(healthy) && j < |healthy|
    requires Healthy(c, env, h) == healthy && Counter(h, c.name) == first + m < INT64
    ensures LedBy(c, env, h, healthy[j]) <==> AtTurn(first, m, |healthy|, j)
  {
    RotationOrder(c, env, h);
    var lead := (first + m) % |healthy|;
    assert healthy[lead] == healthy[j] <==> lead == j;
  }

  lemma RunBumpsOnce(c: Config, env: Env, h: Health, trace: Trace)
    requires c.strategy.RoundRobin? && |Healthy(c, env, h)| >= 2 && Counter(h, c.name) < INT64
    ensures Counter(RunCombo(c, env, h, trace).1, c.name) == Counter(h, c.name) + 1
  {
    EnvelopeIsOnTop(c, env, h, trace);
    RotationOrder(c, env, h);
    var (order, h1) := Ordered(c, env, h);
    ChainKeepsCounters(c, env, env.now(h1.tick), order.value, 0, Tally(0, 0, None), Tick(h1), trace.(responseCommitted := false));
  }

  /** The state n runs later. */
  function After(c: Config, env: Env, start: (Health, Trace), n: nat): (Health, Trace) {
    Iterate(Stepper(c, env), start, n)
  }

  function Stepper(c: Config, env: Env): ((Health, Trace)) -> (Health, Trace) {
    s => OneRun(c, env, s)
  }

  function OneRun(c: Config, env: Env, s: (Health, Trace)): (Health, Trace) {
    var (_, h, trace) := RunCombo(c, env, s.0, s.1);
    (h, trace)
  }

  /** The healthy list is the same at the start of each of the first n runs. */
  ghost predicate Steady(c: Config, env: Env, start: (Health, Trace), n: nat, healthy: seq<Target>) {
    forall m :: 0 <= m < n ==> Healthy(c, env, After(c, env, start, m).0) == healthy
  }

  lemma CounterAfterRuns(c: Config, env: Env, start: (Health, Trace), n: nat, healthy: seq<Target>)
    requires Steady(c, env, start, n, healthy) && c.strategy.RoundRobin? && |healthy| >= 2
    requires Counter(start.0, c.name) + n <= INT64
    ensures Counter(After(c, env, start, n).0, c.name) == Counter(start.0, c.name) + n
  {
    var step := Stepper(c, env);
    var good := (s: (Health, Trace)) => Healthy(c, env, s.0) == healthy;
    var count := (s: (Health, Trace)) => Counter(s.0, c.name);
    forall s: (Health, Trace) | good(s) && count(s) < INT64 ensures count(step(s)) == count(s) + 1 {
      RunBumpsOnce(c, env, s.0, s.1);
    }
    assert forall m :: 0 <= m < n ==> After(c, env, start, m) == Iterate(step, start, m);
    IterateCounts(step, good, count, INT64, start, n);
  }

  /** For each of the first n runs, whether it tries target t first. */
  function LedFlags(c: Config, env: Env, start: (Health, Trace), n: nat, t: Target): seq<bool> {
    seq(n, m requires 0 <= m < n => LedBy(c, env, After(c, env, start, m).0, t))
  }

  lemma FlagMeaning(c: Config, env: Env, start: (Health, Trace), m: nat, healthy: seq<Target>, j: nat)
    requires c.strategy.RoundRobin? && |healthy| >= 2 && j < |healthy| && DistinctKeys(healthy)
    requires Steady(c, env, start, m + 1, healthy) && Counter(start.0, c.name) + m < INT64
    ensures LedBy(c, env, After(c, env, start, m).0, healthy[j]) <==> AtTurn(Counter(start.0, c.name), m, |healthy|, j)
  {
    CounterAfterRuns(c, env, start, m, healthy);
    WhoLeads(c, env, After(c, env, start, m).0, healthy, Counter(start.0, c.name), m, j);
  }

  lemma FlagsMeaning(c: Config, env: Env, start: (Health, Trace), n: nat, healthy: seq<Target>, j: nat)
    requires c.strategy.RoundRobin? && |healthy| >= 2 && j < |healthy| && DistinctKeys(healthy)
    requires Steady(c, env, start, n, healthy) && Counter(start.0, c.name) + n <= INT64
    ensures CountTrue(LedFlags(c, env, start, n, healthy[j])) == Leads(Counter(start.0, c.name), n, |healthy|, j)
  {
    var flags := LedFlags(c, env, start, n, healthy[j]);
    forall m | 0 <= m < n ensures flags[m] <==> AtTurn(Counter(start.0, c.name), m, |healthy|, j) {
      FlagMeaning(c, env, start, m, healthy, j);
    }
    CountIsLeads(flags, Counter(start.0, c.name), |healthy|, j);
  }

  /** Over any consecutive runs with an unchanged healthy list, any two of its targets lead
      equally often up to one, and exactly equally often after a whole number of rounds. */
  lemma RotationIsFair(c: Config, env: Env, start: (Health, Trace), n: nat, healthy: seq<Target>, j: nat, k: nat)
    requires c.strategy.RoundRobin? && |healthy| >= 2 && j < |healthy| && k < |healthy| && DistinctKeys(healthy)
    requires Steady(c, env, start, n, healthy) && Counter(start.0, c.name) + n <= INT64
    ensures var leadJ := CountTrue(LedFlags(c, env, start, n, healthy[j]));
            var leadK := CountTrue(LedFlags(c, env, start, n, healthy[k]));
            -1 <= leadJ - leadK <= 1 && (n % |healthy| == 0 ==> leadJ == n / |healthy|)
  {
    FlagsMeaning(c, env, start, n, healthy, j);
    FlagsMeaning(c, env, start, n, healthy, k);
    Fair(Counter(start.0, c.name), n, |healthy|, j, k);
  }
}
