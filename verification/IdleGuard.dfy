/** The stall guard of a generation (internal/provider/stream.go): an idle timer that bytes
    push back and a total budget. Times are nanoseconds of a monotone clock. */
module IdleGuard {
  import opened Bytes

  datatype Cause = Silence | Budget

  /** due is when the idle timer is set to fire; None when there is none. lastByte is when the
      last byte before a stall was seen, stalledAt when the stall was declared. */
  datatype Guard = Guard(
    idle: int,
    budget: int,
    last: int,
    due: Option<int>,
    stall: Option<Cause>,
    cancels: nat,
    lastByte: int,
    stalledAt: int)

  /** NewIdleGuard, created at start with its timer armed at armed. */
  function New(idle: int, budget: int, start: int, armed: int): Guard {
    Guard(idle, budget, start, if idle > 0 then Some(armed + idle) else None, None, 0, start, start)
  }

  /** What can happen to a guard, with the clock readings each takes, in order. */
  datatype Action =
    | Byte(seen: int, stamped: int, armed: int)
    | IdleFires(now: int, armed: int)
    | BudgetFires(now: int)
    | Stop(now: int)

  function Stalled(g: Guard, cause: Cause, now: int): Guard {
    g.(stall := Some(cause), cancels := g.cancels + 1, stalledAt := now)
  }

  /** touch: in the first half of the window the timer is left alone. */
  function OnByte(g: Guard, seen: int, stamped: int, armed: int): Guard {
    if g.stall.Some? then g
    else
      var g1 := g.(lastByte := seen);
      if g.idle <= 0 || seen - g.last < g.idle / 2 then g1
      else g1.(last := stamped, due := Some(armed + g.idle))
  }

  /** onIdle: a late or overtaken timer is set again. */
  function OnIdle(g: Guard, now: int, armed: int): Guard {
    if g.stall.Some? || g.idle <= 0 then g
    else if now - g.last < g.idle then g.(due := Some(armed + g.idle))
    else Stalled(g, Silence, now)
  }

  function OnBudget(g: Guard, now: int): Guard {
    if g.stall.Some? || g.budget <= 0 then g else Stalled(g, Budget, now)
  }

  function Step(g: Guard, a: Action): Guard {
    match a
    case Byte(seen, stamped, armed) => OnByte(g, seen, stamped, armed)
    case IdleFires(now, armed) => OnIdle(g, now, armed)
    case BudgetFires(now) => OnBudget(g, now)
    case Stop(_) => g.(due := None)
  }

  function Run(g: Guard, actions: seq<Action>): Guard {
    if actions == [] then g else Step(Run(g, actions[..|actions| - 1]), actions[|actions| - 1])
  }

  // ---------------------------------------------------------------- any interleaving

  function First(a: Action): int {
    match a case Byte(seen, _, _) => seen case IdleFires(now, _) => now case BudgetFires(now) => now case Stop(now) => now
  }

  function Last(a: Action): int {
    match a case Byte(_, _, armed) => armed case IdleFires(_, armed) => armed case BudgetFires(now) => now case Stop(now) => now
  }

  predicate Ordered(a: Action) {
    match a
    case Byte(seen, stamped, armed) => seen <= stamped <= armed
    case IdleFires(now, armed) => now <= armed
    case _ => true
  }

  /** Readings never run backwards: the guard's mutex puts the actions in a sequence. */
  ghost predicate Timed(start: int, actions: seq<Action>) {
    && (forall i :: 0 <= i < |actions| ==> Ordered(actions[i]) && start <= First(actions[i]))
    && (forall i, j :: 0 <= i < j < |actions| ==> Last(actions[i]) <= First(actions[j]))
  }

  /** What every reachable guard satisfies: the last byte came less than half a window after
      the stamp, a stall of silence was really silent, and cancel ran at most once. */
  ghost predicate Inv(g: Guard) {
    && (g.idle > 0 ==> g.lastByte <= g.last || g.lastByte - g.last < g.idle / 2)
    && (g.stall == Some(Silence) ==> g.idle > 0 && g.stalledAt - g.last >= g.idle)
    && g.cancels == (if g.stall.Some? then 1 else 0)
  }

  /** However late timers fire and however callbacks race with bytes: an idle stall means the
      upstream was silent for at least idle - idle/2 (more than that when the reset was
      skipped), and the stall is declared and cancelled at most once. */
  lemma {:induction false} StallMeansSilence(idle: int, budget: int, start: int, armed: int, actions: seq<Action>)
    requires start <= armed && Timed(armed, actions)
    ensures var g := Run(New(idle, budget, start, armed), actions);
            && Inv(g) && g.idle == idle && g.budget == budget
            && (g.stall == Some(Silence) ==>
                  var silence := g.stalledAt - g.lastByte;
                  silence >= idle - idle / 2 && (silence > idle - idle / 2 || silence >= idle))
  {
    if actions != [] {
      var init := actions[..|actions| - 1];
      assert Timed(armed, init);
      StallMeansSilence(idle, budget, start, armed, init);
      assert Ordered(actions[|actions| - 1]);
    }
  }

  /** A stall is final: whatever comes later changes neither its cause nor its time. */
  lemma {:induction false} StallIsFinal(g: Guard, more: seq<Action>)
    requires g.stall.Some?
    ensures var g1 := Run(g, more);
            g1.stall == g.stall && g1.stalledAt == g.stalledAt && g1.cancels == g.cancels && g1.lastByte == g.lastByte
  {
    if more != [] {
      StallIsFinal(g, more[..|more| - 1]);
    }
  }

  /** The bound is met: a byte just inside the first half of the window does not push the
      timer back, and the stall follows idle - idle/2 + 1 after it. */
  lemma EarliestStall(idle: int, start: int)
    requires idle >= 2
    ensures var byteAt := start + idle / 2 - 1;
            var actions := [Byte(byteAt, byteAt, byteAt), IdleFires(start + idle, start + idle)];
            var g := Run(New(idle, 0, start, start), actions);
            Timed(start, actions) && g.stall == Some(Silence) && g.stalledAt - g.lastByte == idle - idle / 2 + 1
  {
    var byteAt := start + idle / 2 - 1;
    var actions := [Byte(byteAt, byteAt, byteAt), IdleFires(start + idle, start + idle)];
    var g := New(idle, 0, start, start);
    assert actions[..1] == [actions[0]] && actions[..1][..0] == [];
    assert Run(g, actions[..1]) == Step(g, actions[0]);
  }

  // ---------------------------------------------------------------- prompt timers

  /** An action under prompt timers: readings inside one callback are one instant, nothing
      happens after the timer is due before its callback has run, and the callback runs when
      due or, overtaken by a byte, at the instant of that byte. */
  predicate Prompt(g: Guard, a: Action) {
    match a
    case Byte(seen, stamped, armed) => seen == stamped == armed && g.last <= seen && (g.due.Some? ==> seen <= g.due.value)
    case IdleFires(now, armed) => now == armed && g.due.Some? && (now == g.due.value || now == g.last)
    case BudgetFires(now) => g.due.Some? ==> now <= g.due.value
    case Stop(_) => false
  }

  ghost predicate PromptRun(g: Guard, actions: seq<Action>) {
    if actions == [] then true
    else
      var init := actions[..|actions| - 1];
      PromptRun(g, init) && (Run(g, init).stall.None? ==> Prompt(Run(g, init), actions[|actions| - 1]))
  }

  /** What prompt timers keep true of a guard. */
  predicate OnTime(g: Guard, idle: int) {
    && g.idle == idle && g.last <= g.lastByte
    && (g.stall.None? ==> g.due == Some(g.last + idle))
    && (g.stall == Some(Silence) ==> g.stalledAt - g.lastByte <= idle)
  }

  lemma PromptStep(g: Guard, idle: int, a: Action)
    requires idle > 0 && OnTime(g, idle) && g.stall.None? && Prompt(g, a)
    ensures OnTime(Step(g, a), idle)
  {
  }

  /** Under prompt timers the timer is always set to one window after the stamp, and an idle
      stall is declared no later than idle after the last byte. */
  lemma {:induction false} PromptInv(idle: int, budget: int, start: int, actions: seq<Action>)
    requires idle > 0 && PromptRun(New(idle, budget, start, start), actions)
    ensures OnTime(Run(New(idle, budget, start, start), actions), idle)
  {
    if actions != [] {
      var init := actions[..|actions| - 1];
      PromptInv(idle, budget, start, init);
      if Run(New(idle, budget, start, start), init).stall.None? {
        PromptStep(Run(New(idle, budget, start, start), init), idle, actions[|actions| - 1]);
      }
    }
  }

  /** With prompt timers a silence of idle after the last byte always ends in a stall: by the
      time now, with the idle timer served up to now, the guard has stalled. */
  lemma SilenceStalls(idle: int, budget: int, start: int, actions: seq<Action>, now: int)
    requires idle > 0 && PromptRun(New(idle, budget, start, start), actions)
    requires var g := Run(New(idle, budget, start, start), actions);
             now - g.lastByte >= idle && (g.stall.None? && g.due.Some? ==> now < g.due.value)
    ensures Run(New(idle, budget, start, start), actions).stall.Some?
  {
    PromptInv(idle, budget, start, actions);
  }

  // ---------------------------------------------------------------- the guard itself

  class IdleGuard {
    const idle: int
    const budget: int
    var last: int
    var due: Option<int>
    var stallErr: Option<Cause>
    var cancels: nat
    ghost var lastByte: int
    ghost var stalledAt: int

    ghost function G(): Guard
      reads this
    {
      Guard(idle, budget, last, due, stallErr, cancels, lastByte, stalledAt)
    }

    constructor (idle: int, budget: int, start: int, armed: int)
      ensures G() == New(idle, budget, start, armed)
    {
      this.idle, this.budget, last := idle, budget, start;
      due := if idle > 0 then Some(armed + idle) else None;
      stallErr, cancels, lastByte, stalledAt := None, 0, start, start;
    }

    method DeclareStall(cause: Cause, ghost now: int)
      modifies `stallErr, `cancels, `stalledAt
      ensures G() == Stalled(old(G()), cause, now)
    {
      stallErr := Some(cause);
      cancels := cancels + 1;
      stalledAt := now;
    }

    method OnIdleTimer(now: int, armed: int)
      modifies this
      ensures G() == Step(old(G()), IdleFires(now, armed))
    {
      if stallErr.Some? || idle <= 0 {
        return;
      }
      if now - last < idle {
        due := Some(armed + idle);
        return;
      }
      DeclareStall(Silence, now);
    }

    method OnBudgetTimer(now: int)
      modifies this
      ensures G() == Step(old(G()), BudgetFires(now))
    {
      if stallErr.Some? || budget <= 0 {
        return;
      }
      DeclareStall(Budget, now);
    }

    method Touch(seen: int, stamped: int, armed: int)
      modifies this
      ensures G() == Step(old(G()), Byte(seen, stamped, armed))
    {
      if stallErr.Some? {
        return;
      }
      lastByte := seen;
      if idle <= 0 {
        return;
      }
      if seen - last < idle / 2 {
        return;
      }
      last := stamped;
      due := Some(armed + idle);
    }

    method StopTimers(now: int)
      modifies this
      ensures G() == Step(old(G()), Stop(now))
    {
      due := None;
    }

    /** Err: a stall this guard caused replaces the error of the aborted read. */
    method Err(failed: bool) returns (stall: Option<Cause>)
      ensures stall == if failed then stallErr else None
    {
      stall := if failed && stallErr.Some? then stallErr else None;
    }
  }

  /** A guard driven by any timed sequence of bytes and timer callbacks, and what its reader is
      told in the end: a read that failed after a stall reports the stall, with its cause, and
      only then was anything cancelled. */
  method Drive(idle: int, budget: int, start: int, armed: int, actions: seq<Action>, failed: bool)
    returns (stall: Option<Cause>, cancels: nat)
    requires start <= armed && Timed(armed, actions)
    ensures var g := Run(New(idle, budget, start, armed), actions);
            && stall == (if failed then g.stall else None) && cancels == g.cancels
            && cancels <= 1 && (g.stall.Some? <==> cancels == 1)
            && (stall == Some(Silence) ==> g.stalledAt - g.lastByte >= idle - idle / 2)
  {
    var guard := new IdleGuard(idle, budget, start, armed);
    for n := 0 to |actions|
      invariant fresh(guard) && guard.G() == Run(New(idle, budget, start, armed), actions[..n])
    {
      assert actions[..n + 1][..n] == actions[..n];
      match actions[n]
      case Byte(seen, stamped, at) => guard.Touch(seen, stamped, at);
      case IdleFires(now, at) => guard.OnIdleTimer(now, at);
      case BudgetFires(now) => guard.OnBudgetTimer(now);
      case Stop(now) => guard.StopTimers(now);
    }
    assert actions[..|actions|] == actions;
    StallMeansSilence(idle, budget, start, armed, actions);
    stall := guard.Err(failed);
    cancels := guard.cancels;
  }
}
