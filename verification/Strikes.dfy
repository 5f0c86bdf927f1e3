/** The strike window and the 429 back-off of a combo (internal/combo/combo.go). */
module Strikes {
  /** Times and durations are nanoseconds. */
  const SECOND: int := 1_000_000_000

  const TRANSIENT_WINDOW: int := 60 * SECOND
  const TRANSIENT_STRIKES: nat := 5
  const RATE_LIMIT_BASE: int := 5 * SECOND
  const RATE_LIMIT_CAP: int := 60 * SECOND

  // ---------------------------------------------------------------- strikes

  /** The strikes later than cutoff, in order. */
  function Recent(times: seq<int>, cutoff: int): (r: seq<int>)
    ensures |r| <= |times|
  {
    if times == [] then []
    else Recent(times[..|times| - 1], cutoff) + if times[|times| - 1] > cutoff then [times[|times| - 1]] else []
  }

  /** What one recordTransient call leaves in the slice. */
  function Record(kept: seq<int>, now: int): seq<int> {
    Recent(kept, now - TRANSIENT_WINDOW) + [now]
  }

  /** What the slice holds after a whole history of calls. */
  function Remembered(history: seq<int>): seq<int> {
    if history == [] then [] else Record(Remembered(history[..|history| - 1]), history[|history| - 1])
  }

  ghost predicate Monotone(times: seq<int>) {
    forall i, j :: 0 <= i <= j < |times| ==> times[i] <= times[j]
  }

  lemma {:induction false} RecentAppend(a: seq<int>, b: seq<int>, cutoff: int)
    ensures Recent(a + b, cutoff) == Recent(a, cutoff) + Recent(b, cutoff)
  {
    if b == [] {
      assert a + b == a;
    } else {
      RecentAppend(a, b[..|b| - 1], cutoff);
      assert (a + b)[..|a + b| - 1] == a + b[..|b| - 1];
    }
  }

  lemma {:induction false} RecentTwice(times: seq<int>, early: int, late: int)
    requires early <= late
    ensures Recent(Recent(times, early), late) == Recent(times, late)
  {
    if times != [] {
      var init, last := times[..|times| - 1], times[|times| - 1];
      RecentTwice(init, early, late);
      if last > early {
        assert (Recent(init, early) + [last])[..|Recent(init, early)|] == Recent(init, early);
      } else {
        assert Recent(times, early) == Recent(init, early);
      }
    }
  }

  /** Forgetting old strikes never changes a count: under a monotone clock the slice always
      holds exactly the strikes of the complete history inside the last window. */
  lemma {:induction false} RememberedIsRecent(history: seq<int>)
    requires history != [] && Monotone(history)
    ensures Remembered(history) == Recent(history, history[|history| - 1] - TRANSIENT_WINDOW)
  {
    var init, now := history[..|history| - 1], history[|history| - 1];
    var cutoff := now - TRANSIENT_WINDOW;
    Unfold(history, cutoff);
    if init != [] {
      var before := init[|init| - 1] - TRANSIENT_WINDOW;
      MonotoneInit(history);
      RememberedIsRecent(init);
      RecentTwice(init, before, cutoff);
    }
  }

  lemma Unfold(history: seq<int>, cutoff: int)
    requires history != []
    ensures var init, now := history[..|history| - 1], history[|history| - 1];
            && Recent(history, cutoff) == Recent(init, cutoff) + (if now > cutoff then [now] else [])
            && Remembered(history) == Recent(Remembered(init), now - TRANSIENT_WINDOW) + [now]
  {
  }

  lemma MonotoneInit(history: seq<int>)
    requires |history| > 1 && Monotone(history)
    ensures Monotone(history[..|history| - 1])
    ensures history[..|history| - 1][|history| - 2] <= history[|history| - 1]
  {
  }

  lemma Extend(history: seq<int>, now: int)
    requires Monotone(history) && (history != [] ==> history[|history| - 1] <= now)
    ensures Monotone(history + [now])
    ensures Remembered(history + [now]) == Record(Remembered(history), now)
  {
    var all := history + [now];
    assert all[..|history|] == history && all[|history|] == now;
    forall i, j | 0 <= i <= j < |all|
      ensures all[i] <= all[j]
    {
      if j == |history| && i < j {
        assert history[i] <= history[|history| - 1];
      }
    }
  }

  /** One more strike: what is recorded is what is recent in the whole history. */
  lemma Recorded(history: seq<int>, now: int)
    requires Monotone(history) && (history != [] ==> history[|history| - 1] <= now)
    ensures Monotone(history + [now])
    ensures Record(Remembered(history), now) == Remembered(history + [now])
    ensures Record(Remembered(history), now) == Recent(history + [now], now - TRANSIENT_WINDOW)
  {
    Extend(history, now);
    var all := history + [now];
    RecordedLast(all, now);
  }

  lemma RecordedLast(all: seq<int>, now: int)
    requires all != [] && all[|all| - 1] == now && Monotone(all)
    ensures Remembered(all) == Recent(all, now - TRANSIENT_WINDOW)
  {
    RememberedIsRecent(all);
  }

  /** One target's strikes, filtered in place in the array backing the slice. */
  class StrikeLog {
    var at: array<int>
    var len: nat
    /** Every strike ever recorded. */
    ghost var history: seq<int>

    ghost predicate Valid()
      reads this, at
    {
      len <= at.Length && Monotone(history) && at[..len] == Remembered(history)
    }

    constructor ()
      ensures Valid() && history == [] && fresh(at)
    {
      at, len, history := new int[0], 0, [];
    }

    /** A log that starts from a slice. */
    constructor Of(times: seq<int>)
      ensures len == |times| <= at.Length && at[..len] == times && fresh(at)
    {
      at, len, history := new int[|times|](i requires 0 <= i < |times| => times[i]), |times|, [];
    }

    /** recordTransient: the count is the number of strikes of the complete history within
        the last minute, the new one included. */
    method RecordTransient(now: int) returns (count: nat)
      requires Valid()
      requires history != [] ==> history[|history| - 1] <= now
      modifies this, at
      ensures Valid() && (at == old(at) || fresh(at))
      ensures history == old(history) + [now]
      ensures count == |Recent(history, now - TRANSIENT_WINDOW)|
    {
      Recorded(history, now);
      RecordOne(now);
      history := history + [now];
      count := len;
      assert count == |at[..len]|;
    }

    /** The filter and the append. */
    method RecordOne(now: int)
      requires len <= at.Length
      modifies this`at, this`len, at
      ensures len <= at.Length && (at == old(at) || fresh(at))
      ensures at[..len] == Record(old(at[..len]), now)
    {
      var kept := Filter(now - TRANSIENT_WINDOW);
      Append(kept, now);
    }

    /** Go's append to a slice of length kept: in place when there is room. */
    method Append(kept: nat, now: int)
      requires kept <= at.Length
      modifies this`at, this`len, at
      ensures len == kept + 1 <= at.Length && (at == old(at) || fresh(at))
      ensures at[..len] == old(at[..kept]) + [now]
    {
      if kept == at.Length {
        var grown := new int[2 * kept + 1];
        forall i | 0 <= i < kept { grown[i] := at[i]; }
        assert grown[..kept] == at[..kept];
        at := grown;
      }
      at[kept] := now;
      len := kept + 1;
      assert at[..kept] == old(at[..kept]);
      assert at[..len] == at[..kept] + [now];
    }

    method Filter(cutoff: int) returns (kept: nat)
      requires len <= at.Length
      modifies at
      ensures kept <= len
      ensures at[..kept] == Recent(old(at[..len]), cutoff)
    {
      kept := 0;
      ghost var was := at[..len];
      for i := 0 to len
        invariant kept <= i
        invariant at[..kept] == Recent(was[..i], cutoff)
        invariant forall k :: i <= k < len ==> at[k] == was[k]
      {
        assert was[..i + 1][..i] == was[..i];
        if at[i] > cutoff {
          at[kept] := at[i];
          kept := kept + 1;
          assert at[..kept] == at[..kept - 1] + [was[i]];
        }
      }
      assert was[..len] == was;
    }
  }

  // ---------------------------------------------------------------- 429 back-off

  function Pow2(n: nat): (r: int)
    ensures r >= 1
  {
    if n == 0 then 1 else 2 * Pow2(n - 1)
  }

  lemma {:induction false} Pow2Monotone(m: nat, n: nat)
    requires m <= n
    ensures Pow2(m) <= Pow2(n)
    decreases n
  {
    if m < n {
      Pow2Monotone(m, n - 1);
    }
  }

  /** The cooldown of a 429 without Retry-After after n earlier ones. */
  function Backoff(n: nat): int {
    if RATE_LIMIT_BASE * Pow2(n) <= RATE_LIMIT_CAP then RATE_LIMIT_BASE * Pow2(n) else RATE_LIMIT_CAP
  }

  /** rateLimitCooldown's doubling loop, with its early exit, is min(60s, 5s * 2^n) for every n. */
  method RateLimitCooldown(n: nat) returns (cooldown: int)
    ensures cooldown == Backoff(n)
  {
    cooldown := RATE_LIMIT_BASE;
    for i := 0 to n
      invariant cooldown == RATE_LIMIT_BASE * Pow2(i) <= RATE_LIMIT_CAP
    {
      if cooldown >= RATE_LIMIT_CAP / 2 {
        Pow2Monotone(i + 1, n);
        return RATE_LIMIT_CAP;
      }
      cooldown := cooldown * 2;
    }
    if cooldown > RATE_LIMIT_CAP {
      return RATE_LIMIT_CAP;
    }
  }
}
