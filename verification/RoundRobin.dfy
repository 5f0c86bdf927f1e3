/** Round-robin rotation (internal/combo/combo.go, orderedTargets). */
module RoundRobin {
  const UINT64: nat := 0x1_0000_0000_0000_0000
  const INT64: nat := 0x8000_0000_0000_0000

  /** Go's conversion of a uint64 to int on a 64-bit platform. */
  function ToInt(u: nat): int
    requires u < UINT64
  {
    if u < INT64 then u else u - UINT64
  }

  /** Go's remainder: it takes the sign of the dividend. */
  function Remainder(a: int, n: nat): int
    requires n > 0
  {
    if a >= 0 then a % n else -((-a) % n)
  }

  /** Where the rotation of n healthy targets begins when the counter had been bumped
      served times before: int(counter.Add(1)-1) % n. */
  function StartIndex(served: nat, n: nat): int
    requires n > 0
  {
    Remainder(ToInt(served % UINT64), n)
  }

  /** The index is usable exactly while the counter is below 2^63, or when it happens to wrap
      to a multiple of n: beyond that the slice expression would panic. */
  lemma StartIndexUsable(served: nat, n: nat)
    requires n > 0
    ensures 0 <= StartIndex(served, n) < n <==>
            served % UINT64 < INT64 || (UINT64 - served % UINT64) % n == 0
    ensures served < INT64 ==> StartIndex(served, n) == served % n
  {
    var u := served % UINT64;
    if served < INT64 {
      assert u == served;
    }
    if u >= INT64 {
      assert StartIndex(served, n) == -((UINT64 - u) % n);
    }
  }

  function Rotate<T>(ts: seq<T>, start: nat): seq<T>
    requires start <= |ts|
  {
    ts[start..] + ts[..start]
  }

  /** A rotation tries every target exactly once, and the k-th tried is the start plus k. */
  lemma RotateIsPermutation<T>(ts: seq<T>, start: nat)
    requires start <= |ts|
    ensures multiset(Rotate(ts, start)) == multiset(ts)
    ensures |Rotate(ts, start)| == |ts|
    ensures forall k :: 0 <= k < |ts| ==> Rotate(ts, start)[k] == ts[(start + k) % |ts|]
  {
    assert ts == ts[..start] + ts[start..];
    forall k | 0 <= k < |ts|
      ensures Rotate(ts, start)[k] == ts[(start + k) % |ts|]
    {
      RotatedAt(ts, start, k);
    }
  }

  lemma RotatedAt<T>(ts: seq<T>, start: nat, k: nat)
    requires start <= |ts| && k < |ts|
    ensures Rotate(ts, start)[k] == ts[(start + k) % |ts|]
  {
    var n := |ts|;
    if start + k < n {
      DivModUnique(start + k, n, 0, start + k);
      assert Rotate(ts, start)[k] == ts[start..][k] == ts[start + k];
    } else {
      DivModUnique(start + k, n, 1, start + k - n);
      assert Rotate(ts, start)[k] == ts[..start][start + k - n];
    }
  }

  lemma MulGap(x: int, y: int, n: nat)
    requires n > 0 && x < y
    ensures y * n >= x * n + n
  {
    assert (y - x) * n >= n by { MulAtLeast(y - x, n); }
  }

  lemma MulAtLeast(d: int, n: nat)
    requires d >= 1
    ensures d * n >= n
  {
    assert (d - 1) * n >= 0;
  }

  lemma DivModUnique(m: int, n: nat, q: int, r: int)
    requires n > 0 && m == q * n + r && 0 <= r < n
    ensures m / n == q && m % n == r
  {
    var p := m / n;
    assert m == p * n + m % n;
    if p < q {
      MulGap(p, q, n);
    } else if q < p {
      MulGap(q, p, n);
    }
  }

  /** Whether run number m after first starts at target j of n. */
  predicate AtTurn(first: nat, m: nat, n: nat, j: nat)
    requires n > 0
  {
    (first + m) % n == j
  }

  /** How often target j of n is at the start index over the runs numbered first, ..., first + runs - 1. */
  function Leads(first: nat, runs: nat, n: nat, j: nat): nat
    requires n > 0
  {
    if runs == 0 then 0
    else Leads(first, runs - 1, n, j) + if AtTurn(first, runs - 1, n, j) then 1 else 0
  }

  function CountTrue(flags: seq<bool>): nat {
    if flags == [] then 0
    else CountTrue(flags[..|flags| - 1]) + if flags[|flags| - 1] then 1 else 0
  }

  lemma {:induction false} CountIsLeads(flags: seq<bool>, first: nat, n: nat, j: nat)
    requires n > 0 && forall m :: 0 <= m < |flags| ==> (flags[m] <==> AtTurn(first, m, n, j))
    ensures CountTrue(flags) == Leads(first, |flags|, n, j)
  {
    if flags != [] {
      CountIsLeads(flags[..|flags| - 1], first, n, j);
    }
  }

  /** The number of m' < m with m' % n == j. */
  function Below(m: nat, n: nat, j: nat): nat
    requires j < n
  {
    m / n + if m % n > j then 1 else 0
  }

  lemma BelowStep(m: nat, n: nat, j: nat)
    requires j < n
    ensures Below(m + 1, n, j) == Below(m, n, j) + if m % n == j then 1 else 0
  {
    var q, r := m / n, m % n;
    if r == n - 1 {
      assert m + 1 == (q + 1) * n;
      DivModUnique(m + 1, n, q + 1, 0);
    } else {
      DivModUnique(m + 1, n, q, r + 1);
    }
  }

  lemma {:induction false} LeadsClosed(first: nat, runs: nat, n: nat, j: nat)
    requires j < n
    ensures Leads(first, runs, n, j) == Below(first + runs, n, j) - Below(first, n, j)
  {
    if runs > 0 {
      LeadsClosed(first, runs - 1, n, j);
      BelowStep(first + runs - 1, n, j);
    }
  }

  /** Fairness: over any consecutive runs two targets lead equally often up to one, and
      exactly equally often after any multiple of n runs. */
  lemma Fair(first: nat, runs: nat, n: nat, j: nat, k: nat)
    requires j < n && k < n
    ensures -1 <= Leads(first, runs, n, j) - Leads(first, runs, n, k) <= 1
    ensures runs % n == 0 ==> Leads(first, runs, n, j) == runs / n
  {
    LeadsClosed(first, runs, n, j);
    LeadsClosed(first, runs, n, k);
    if runs % n == 0 {
      WholeRounds(first, runs, n);
    }
  }

  lemma WholeRounds(first: nat, runs: nat, n: nat)
    requires n > 0 && runs % n == 0
    ensures (first + runs) / n == first / n + runs / n && (first + runs) % n == first % n
  {
    var p, q, r := first / n, runs / n, first % n;
    calc {
      first + runs;
      p * n + r + q * n;
      (p + q) * n + r;
    }
    DivModUnique(first + runs, n, p + q, r);
  }

  /** n steps from state s. */
  function Iterate<S>(step: S -> S, s: S, n: nat): S {
    if n == 0 then s else step(Iterate(step, s, n - 1))
  }

  /** A counter that every step from a good state bumps by one, as long as it is below a bound. */
  lemma {:induction false} IterateCounts<S(!new)>(step: S -> S, good: S -> bool, count: S -> nat, bound: nat, s: S, n: nat)
    requires forall x :: good(x) && count(x) < bound ==> count(step(x)) == count(x) + 1
    requires forall m :: 0 <= m < n ==> good(Iterate(step, s, m))
    requires count(s) + n <= bound
    ensures count(Iterate(step, s, n)) == count(s) + n
  {
    if n > 0 {
      IterateCounts(step, good, count, bound, s, n - 1);
      assert good(Iterate(step, s, n - 1));
    }
  }
}
