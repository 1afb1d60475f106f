/** How far unsynchronised reads and writes of one counter can overspend it: the combinatorics. */
module Overspend {
  /** Binomial coefficients by Pascal's rule. */
  function Choose(n: nat, r: nat): nat {
    if r == 0 then 1 else if n == 0 then 0 else Choose(n - 1, r - 1) + Choose(n - 1, r)
  }

  /** `Ways(n, u)` is the number of multisets of `u` things out of `n` kinds. */
  function Ways(n: nat, u: nat): nat {
    if u == 0 then 1 else if n == 0 then 0 else Ways(n - 1, u) + Ways(n, u - 1)
  }

  lemma {:induction false} ChooseNone(n: nat, r: nat)
    requires r > n
    ensures Choose(n, r) == 0
  {
    if n > 0 {
      ChooseNone(n - 1, r - 1);
      ChooseNone(n - 1, r);
    }
  }

  lemma {:induction false} WaysIsChoose(n: nat, u: nat)
    ensures Ways(n + 1, u) == Choose(n + u, u)
    decreases n + u
  {
    if u > 0 {
      WaysIsChoose(n, u - 1);
      if n > 0 { WaysIsChoose(n - 1, u); } else { ChooseNone(u - 1, u); }
    }
  }

  lemma {:induction false} WaysGrow(n: nat, m: nat, u: nat)
    requires n <= m
    ensures Ways(n, u) <= Ways(m, u)
    decreases m
  {
    if n < m && u > 0 { WaysGrow(n, m - 1, u); }
  }

  function TotalWays(n: nat, e: nat): nat {
    if e == 0 then 0 else TotalWays(n, e - 1) + Ways(n, e)
  }

  lemma {:induction false} TotalIsNextRow(n: nat, e: nat)
    ensures TotalWays(n, e) + 1 == Ways(n + 1, e)
  {
    if e > 0 { TotalIsNextRow(n, e - 1); }
  }

  // ---- values held ----

  /** How many of the values lie below `u`. */
  function Below(a: seq<int>, u: int): (n: nat)
    ensures n <= |a|
  {
    if a == [] then 0 else Below(a[..|a| - 1], u) + if a[|a| - 1] < u then 1 else 0
  }

  /** What can have been spent when the values in hand are `a`: nothing while all are at least `e`. */
  function Reach(a: seq<int>, e: nat): nat {
    if e == 0 then 0 else Reach(a, e - 1) + Ways(Below(a, e), e)
  }

  lemma {:induction false} BelowGrows(a: seq<int>, u: int, v: int)
    requires u <= v
    ensures Below(a, u) <= Below(a, v)
  {
    if a != [] { BelowGrows(a[..|a| - 1], u, v); }
  }

  /** Nothing is spent at the start, when every value in hand is the whole quota. */
  lemma {:induction false} ReachStart(a: seq<int>, e: nat)
    requires forall i :: 0 <= i < |a| ==> a[i] >= e
    ensures Reach(a, e) == 0
  {
    if e > 0 {
      ReachStart(a, e - 1);
      NoneBelow(a, e);
    }
  }

  lemma {:induction false} NoneBelow(a: seq<int>, u: int)
    requires forall i :: 0 <= i < |a| ==> a[i] >= u
    ensures Below(a, u) == 0
  {
    if a != [] { NoneBelow(a[..|a| - 1], u); }
  }

  lemma {:induction false} ReachEnd(a: seq<int>, e: nat)
    ensures Reach(a, e) <= TotalWays(|a|, e)
  {
    if e > 0 {
      ReachEnd(a, e - 1);
      WaysGrow(Below(a, e), |a|, e);
    }
  }

  /** The holder of `h` at `j` writes `h - 1` back; every other value stays, or follows the counter to `h - 1`. */
  ghost predicate WroteBack(a: seq<int>, b: seq<int>, j: nat, h: int) {
    && |a| == |b| && j < |a| && a[j] == h && b[j] == h - 1
    && forall i :: 0 <= i < |a| && i != j ==> b[i] == a[i] || b[i] == h - 1
  }

  lemma {:induction false} BelowAfter(a: seq<int>, b: seq<int>, j: nat, h: int, u: int)
    requires WroteBack(a, b, j, h) && u >= h
    ensures Below(b, u) >= Below(a, u) + if u == h then 1 else 0
  {
    var a', b' := a[..|a| - 1], b[..|b| - 1];
    if j == |a| - 1 {
      BelowAside(a', b', h, u);
    } else {
      assert WroteBack(a', b', j, h);
      BelowAfter(a', b', j, h, u);
    }
  }

  lemma {:induction false} BelowAside(a: seq<int>, b: seq<int>, h: int, u: int)
    requires |a| == |b| && u >= h && forall i :: 0 <= i < |a| ==> b[i] == a[i] || b[i] == h - 1
    ensures Below(b, u) >= Below(a, u)
  {
    if a != [] { BelowAside(a[..|a| - 1], b[..|b| - 1], h, u); }
  }

  lemma {:induction false} ReachBelow(a: seq<int>, e: nat, h: nat)
    requires e <= h
    ensures Reach(a, e) <= TotalWays(Below(a, h), e)
  {
    if e > 0 {
      ReachBelow(a, e - 1, h);
      BelowGrows(a, e, h);
      WaysGrow(Below(a, e), Below(a, h), e);
    }
  }

  /** Writing back is paid for: however far back the counter goes, the reach grows by one. */
  lemma {:induction false} ReachAfter(a: seq<int>, b: seq<int>, j: nat, h: nat, e: nat)
    requires WroteBack(a, b, j, h) && 1 <= h <= e
    ensures Reach(b, e) >= Reach(a, e) + 1
  {
    BelowAfter(a, b, j, h, e);
    if e > h {
      ReachAfter(a, b, j, h, e - 1);
      WaysGrow(Below(a, e), Below(b, e), e);
    } else {
      var n := Below(a, h);
      ReachBelow(a, h - 1, h);
      TotalIsNextRow(n, h - 1);
      WaysGrow(n + 1, Below(b, h), h);
    }
  }

  /** The worst case of `k` concurrent spenders of a quota `e`. */
  function WorstCase(k: nat, e: nat): int {
    Choose(k + e, e) - 1
  }

  lemma ReachIsBounded(a: seq<int>, e: nat)
    ensures Reach(a, e) <= WorstCase(|a|, e)
  {
    ReachEnd(a, e);
    TotalIsNextRow(|a|, e);
    WaysIsChoose(|a|, e);
  }

  /** One spender at a time spends exactly the quota at most. */
  lemma {:induction false} AloneIsExact(e: nat)
    ensures WorstCase(1, e) == e
  {
    WaysIsChoose(1, e);
    if e > 0 {
      AloneIsExact(e - 1);
      WaysIsChoose(1, e - 1);
      WaysOfOne(e);
    }
  }

  lemma {:induction false} WaysOfOne(e: nat)
    ensures Ways(1, e) == 1
  {
    if e > 0 { WaysOfOne(e - 1); }
  }

  /** A coarser bound, by how often each level can be reached from the one above. */
  function Levels(k: nat, h: nat): nat {
    if h == 0 then 0 else 1 + k * Levels(k, h - 1)
  }

  lemma {:induction false} WaysStep(n: nat, u: nat)
    requires u > 0
    ensures Ways(n, u) <= n * Ways(n, u - 1)
  {
    if n > 0 {
      WaysStep(n - 1, u);
      WaysGrow(n - 1, n, u - 1);
      assert (n - 1) * Ways(n - 1, u - 1) <= (n - 1) * Ways(n, u - 1);
      assert n * Ways(n, u - 1) == (n - 1) * Ways(n, u - 1) + Ways(n, u - 1);
    }
  }

  lemma Times(k: nat, x: int, y: int)
    requires x <= y
    ensures k * x <= k * y
  {}

  lemma Spread(k: nat, x: int, y: int)
    ensures k * (x + y) == k * x + k * y
  {}

  lemma {:induction false} TotalStep(k: nat, e: nat)
    ensures TotalWays(k, e + 1) <= k + k * TotalWays(k, e)
  {
    WaysStep(k, e + 1);
    if e == 0 {
      assert Ways(k, 0) == 1;
    } else {
      TotalStep(k, e - 1);
      Spread(k, TotalWays(k, e - 1), Ways(k, e));
    }
  }

  lemma {:induction false} TotalIsWithinLevels(k: nat, e: nat)
    ensures TotalWays(k, e) <= k * Levels(k, e)
  {
    if e > 0 {
      TotalIsWithinLevels(k, e - 1);
      TotalStep(k, e - 1);
      var deeper := k * Levels(k, e - 1);
      Times(k, TotalWays(k, e - 1), deeper);
      Spread(k, 1, deeper);
    }
  }

  lemma WorstCaseIsWithinLevels(k: nat, e: nat)
    ensures WorstCase(k, e) <= k * Levels(k, e)
  {
    TotalIsWithinLevels(k, e);
    TotalIsNextRow(k, e);
    WaysIsChoose(k, e);
  }
}
