/**
 * Per-domain calibration: the threshold sweep, the exact binomial safety test, and which threshold is adopted, with
 * what the shipped settings make of small domains.
 */
module ThresholdSweep {
  import opened Basics

  /** A labelled pair: similarity, and whether reuse would be safe. */
  datatype Pair = Pair(similarity: real, safe: bool)

  /** Thresholds count ten-thousandths. */
  const UNIT := 10000.0

  predicate IsHit(p: Pair, threshold: int) {
    p.similarity >= threshold as real / UNIT
  }

  // ----- the binomial test -----

  /** What is expected after one trial that succeeds with probability `p`. */
  ghost function Mix(p: real, success: real, failure: real): real {
    p * success + (1.0 - p) * failure
  }

  lemma MixAdds(p: real, a: real, b: real, c: real, d: real)
    ensures Mix(p, a + c, b + d) == Mix(p, a, b) + Mix(p, c, d)
  {
  }

  lemma MixOrder(p: real, a: real, b: real)
    requires 0.0 <= p <= 1.0 && a <= b
    ensures a <= Mix(p, a, b) <= b
  {
    ProductNonnegative(p, b - a);
    ProductNonnegative(1.0 - p, b - a);
  }

  lemma ProductNonnegative(x: real, y: real)
    requires x >= 0.0 && y >= 0.0
    ensures x * y >= 0.0
  {
  }

  lemma MixNonnegative(p: real, a: real, b: real)
    requires 0.0 <= p <= 1.0 && a >= 0.0 && b >= 0.0
    ensures Mix(p, a, b) >= 0.0
  {
    ProductNonnegative(p, a);
    ProductNonnegative(1.0 - p, b);
  }

  lemma MixZero(p: real, b: real)
    ensures Mix(p, 0.0, b) == (1.0 - p) * b && Mix(p, 0.0, 0.0) == 0.0
  {
  }

  /** The probability of exactly `k` successes in `n` independent trials of probability `p`. */
  ghost function Mass(k: int, n: nat, p: real): real
    decreases n
  {
    if n == 0 then (if k == 0 then 1.0 else 0.0) else Mix(p, Mass(k - 1, n - 1, p), Mass(k, n - 1, p))
  }

  /** The probability of at most `k` successes. */
  ghost function Tail(k: int, n: nat, p: real): real
    decreases if k < 0 then 0 else k + 1
  {
    if k < 0 then 0.0 else Tail(k - 1, n, p) + Mass(k, n, p)
  }

  ghost function Power(x: real, n: nat): real {
    if n == 0 then 1.0 else x * Power(x, n - 1)
  }

  lemma {:induction false} MassNonnegative(k: int, n: nat, p: real)
    requires 0.0 <= p <= 1.0
    ensures Mass(k, n, p) >= 0.0
    decreases n
  {
    hide Mix;
    if n > 0 {
      MassNonnegative(k - 1, n - 1, p);
      MassNonnegative(k, n - 1, p);
      MixNonnegative(p, Mass(k - 1, n - 1, p), Mass(k, n - 1, p));
    }
  }

  lemma {:induction false} MassNegative(k: int, n: nat, p: real)
    requires k < 0
    ensures Mass(k, n, p) == 0.0
    decreases n
  {
    hide Mix;
    if n > 0 {
      MassNegative(k - 1, n - 1, p);
      MassNegative(k, n - 1, p);
      MixZero(p, 0.0);
    }
  }

  lemma TailUnfold(k: int, n: nat, p: real)
    ensures Tail(k, n, p) == Tail(k - 1, n, p) + Mass(k, n, p)
  {
    hide Mix;
    if k < 0 {
      MassNegative(k, n, p);
    }
  }

  /** Conditioning on one trial. */
  lemma {:induction false} TailStep(k: int, n: nat, p: real)
    requires n > 0
    ensures Tail(k, n, p) == Mix(p, Tail(k - 1, n - 1, p), Tail(k, n - 1, p))
    decreases if k < 0 then 0 else k + 1
  {
    hide Mix;
    if k < 0 {
      MixZero(p, 0.0);
    } else {
      TailStep(k - 1, n, p);
      MixAdds(p, Tail(k - 2, n - 1, p), Tail(k - 1, n - 1, p), Mass(k - 1, n - 1, p), Mass(k, n - 1, p));
      TailUnfold(k - 1, n - 1, p);
      TailUnfold(k, n - 1, p);
    }
  }

  lemma {:induction false} TailGrows(j: int, k: int, n: nat, p: real)
    requires 0.0 <= p <= 1.0 && j <= k
    ensures Tail(j, n, p) <= Tail(k, n, p)
    decreases k - j
  {
    hide Mix;
    if j < k {
      TailGrows(j, k - 1, n, p);
      TailUnfold(k, n, p);
      MassNonnegative(k, n, p);
    }
  }

  /** More trials make it less likely to stay within the same number of successes. */
  lemma {:induction false} TailShrinks(k: int, n: nat, m: nat, p: real)
    requires 0.0 <= p <= 1.0 && n <= m
    ensures Tail(k, m, p) <= Tail(k, n, p)
    decreases m - n
  {
    hide Mix;
    if n < m {
      TailShrinks(k, n, m - 1, p);
      TailStep(k, m, p);
      TailGrows(k - 1, k, m - 1, p);
      MixOrder(p, Tail(k - 1, m - 1, p), Tail(k, m - 1, p));
    }
  }

  lemma {:induction false} TailOfNone(n: nat, p: real)
    ensures Tail(0, n, p) == Power(1.0 - p, n)
  {
    hide Mix;
    TailUnfold(0, n, p);
    if n > 0 {
      TailOfNone(n - 1, p);
      TailUnfold(0, n - 1, p);
      MassNegative(-1, n - 1, p);
      MixZero(p, Mass(0, n - 1, p));
    }
  }

  /** The settings of the test: the ceiling on the upper confidence bound, and half the error probability. */
  datatype Test = Test(ceiling: real, halfAlpha: real)

  const SAFETY := Test(0.1, 0.025)

  /**
   * The upper Clopper-Pearson bound for `fp` of `hits` is at most the ceiling: by the duality of the beta
   * quantile with the binomial tail, `fp` or fewer would be rare enough at the ceiling itself. With every
   * hit false the bound is one.
   */
  ghost predicate Clears(t: Test, fp: nat, hits: nat) {
    hits > 0 && if fp == hits then 1.0 <= t.ceiling else Tail(fp, hits, t.ceiling) <= t.halfAlpha
  }

  /** Fewer false positives, or more hits with as many, never turn a passing point into a failing one. */
  lemma ClearingIsMonotone(t: Test, fp: nat, hits: nat, less: nat, more: nat)
    requires 0.0 <= t.ceiling < 1.0 && fp <= hits && Clears(t, fp, hits) && less <= fp && hits <= more
    ensures Clears(t, less, more)
  {
    TailGrows(less, fp, hits, t.ceiling);
    TailShrinks(less, hits, more, t.ceiling);
  }

  lemma {:induction false} PowerAdd(x: real, m: nat, n: nat)
    ensures Power(x, m + n) == Power(x, m) * Power(x, n)
  {
    if m > 0 {
      PowerAdd(x, m - 1, n);
    }
  }

  /** The number of ways to choose `k` of `n`. */
  ghost function Choose(n: nat, k: int): nat
    decreases n
  {
    if n == 0 then (if k == 0 then 1 else 0) else Choose(n - 1, k - 1) + Choose(n - 1, k)
  }

  lemma {:induction false} ChooseRange(n: nat, k: int)
    requires k < 0 || k > n
    ensures Choose(n, k) == 0
    decreases n
  {
    if n > 0 {
      ChooseRange(n - 1, k - 1);
      ChooseRange(n - 1, k);
    }
  }

  ghost function Binomial(k: int, n: nat, p: real): real {
    if 0 <= k <= n then Choose(n, k) as real * (Power(p, k) * Power(1.0 - p, n - k)) else 0.0
  }

  lemma Regroup(p: real, q: real, a: real, b: real, c: real, d: real)
    ensures p * (c * (a * (q * b))) + q * (d * ((p * a) * b)) == (c + d) * ((p * a) * (q * b))
    ensures q * (d * (1.0 * b)) == d * (1.0 * (q * b)) && p * (c * (a * 1.0)) == c * ((p * a) * 1.0)
  {
    assert p * (c * (a * (q * b))) == c * ((p * a) * (q * b));
    assert q * (d * ((p * a) * b)) == d * ((p * a) * (q * b));
  }

  /** Pascal's rule, weighted. */
  lemma BinomialStep(k: int, n: nat, p: real)
    requires n > 0
    ensures Binomial(k, n, p) == p * Binomial(k - 1, n - 1, p) + (1.0 - p) * Binomial(k, n - 1, p)
  {
    var q := 1.0 - p;
    if 0 < k < n {
      Regroup(p, q, Power(p, k - 1), Power(q, n - 1 - k), Choose(n - 1, k - 1) as real, Choose(n - 1, k) as real);
    } else if k == 0 {
      ChooseRange(n - 1, -1);
      Regroup(p, q, 1.0, Power(q, n - 1), 0.0, Choose(n - 1, 0) as real);
    } else if k == n {
      ChooseRange(n - 1, n);
      Regroup(p, q, Power(p, n - 1), 1.0, Choose(n - 1, n - 1) as real, 0.0);
    }
  }

  /** The declared probabilities are the binomial ones. */
  lemma {:induction false} MassIsBinomial(k: int, n: nat, p: real)
    ensures Mass(k, n, p) == Binomial(k, n, p)
    decreases n
  {
    if n > 0 {
      MassIsBinomial(k - 1, n - 1, p);
      MassIsBinomial(k, n - 1, p);
      BinomialStep(k, n, p);
      hide Binomial;
    }
  }

  lemma NinetyPercentPowers()
    ensures Power(0.9, 35) > 0.025 >= Power(0.9, 36)
  {
    assert Power(0.9, 2) == 0.81;
    PowerAdd(0.9, 2, 2);
    PowerAdd(0.9, 4, 4);
    PowerAdd(0.9, 8, 8);
    PowerAdd(0.9, 16, 16);
    PowerAdd(0.9, 32, 3);
    assert Power(0.9, 3) == 0.9 * Power(0.9, 2);
  }

  lemma NoneOfThirtyFive()
    ensures Tail(0, 35, 0.1) > 0.025 >= Tail(0, 36, 0.1)
  {
    hide Tail, Power;
    NinetyPercentPowers();
    TailOfNone(35, 0.1);
    TailOfNone(36, 0.1);
  }

  /** Thirty-six hits are necessary whatever the labels, and sufficient when none of them is false. */
  lemma ThirtySixHits(fp: nat, hits: nat)
    requires fp <= hits
    ensures Clears(SAFETY, fp, hits) ==> hits >= 36
    ensures fp == 0 ==> (Clears(SAFETY, fp, hits) <==> hits >= 36)
  {
    hide Tail;
    NoneOfThirtyFive();
    if hits <= 35 {
      TailShrinks(0, hits, 35, 0.1);
      TailGrows(0, fp, hits, 0.1);
    } else {
      TailShrinks(0, 36, hits, 0.1);
    }
  }

  // ----- the sweep -----

  datatype Confusion = Confusion(tp: nat, fp: nat, fn: nat, tn: nat)

  /** The four outcomes of predicting a hit from the threshold on. */
  function ConfusionAt(pairs: seq<Pair>, threshold: int): Confusion {
    if pairs == [] then Confusion(0, 0, 0, 0)
    else
      var c, p := ConfusionAt(pairs[..|pairs| - 1], threshold), pairs[|pairs| - 1];
      if IsHit(p, threshold) then (if p.safe then c.(tp := c.tp + 1) else c.(fp := c.fp + 1))
      else if p.safe then c.(fn := c.fn + 1)
      else c.(tn := c.tn + 1)
  }

  function SafeCount(pairs: seq<Pair>): (n: nat)
    ensures n <= |pairs|
  {
    if pairs == [] then 0 else SafeCount(pairs[..|pairs| - 1]) + if pairs[|pairs| - 1].safe then 1 else 0
  }

  /** Every pair is counted once, and the safe ones are the true positives and the false negatives. */
  lemma {:induction false} ConfusionPartitions(pairs: seq<Pair>, threshold: int)
    ensures var c := ConfusionAt(pairs, threshold);
      c.tp + c.fp + c.fn + c.tn == |pairs| && c.tp + c.fn == SafeCount(pairs)
  {
    if pairs == [] {
    } else {
      ConfusionPartitions(pairs[..|pairs| - 1], threshold);
    }
  }

  /** Raising the threshold never adds a hit, true or false. */
  lemma {:induction false} HitsFall(pairs: seq<Pair>, low: int, high: int)
    requires low <= high
    ensures ConfusionAt(pairs, high).tp <= ConfusionAt(pairs, low).tp
    ensures ConfusionAt(pairs, high).fp <= ConfusionAt(pairs, low).fp
  {
    if pairs == [] {
    } else {
      HitsFall(pairs[..|pairs| - 1], low, high);
      assert IsHit(pairs[|pairs| - 1], high) ==> IsHit(pairs[|pairs| - 1], low);
    }
  }

  /** The pairs with this label whose similarity reaches the threshold, or does not; thresholds are ten-thousandths. */
  ghost function Labelled(pairs: seq<Pair>, threshold: int, hit: bool, safe: bool): set<nat> {
    set i | 0 <= i < |pairs| && (pairs[i].similarity * 10000.0 >= threshold as real) == hit && pairs[i].safe == safe
  }

  lemma LabelledMore(pairs: seq<Pair>, p: Pair, threshold: int, hit: bool, safe: bool)
    ensures |Labelled(pairs + [p], threshold, hit, safe)|
      == |Labelled(pairs, threshold, hit, safe)|
         + if (p.similarity * 10000.0 >= threshold as real) == hit && p.safe == safe then 1 else 0
  {
    var before, after := Labelled(pairs, threshold, hit, safe), Labelled(pairs + [p], threshold, hit, safe);
    var joins := (p.similarity * 10000.0 >= threshold as real) == hit && p.safe == safe;
    assert after == before + if joins then {|pairs|} else {};
  }

  /** The four numbers count the pairs above and below the threshold by their label. */
  lemma {:induction false} ConfusionCounts(pairs: seq<Pair>, threshold: int)
    ensures var c := ConfusionAt(pairs, threshold);
      && c.tp == |Labelled(pairs, threshold, true, true)| && c.fp == |Labelled(pairs, threshold, true, false)|
      && c.fn == |Labelled(pairs, threshold, false, true)| && c.tn == |Labelled(pairs, threshold, false, false)|
  {
    hide Labelled;
    if pairs == [] {
      NothingLabelled(threshold);
    } else {
      var n := |pairs| - 1;
      ConfusionCounts(pairs[..n], threshold);
      assert pairs == pairs[..n] + [pairs[n]];
      LabelledMore(pairs[..n], pairs[n], threshold, true, true);
      LabelledMore(pairs[..n], pairs[n], threshold, true, false);
      LabelledMore(pairs[..n], pairs[n], threshold, false, true);
      LabelledMore(pairs[..n], pairs[n], threshold, false, false);
    }
  }

  lemma NothingLabelled(threshold: int)
    ensures forall hit, safe :: Labelled([], threshold, hit, safe) == {}
  {
  }

  datatype Point = Point(threshold: int, confusion: Confusion, clears: bool)

  function Hits(c: Confusion): nat {
    c.tp + c.fp
  }

  /** The point of the sweep at a threshold. */
  ghost predicate IsPoint(t: Test, pairs: seq<Pair>, threshold: int, p: Point) {
    && p.threshold == threshold && p.confusion == ConfusionAt(pairs, threshold)
    && (p.clears <==> Clears(t, p.confusion.fp, Hits(p.confusion)))
  }

  /** One point per threshold from `start` in steps, none above `stop`. */
  ghost predicate SweepsTo(t: Test, pairs: seq<Pair>, start: int, stop: int, step: int, points: seq<Point>) {
    forall i :: 0 <= i < |points| ==> IsPoint(t, pairs, At(start, step, i), points[i]) && At(start, step, i) <= stop
  }

  ghost predicate IsSweep(t: Test, pairs: seq<Pair>, start: int, stop: int, step: int, points: seq<Point>) {
    SweepsTo(t, pairs, start, stop, step, points) && At(start, step, |points|) > stop
  }

  /** A computed test that decides the declared one. */
  ghost predicate Decides(test: (nat, nat) -> bool, t: Test) {
    forall fp: nat, hits: nat :: fp <= hits ==> (test(fp, hits) <==> Clears(t, fp, hits))
  }

  /** The threshold after `i` steps. */
  function At(start: int, step: int, i: nat): int {
    if i == 0 then start else At(start, step, i - 1) + step
  }

  /**
   * The sweep over one domain. The verdicts of the exact test are given, since a quantile cannot be
   * computed here: one per point, each deciding the declared test.
   */
  method Sweep(t: Test, pairs: seq<Pair>, start: int, stop: int, step: int, test: (nat, nat) -> bool) returns (points: seq<Point>)
    requires step >= 1
    requires Decides(test, t)
    ensures IsSweep(t, pairs, start, stop, step, points)
  {
    var current := start;
    points := [];
    while current <= stop
      invariant current == At(start, step, |points|) && SweepsTo(t, pairs, start, stop, step, points)
      decreases stop - current
    {
      var point := Measure(t, pairs, current, test);
      SweepOneMore(t, pairs, start, stop, step, points, point);
      hide SweepsTo, IsPoint, Decides;
      points := points + [point];
      current := current + step;
    }
  }

  lemma SweepOneMore(t: Test, pairs: seq<Pair>, start: int, stop: int, step: int, points: seq<Point>, p: Point)
    requires SweepsTo(t, pairs, start, stop, step, points)
    requires IsPoint(t, pairs, At(start, step, |points|), p) && At(start, step, |points|) <= stop
    ensures SweepsTo(t, pairs, start, stop, step, points + [p])
  {
    hide IsPoint, At;
  }

  method Measure(t: Test, pairs: seq<Pair>, threshold: int, test: (nat, nat) -> bool) returns (p: Point)
    requires Decides(test, t)
    ensures IsPoint(t, pairs, threshold, p)
  {
    hide Clears, ConfusionAt;
    var c := Confuse(pairs, threshold);
    p := Point(threshold, c, test(c.fp, Hits(c)));
  }

  method Confuse(pairs: seq<Pair>, threshold: int) returns (c: Confusion)
    ensures c == ConfusionAt(pairs, threshold)
  {
    c := Confusion(0, 0, 0, 0);
    for i := 0 to |pairs|
      invariant c == ConfusionAt(pairs[..i], threshold)
    {
      assert pairs[..i + 1][..i] == pairs[..i];
      if IsHit(pairs[i], threshold) {
        c := if pairs[i].safe then c.(tp := c.tp + 1) else c.(fp := c.fp + 1);
      } else {
        c := if pairs[i].safe then c.(fn := c.fn + 1) else c.(tn := c.tn + 1);
      }
    }
    assert pairs[..|pairs|] == pairs;
  }

  // ----- calibration -----

  datatype Reason = SampleTooSmall | MinorityTooSmall | NothingCleared

  /** The adopted operating threshold, or the fallback with the reason for it. */
  datatype Calibration = Adopted(threshold: int, hits: nat) | Fallback(threshold: int, reason: Reason)

  datatype Gates = Gates(minimumPairs: nat, minimumMinority: nat, fallback: int)

  const GATES := Gates(20, 10, 8500)

  /** Some threshold of the sweep grid. */
  ghost predicate OnGrid(start: int, stop: int, step: int, threshold: int) {
    exists i: nat :: At(start, step, i) == threshold && threshold <= stop
  }

  ghost predicate ClearsAt(t: Test, pairs: seq<Pair>, threshold: int) {
    Clears(t, ConfusionAt(pairs, threshold).fp, Hits(ConfusionAt(pairs, threshold)))
  }

  method CountSafe(pairs: seq<Pair>) returns (safe: nat)
    ensures safe == SafeCount(pairs)
  {
    safe := 0;
    for i := 0 to |pairs|
      invariant safe == SafeCount(pairs[..i])
    {
      assert pairs[..i + 1][..i] == pairs[..i];
      if pairs[i].safe {
        safe := safe + 1;
      }
    }
    assert pairs[..|pairs|] == pairs;
  }

  /**
   * Both sample gates first; then the lowest threshold of the grid that clears is adopted, and if none
   * does the fallback stays.
   */
  method Calibrate(t: Test, gates: Gates, pairs: seq<Pair>, start: int, stop: int, step: int, test: (nat, nat) -> bool)
    returns (r: Calibration)
    requires step >= 1
    requires Decides(test, t)
    ensures r == Fallback(gates.fallback, SampleTooSmall) <==> |pairs| < gates.minimumPairs
    ensures r == Fallback(gates.fallback, MinorityTooSmall) <==>
      |pairs| >= gates.minimumPairs && (SafeCount(pairs) < gates.minimumMinority || |pairs| - SafeCount(pairs) < gates.minimumMinority)
    ensures r == Fallback(gates.fallback, NothingCleared) <==>
      && |pairs| >= gates.minimumPairs && SafeCount(pairs) >= gates.minimumMinority
      && |pairs| - SafeCount(pairs) >= gates.minimumMinority
      && forall x :: OnGrid(start, stop, step, x) ==> !ClearsAt(t, pairs, x)
    ensures r.Fallback? ==> r.threshold == gates.fallback
    ensures r.Adopted? ==>
      && OnGrid(start, stop, step, r.threshold) && ClearsAt(t, pairs, r.threshold) && r.hits == Hits(ConfusionAt(pairs, r.threshold))
      && forall x :: OnGrid(start, stop, step, x) && x < r.threshold ==> !ClearsAt(t, pairs, x)
  {
    var safe := CountSafe(pairs);
    var unsafe := |pairs| - safe;
    var minority := if safe < unsafe then safe else unsafe;
    if |pairs| < gates.minimumPairs {
      return Fallback(gates.fallback, SampleTooSmall);
    }
    if minority < gates.minimumMinority {
      return Fallback(gates.fallback, MinorityTooSmall);
    }
    var points := Sweep(t, pairs, start, stop, step, test);
    var best := LowestClearing(points);
    forall x | OnGrid(start, stop, step, x)
      ensures exists i :: 0 <= i < |points| && points[i].threshold == x && (points[i].clears <==> ClearsAt(t, pairs, x))
    {
      GridPoint(t, pairs, start, stop, step, points, x);
    }
    if best.Some? {
      assert IsPoint(t, pairs, At(start, step, best.value), points[best.value]);
      assert OnGrid(start, stop, step, points[best.value].threshold) && ClearsAt(t, pairs, points[best.value].threshold);
      r := Adopted(points[best.value].threshold, Hits(points[best.value].confusion));
    } else {
      r := Fallback(gates.fallback, NothingCleared);
    }
  }

  /** The qualifying point with the least threshold. */
  method LowestClearing(points: seq<Point>) returns (best: Option<nat>)
    ensures best.None? <==> forall i :: 0 <= i < |points| ==> !points[i].clears
    ensures best.Some? ==>
      && best.value < |points| && points[best.value].clears
      && forall i :: 0 <= i < |points| && points[i].clears ==> points[best.value].threshold <= points[i].threshold
  {
    best := None;
    for i := 0 to |points|
      invariant best.None? <==> forall j :: 0 <= j < i ==> !points[j].clears
      invariant best.Some? ==>
        && best.value < i && points[best.value].clears
        && forall j :: 0 <= j < i && points[j].clears ==> points[best.value].threshold <= points[j].threshold
    {
      if points[i].clears && (best.None? || points[i].threshold < points[best.value].threshold) {
        best := Some(i);
      }
    }
  }

  lemma GridPoint(t: Test, pairs: seq<Pair>, start: int, stop: int, step: int, points: seq<Point>, x: int)
    requires step >= 1 && IsSweep(t, pairs, start, stop, step, points) && OnGrid(start, stop, step, x)
    ensures exists i :: 0 <= i < |points| && points[i].threshold == x && (points[i].clears <==> ClearsAt(t, pairs, x))
  {
    hide Clears;
    var i: nat :| At(start, step, i) == x && x <= stop;
    if i >= |points| {
      GridGrows(start, step, |points|, i);
    }
    assert IsPoint(t, pairs, At(start, step, i), points[i]);
  }

  lemma {:induction false} GridGrows(start: int, step: int, i: nat, j: nat)
    requires step >= 1 && i <= j
    ensures At(start, step, i) <= At(start, step, j)
  {
    if i < j {
      GridGrows(start, step, i, j - 1);
    }
  }

  /** With the shipped safety test, a domain with fewer than 36 hits at the lowest threshold never adopts one. */
  lemma SmallDomainsFallBack(pairs: seq<Pair>, start: int, stop: int, step: int, x: int)
    requires step >= 1 && OnGrid(start, stop, step, x)
    requires Hits(ConfusionAt(pairs, start)) < 36
    ensures !ClearsAt(SAFETY, pairs, x)
  {
    var i: nat :| At(start, step, i) == x && x <= stop;
    GridGrows(start, step, 0, i);
    HitsFall(pairs, start, x);
    ThirtySixHits(ConfusionAt(pairs, x).fp, Hits(ConfusionAt(pairs, x)));
  }

  /** In particular every domain with fewer than 36 pairs falls back, although the gates let 20 pass. */
  lemma FewPairsFallBack(pairs: seq<Pair>, start: int, stop: int, step: int, x: int)
    requires step >= 1 && OnGrid(start, stop, step, x) && |pairs| < 36
    ensures !ClearsAt(SAFETY, pairs, x)
  {
    ConfusionPartitions(pairs, start);
    SmallDomainsFallBack(pairs, start, stop, step, x);
  }

  lemma {:induction false} GridIs(start: int, step: int, i: nat)
    ensures At(start, step, i) == start + step * i
  {
    if i > 0 {
      GridIs(start, step, i - 1);
    }
  }

  /**
   * Calibration as shipped: 20 pairs with 10 of either label at least, thresholds 0.50 to 0.95 by 0.01, a ceiling of
   * one in ten, the lowest that clears or else 0.85.
   */
  method CalibrateDomain(pairs: seq<Pair>, test: (nat, nat) -> bool) returns (r: Calibration)
    requires Decides(test, SAFETY)
    ensures r == Fallback(8500, SampleTooSmall) <==> |pairs| < 20
    ensures r == Fallback(8500, MinorityTooSmall) <==> |pairs| >= 20 && (SafeCount(pairs) < 10 || |pairs| - SafeCount(pairs) < 10)
    ensures r.Fallback? ==> r.threshold == 8500
    ensures r.Fallback? && r.reason == NothingCleared ==>
      forall k: nat {:trigger ClearsAt(SAFETY, pairs, 5000 + 100 * k)} :: k <= 45 ==> !ClearsAt(SAFETY, pairs, 5000 + 100 * k)
    ensures r.Adopted? ==>
      && 5000 <= r.threshold <= 9500 && r.threshold % 100 == 0 && r.hits >= 36 && ClearsAt(SAFETY, pairs, r.threshold)
      && r.hits == |Labelled(pairs, r.threshold, true, true)| + |Labelled(pairs, r.threshold, true, false)|
      && forall k: nat {:trigger ClearsAt(SAFETY, pairs, 5000 + 100 * k)} ::
           5000 + 100 * k < r.threshold ==> !ClearsAt(SAFETY, pairs, 5000 + 100 * k)
    ensures Hits(ConfusionAt(pairs, 5000)) < 36 || |pairs| < 36 ==> r.Fallback?
  {
    hide ClearsAt, SafeCount, ConfusionAt, Labelled, Decides;
    r := Calibrate(SAFETY, GATES, pairs, 5000, 9500, 100, test);
    forall k: nat
      ensures At(5000, 100, k) == 5000 + 100 * k && (k <= 45 ==> OnGrid(5000, 9500, 100, 5000 + 100 * k))
    {
      GridIs(5000, 100, k);
    }
    if r.Adopted? {
      var i: nat :| At(5000, 100, i) == r.threshold && r.threshold <= 9500;
      ConfusionCounts(pairs, r.threshold);
      AdoptedHits(pairs, r.threshold);
      if Hits(ConfusionAt(pairs, 5000)) < 36 {
        SmallDomainsFallBack(pairs, 5000, 9500, 100, r.threshold);
      }
      if |pairs| < 36 {
        FewPairsFallBack(pairs, 5000, 9500, 100, r.threshold);
      }
    }
  }

  lemma AdoptedHits(pairs: seq<Pair>, threshold: int)
    requires ClearsAt(SAFETY, pairs, threshold)
    ensures Hits(ConfusionAt(pairs, threshold)) >= 36
  {
    ThirtySixHits(ConfusionAt(pairs, threshold).fp, Hits(ConfusionAt(pairs, threshold)));
  }
}
