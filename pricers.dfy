/** The payoff accumulators (include/PricerAbstract.hpp,
    src/PricerDerived.cpp). Each pricer receives finished paths one at a
    time, adds their payoffs to running sums and bumps a path counter; at
    the end it turns the sums into discounted prices.

    The counter starts at the constructor's `nSim`, not at zero, so after k
    paths it holds nSim + k and that is the divisor of every price. Each
    pricer keeps, as ghost state, the statistics of the paths it has seen,
    and its `Valid()` ties the sums to folds over them. */
module Pricers {
  import opened Numerics
  import opened PathStats

  /** The price `post_process` computes from a sum: discounted, then divided
      by the path counter. A zero counter would divide by zero (an IEEE
      infinity or NaN in the source), so it is excluded. */
  function Price(discount: real, sum: real, count: nat): (p: real)
    requires count > 0
    ensures p * count as real == discount * sum
  {
    discount * sum / count as real
  }

  /** k paths that each pay v, with the counter started at nSim: the sum is
      k v, so the price is the discounted v scaled by k / (nSim + k). It is
      the discounted payoff itself when the counter starts at zero and, for
      a non-zero discounted payoff, only then; it is half of it when the
      counter starts at the number of paths. */
  lemma {:induction false} PriceOfConstantPayoff(d: real, f: real -> real, xs: seq<real>, v: real, nSim: nat)
    requires |xs| > 0 && forall i :: 0 <= i < |xs| ==> f(xs[i]) == v
    ensures Price(d, SumOf(f, xs), nSim + |xs|) * (nSim + |xs|) as real == d * v * |xs| as real
    ensures nSim == 0 ==> Price(d, SumOf(f, xs), nSim + |xs|) == d * v
    ensures d * v != 0.0 && Price(d, SumOf(f, xs), nSim + |xs|) == d * v ==> nSim == 0
    ensures nSim == |xs| ==> Price(d, SumOf(f, xs), nSim + |xs|) == d * v / 2.0
  {
    SumOfConstant(f, xs, v);
    var n := (nSim + |xs|) as real;
    var s := |xs| as real * v;
    assert Price(d, s, nSim + |xs|) * n == d * s;
    if nSim == |xs| {
      assert n == 2.0 * |xs| as real;
    }
    if d * v != 0.0 && Price(d, s, nSim + |xs|) == d * v {
      assert (d * v) * nSim as real == 0.0 by {
        assert (d * v) * n == (d * v) * |xs| as real;
      }
    }
  }

  /** With the counter started at zero, the price lies between the
      discounted least and greatest payoff of the processed paths. */
  lemma PriceWithinPayoffs(d: real, f: real -> real, xs: seq<real>, lo: real, hi: real)
    requires |xs| > 0 && d >= 0.0
    requires forall i :: 0 <= i < |xs| ==> lo <= f(xs[i]) <= hi
    ensures d * lo <= Price(d, SumOf(f, xs), |xs|) <= d * hi
  {
    MeanWithin(f, xs, lo, hi);
    ScaleBetween(d, lo, SumOf(f, xs) / |xs| as real, hi);
    DiscountMean(d, SumOf(f, xs), |xs|);
  }

  /** Discounting the sum and then dividing is discounting the mean. */
  lemma DiscountMean(d: real, s: real, count: nat)
    requires count > 0
    ensures Price(d, s, count) == d * (s / count as real)
  {
    assert (s / count as real) * count as real == s;
  }

  /** A non-negative factor keeps an ordering. */
  lemma ScaleBetween(d: real, lo: real, m: real, hi: real)
    requires d >= 0.0 && lo <= m <= hi
    ensures d * lo <= d * m <= d * hi
  {
    assert d * (m - lo) >= 0.0 && d * (hi - m) >= 0.0;
  }

  /** The state of `PricerAbstract` that every pricer shares: the injected
      payoff and discount functions, the running sums, the counter and the
      prices. */
  class PricerState {
    const callPayoff: real -> real
    const putPayoff: real -> real
    const discounter: () -> real
    const nSim: nat
    var callPrice: real
    var putPrice: real
    var callSum: real
    var putSum: real
    var count: nat

    /** Sums and prices start at zero; the counter starts at nSim. */
    constructor (callPayoff: real -> real, putPayoff: real -> real, discounter: () -> real, nSim: nat)
      ensures this.callPayoff == callPayoff && this.putPayoff == putPayoff
      ensures this.discounter == discounter && this.nSim == nSim
      ensures callSum == 0.0 && putSum == 0.0 && callPrice == 0.0 && putPrice == 0.0
      ensures count == nSim
    {
      this.callPayoff, this.putPayoff, this.discounter, this.nSim := callPayoff, putPayoff, discounter, nSim;
      callPrice, putPrice, callSum, putSum, count := 0.0, 0.0, 0.0, 0.0, nSim;
    }

    /** `discount_factor()`: the injected discounter itself. */
    function DiscountFactor(): (d: () -> real)
      ensures d == discounter
    {
      discounter
    }

    /** `call_price()`: the stored call price; reading it changes nothing. */
    function CallPrice(): (p: real)
      reads this
      ensures p == callPrice
    {
      callPrice
    }

    /** `put_price()`: the stored put price; reading it changes nothing. */
    function PutPrice(): (p: real)
      reads this
      ensures p == putPrice
    {
      putPrice
    }
  }

  /** Pays the terminal payoff of each path. */
  class EuropeanPricer {
    const base: PricerState
    /** Terminal levels of the paths processed so far. */
    ghost var terminals: seq<real>

    ghost predicate Valid()
      reads this, base
    {
      && base.count == base.nSim + |terminals|
      && base.callSum == SumOf(base.callPayoff, terminals)
      && base.putSum == SumOf(base.putPayoff, terminals)
    }

    constructor (callPayoff: real -> real, putPayoff: real -> real, discounter: () -> real, nSim: nat)
      ensures Valid() && fresh(base) && terminals == []
      ensures base.callPayoff == callPayoff && base.putPayoff == putPayoff
      ensures base.discounter == discounter && base.nSim == nSim
      ensures base.callPrice == 0.0 && base.putPrice == 0.0
    {
      base := new PricerState(callPayoff, putPayoff, discounter, nSim);
      terminals := [];
    }

    /** Adds the call and put payoffs of the path's last level to the sums
        and counts the path once; nothing else changes. */
    method ProcessPath(path: seq<real>)
      requires Valid() && |path| > 0
      modifies base`callSum, base`putSum, base`count, this`terminals
      ensures Valid() && terminals == old(terminals) + [Last(path)]
      ensures base.callSum == old(base.callSum) + base.callPayoff(Last(path))
      ensures base.putSum == old(base.putSum) + base.putPayoff(Last(path))
      ensures base.count == old(base.count) + 1
    {
      base.callSum := base.callSum + base.callPayoff(path[|path| - 1]);
      base.putSum := base.putSum + base.putPayoff(path[|path| - 1]);
      base.count := base.count + 1;
      SumOfAppend(base.callPayoff, terminals, Last(path));
      SumOfAppend(base.putPayoff, terminals, Last(path));
      terminals := terminals + [Last(path)];
    }

    /** Sets each price to discount * sum / count, which is the discounted
        payoff summed over the processed paths divided by nSim plus their
        number; the sums and the counter are left as they are. The duration
        only goes to the display. */
    method PostProcess(duration: real)
      requires Valid() && base.count > 0
      modifies base`callPrice, base`putPrice
      ensures Valid()
      ensures base.callPrice == Price(base.discounter(), base.callSum, base.count)
      ensures base.putPrice == Price(base.discounter(), base.putSum, base.count)
      ensures base.callPrice
           == Price(base.discounter(), SumOf(base.callPayoff, terminals), base.nSim + |terminals|)
      ensures base.putPrice
           == Price(base.discounter(), SumOf(base.putPayoff, terminals), base.nSim + |terminals|)
    {
      base.callPrice := Price(base.discounter(), base.callSum, base.count);
      base.putPrice := Price(base.discounter(), base.putSum, base.count);
    }
  }

  /** Pays on the arithmetic and on the geometric average of each path. */
  class AsianPricer {
    const base: PricerState
    const math: Libm
    var geomCallSum: real
    var geomCallPrice: real
    var geomPutSum: real
    var geomPutPrice: real
    /** Arithmetic and geometric averages of the paths processed so far. */
    ghost var averages: seq<real>
    ghost var geomAverages: seq<real>

    ghost predicate Valid()
      reads this, base
    {
      && base.count == base.nSim + |averages|
      && |geomAverages| == |averages|
      && base.callSum == SumOf(base.callPayoff, averages)
      && base.putSum == SumOf(base.putPayoff, averages)
      && geomCallSum == SumOf(base.callPayoff, geomAverages)
      && geomPutSum == SumOf(base.putPayoff, geomAverages)
    }

    /** The shared state as for every pricer, and four more zeros. */
    constructor (callPayoff: real -> real, putPayoff: real -> real, discounter: () -> real, nSim: nat, math: Libm)
      ensures Valid() && fresh(base) && averages == [] && this.math == math
      ensures base.callPayoff == callPayoff && base.putPayoff == putPayoff
      ensures base.discounter == discounter && base.nSim == nSim
      ensures base.callPrice == 0.0 && base.putPrice == 0.0
      ensures geomCallPrice == 0.0 && geomPutPrice == 0.0
    {
      base := new PricerState(callPayoff, putPayoff, discounter, nSim);
      this.math := math;
      geomCallSum, geomCallPrice, geomPutSum, geomPutPrice := 0.0, 0.0, 0.0, 0.0;
      averages, geomAverages := [], [];
    }

    /** Adds the payoffs at the arithmetic average to the plain sums and the
        payoffs at the geometric average to the geometric sums, and counts
        the path once. */
    method ProcessPath(path: seq<real>)
      requires Valid() && |path| > 0
      modifies base`callSum, base`putSum, base`count, this`geomCallSum, this`geomPutSum
      modifies this`averages, this`geomAverages
      ensures Valid()
      ensures averages == old(averages) + [Average(path)]
      ensures geomAverages == old(geomAverages) + [GeometricAverage(math, path)]
      ensures base.callSum == old(base.callSum) + base.callPayoff(Average(path))
      ensures base.putSum == old(base.putSum) + base.putPayoff(Average(path))
      ensures geomCallSum == old(geomCallSum) + base.callPayoff(GeometricAverage(math, path))
      ensures geomPutSum == old(geomPutSum) + base.putPayoff(GeometricAverage(math, path))
      ensures base.count == old(base.count) + 1
    {
      var avg := Average(path);
      var geomAvg := GeometricAverage(math, path);
      SumOfAppend(base.callPayoff, averages, avg);
      SumOfAppend(base.putPayoff, averages, avg);
      SumOfAppend(base.callPayoff, geomAverages, geomAvg);
      SumOfAppend(base.putPayoff, geomAverages, geomAvg);
      averages, geomAverages := averages + [avg], geomAverages + [geomAvg];
      base.callSum := base.callSum + base.callPayoff(avg);
      geomCallSum := geomCallSum + base.callPayoff(geomAvg);
      base.putSum := base.putSum + base.putPayoff(avg);
      geomPutSum := geomPutSum + base.putPayoff(geomAvg);
      base.count := base.count + 1;
    }

    /** Four prices, each discount * sum / count; sums and counter unchanged. */
    method PostProcess(duration: real)
      requires Valid() && base.count > 0
      modifies base`callPrice, base`putPrice, this`geomCallPrice, this`geomPutPrice
      ensures Valid()
      ensures base.callPrice == Price(base.discounter(), base.callSum, base.count)
      ensures geomCallPrice == Price(base.discounter(), geomCallSum, base.count)
      ensures base.putPrice == Price(base.discounter(), base.putSum, base.count)
      ensures geomPutPrice == Price(base.discounter(), geomPutSum, base.count)
      ensures base.callPrice
           == Price(base.discounter(), SumOf(base.callPayoff, averages), base.nSim + |averages|)
      ensures geomCallPrice
           == Price(base.discounter(), SumOf(base.callPayoff, geomAverages), base.nSim + |averages|)
      ensures base.putPrice
           == Price(base.discounter(), SumOf(base.putPayoff, averages), base.nSim + |averages|)
      ensures geomPutPrice
           == Price(base.discounter(), SumOf(base.putPayoff, geomAverages), base.nSim + |averages|)
    {
      base.callPrice := Price(base.discounter(), base.callSum, base.count);
      geomCallPrice := Price(base.discounter(), geomCallSum, base.count);
      base.putPrice := Price(base.discounter(), base.putSum, base.count);
      geomPutPrice := Price(base.discounter(), geomPutSum, base.count);
    }
  }

  /** Pays the terminal payoff of a path only when its barrier condition
      holds. */
  class BarrierPricer {
    const base: PricerState
    var barrierType: BarrierType
    var barrierAmount: real
    /** Terminal levels of the processed paths that paid, and how many paths
        were processed in all. */
    ghost var paid: seq<real>
    ghost var processed: nat

    ghost predicate Valid()
      reads this, base
    {
      && base.count == base.nSim + processed
      && base.callSum == SumOf(base.callPayoff, paid)
      && base.putSum == SumOf(base.putPayoff, paid)
    }

    /** The shared state as for every pricer; barrier level 0 and the first
        barrier kind (the value-initialised enumeration). */
    constructor (callPayoff: real -> real, putPayoff: real -> real, discounter: () -> real, nSim: nat)
      ensures Valid() && fresh(base) && paid == [] && processed == 0
      ensures base.callPayoff == callPayoff && base.putPayoff == putPayoff
      ensures base.discounter == discounter && base.nSim == nSim
      ensures base.callPrice == 0.0 && base.putPrice == 0.0
      ensures barrierType == UpAndIn && barrierAmount == 0.0
    {
      base := new PricerState(callPayoff, putPayoff, discounter, nSim);
      barrierType, barrierAmount := UpAndIn, 0.0;
      paid, processed := [], 0;
    }

    /** Classifies the path by its extrema against the barrier; when the
        condition holds, adds the terminal call and put payoffs, and when it
        does not, leaves both sums alone. The path is counted either way. */
    method ProcessPath(path: seq<real>)
      requires Valid() && |path| > 0
      modifies base`callSum, base`putSum, base`count, this`paid, this`processed
      ensures Valid() && processed == old(processed) + 1
      ensures paid == old(paid) + if Pays(barrierType, barrierAmount, path) then [Last(path)] else []
      ensures Pays(barrierType, barrierAmount, path) ==>
        && base.callSum == old(base.callSum) + base.callPayoff(Last(path))
        && base.putSum == old(base.putSum) + base.putPayoff(Last(path))
      ensures !Pays(barrierType, barrierAmount, path) ==>
        base.callSum == old(base.callSum) && base.putSum == old(base.putSum)
      ensures base.count == old(base.count) + 1
    {
      var min, max := MinOf(path), MaxOf(path);
      var hit := match barrierType
        case UpAndIn => max >= barrierAmount
        case UpAndOut => max < barrierAmount
        case DownAndIn => min <= barrierAmount
        case DownAndOut => min > barrierAmount;
      if hit {
        base.callSum := base.callSum + base.callPayoff(path[|path| - 1]);
        base.putSum := base.putSum + base.putPayoff(path[|path| - 1]);
        SumOfAppend(base.callPayoff, paid, Last(path));
        SumOfAppend(base.putPayoff, paid, Last(path));
        paid := paid + [Last(path)];
      }
      base.count := base.count + 1;
      processed := processed + 1;
    }

    /** The path callback invoked once per path, in delivery order, as the
        mediator's run does: the paying terminal levels gathered are those
        `Paid` selects for the current kind and level, and every path is
        counted. */
    method ProcessPaths(paths: seq<seq<real>>)
      requires Valid() && forall i :: 0 <= i < |paths| ==> |paths[i]| > 0
      modifies base`callSum, base`putSum, base`count, this`paid, this`processed
      ensures Valid() && processed == old(processed) + |paths|
      ensures paid == old(paid) + Paid(barrierType, barrierAmount, paths)
    {
      var k := 0;
      while k < |paths|
        invariant 0 <= k <= |paths|
        invariant Valid() && processed == old(processed) + k
        invariant paid == old(paid) + Paid(barrierType, barrierAmount, paths[..k])
      {
        var p := paths[k];
        assert paths[..k + 1][..k] == paths[..k] && paths[..k + 1][k] == p;
        ghost var step := if Pays(barrierType, barrierAmount, p) then [Last(p)] else [];
        assert Paid(barrierType, barrierAmount, paths[..k + 1])
            == Paid(barrierType, barrierAmount, paths[..k]) + step;
        ProcessPath(p);
        k := k + 1;
      }
      assert paths[..|paths|] == paths;
    }

    /** As for the European pricer: discount * sum / count, sums and counter
        unchanged. */
    method PostProcess(duration: real)
      requires Valid() && base.count > 0
      modifies base`callPrice, base`putPrice
      ensures Valid()
      ensures base.callPrice == Price(base.discounter(), base.callSum, base.count)
      ensures base.putPrice == Price(base.discounter(), base.putSum, base.count)
      ensures base.callPrice
           == Price(base.discounter(), SumOf(base.callPayoff, paid), base.nSim + processed)
      ensures base.putPrice
           == Price(base.discounter(), SumOf(base.putPayoff, paid), base.nSim + processed)
    {
      base.callPrice := Price(base.discounter(), base.callSum, base.count);
      base.putPrice := Price(base.discounter(), base.putSum, base.count);
    }

    /** Changes the barrier kind and nothing else. */
    method SetBarrierType(barrierType: BarrierType)
      modifies this`barrierType
      ensures this.barrierType == barrierType
    {
      this.barrierType := barrierType;
    }

    /** Changes the barrier level and nothing else. */
    method SetBarrierAmount(barrierAmount: real)
      modifies this`barrierAmount
      ensures this.barrierAmount == barrierAmount
    {
      this.barrierAmount := barrierAmount;
    }
  }

  /** Two barrier pricers of the same direction, one knock-in and one
      knock-out, fed the same paths from a fresh state with the same payoffs:
      their sums add up to the European sums over the terminal levels. */
  lemma KnockInPlusOutIsEuropean(inner: BarrierPricer, outer: BarrierPricer, paths: seq<seq<real>>)
    requires forall i :: 0 <= i < |paths| ==> |paths[i]| > 0
    requires inner.Valid() && outer.Valid()
    requires inner.barrierAmount == outer.barrierAmount
    requires || (inner.barrierType == UpAndIn && outer.barrierType == UpAndOut)
             || (inner.barrierType == DownAndIn && outer.barrierType == DownAndOut)
    requires inner.paid == Paid(inner.barrierType, inner.barrierAmount, paths)
    requires outer.paid == Paid(outer.barrierType, outer.barrierAmount, paths)
    requires inner.base.callPayoff == outer.base.callPayoff
    requires inner.base.putPayoff == outer.base.putPayoff
    ensures inner.base.callSum + outer.base.callSum == SumOf(inner.base.callPayoff, Lasts(paths))
    ensures inner.base.putSum + outer.base.putSum == SumOf(inner.base.putPayoff, Lasts(paths))
  {
    InPlusOutIsEuropean(inner.base.callPayoff, inner.barrierAmount, paths);
    InPlusOutIsEuropean(inner.base.putPayoff, inner.barrierAmount, paths);
  }
}
