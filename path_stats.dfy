/** Statistics of one simulated path that the pricers reduce it to
    (src/PricerDerived.cpp): its terminal level, arithmetic and geometric
    averages, extrema, and the barrier conditions on them. */
module PathStats {
  import opened Numerics

  /** A left fold `f(xs[0]) + f(xs[1]) + ...` starting from 0, in the order
      `std::accumulate` adds. */
  function SumOf(f: real -> real, xs: seq<real>): real {
    if xs == [] then 0.0 else SumOf(f, xs[..|xs| - 1]) + f(xs[|xs| - 1])
  }

  /** Adding one more element to the fold adds its image. */
  lemma SumOfAppend(f: real -> real, xs: seq<real>, x: real)
    ensures SumOf(f, xs + [x]) == SumOf(f, xs) + f(x)
  {
    assert (xs + [x])[..|xs|] == xs;
  }

  /** Folding a function that is v on every element gives |xs| v: the
      accumulated sum does not depend on anything but the count. */
  lemma {:induction false} SumOfConstant(f: real -> real, xs: seq<real>, v: real)
    requires forall i :: 0 <= i < |xs| ==> f(xs[i]) == v
    ensures SumOf(f, xs) == |xs| as real * v
  {
    if xs != [] {
      SumOfConstant(f, xs[..|xs| - 1], v);
    }
  }

  /** The fold is bounded by |xs| times any bounds of f over xs. */
  lemma {:induction false} SumOfBounds(f: real -> real, xs: seq<real>, lo: real, hi: real)
    requires forall i :: 0 <= i < |xs| ==> lo <= f(xs[i]) <= hi
    ensures |xs| as real * lo <= SumOf(f, xs) <= |xs| as real * hi
  {
    if xs != [] {
      SumOfBounds(f, xs[..|xs| - 1], lo, hi);
    }
  }

  /** `path.back()`. */
  function Last(path: seq<real>): (x: real)
    requires |path| > 0
    ensures x in path
  {
    path[|path| - 1]
  }

  /** `Average`: the sum of the points over their number. */
  function Average(path: seq<real>): (a: real)
    requires |path| > 0
    ensures a * |path| as real == SumOf(Level, path)
  {
    SumOf(Level, path) / |path| as real
  }

  /** A point counted as itself, so that `SumOf(Level, path)` is the plain sum. */
  function Level(x: real): real { x }

  /** `GeometricAverage`: exp of the mean of the logarithms of the points. */
  function GeometricAverage(m: Libm, path: seq<real>): real
    requires |path| > 0
  {
    m.exp(SumOf(m.log, path) / |path| as real)
  }

  /** The smallest point of a non-empty path (the level `std::minmax_element`
      reports as the minimum). */
  function MinOf(path: seq<real>): (lo: real)
    requires |path| > 0
    ensures lo in path
    ensures forall i :: 0 <= i < |path| ==> lo <= path[i]
  {
    if |path| == 1 then path[0]
    else
      var rest := MinOf(path[..|path| - 1]);
      if path[|path| - 1] < rest then path[|path| - 1] else rest
  }

  /** `AsianPricer::Max`: the largest point of a non-empty path. */
  function MaxOf(path: seq<real>): (hi: real)
    requires |path| > 0
    ensures hi in path
    ensures forall i :: 0 <= i < |path| ==> path[i] <= hi
  {
    if |path| == 1 then path[0]
    else
      var rest := MaxOf(path[..|path| - 1]);
      if rest < path[|path| - 1] then path[|path| - 1] else rest
  }

  /** The average of a non-empty path lies between its extrema. */
  lemma AverageBounds(path: seq<real>)
    requires |path| > 0
    ensures MinOf(path) <= Average(path) <= MaxOf(path)
  {
    AverageWithin(path, MinOf(path), MaxOf(path));
  }

  /** Bounds on every point of a non-empty path bound its average. */
  lemma AverageWithin(path: seq<real>, lo: real, hi: real)
    requires |path| > 0
    requires forall i :: 0 <= i < |path| ==> lo <= path[i] <= hi
    ensures lo <= Average(path) <= hi
  {
    MeanWithin(Level, path, lo, hi);
  }

  /** Bounds on every image bound the mean of the images. */
  lemma MeanWithin(f: real -> real, xs: seq<real>, lo: real, hi: real)
    requires |xs| > 0
    requires forall i :: 0 <= i < |xs| ==> lo <= f(xs[i]) <= hi
    ensures lo <= SumOf(f, xs) / |xs| as real <= hi
  {
    SumOfBounds(f, xs, lo, hi);
    MeanBetween(SumOf(f, xs), |xs| as real, lo, hi);
  }

  /** n lo <= s <= n hi with n > 0 puts s / n between lo and hi. */
  lemma MeanBetween(s: real, n: real, lo: real, hi: real)
    requires n > 0.0 && n * lo <= s <= n * hi
    ensures lo <= s / n <= hi
  {
    assert (s / n) * n == s;
  }

  /** A constant path averages to its constant. */
  lemma AverageOfConstant(path: seq<real>, c: real)
    requires |path| > 0
    requires forall i :: 0 <= i < |path| ==> path[i] == c
    ensures Average(path) == c
  {
    SumOfConstant(Level, path, c);
  }

  /** The geometric average of a constant path [c, ..., c] is exp(log c),
      that is c wherever exp inverts log. */
  lemma GeometricAverageOfConstant(m: Libm, path: seq<real>, c: real)
    requires |path| > 0
    requires forall i :: 0 <= i < |path| ==> path[i] == c
    ensures GeometricAverage(m, path) == m.exp(m.log(c))
    ensures m.exp(m.log(c)) == c ==> GeometricAverage(m, path) == c
  {
    SumOfConstant(m.log, path, m.log(c));
    assert SumOf(m.log, path) / |path| as real == m.log(c);
  }

  /** The four barrier kinds. */
  datatype BarrierType = UpAndIn | UpAndOut | DownAndIn | DownAndOut

  /** Whether a path with the given barrier pays its terminal payoff:
      knock-in up if some point reached H, knock-out up if none did,
      knock-in down if some point fell to H, knock-out down if none did. */
  predicate Pays(bt: BarrierType, H: real, path: seq<real>)
    requires |path| > 0
  {
    match bt
    case UpAndIn => MaxOf(path) >= H
    case UpAndOut => MaxOf(path) < H
    case DownAndIn => MinOf(path) <= H
    case DownAndOut => MinOf(path) > H
  }

  /** The barrier conditions in terms of the points of the path. */
  lemma PaysMeaning(H: real, path: seq<real>)
    requires |path| > 0
    ensures Pays(UpAndIn, H, path) <==> exists i :: 0 <= i < |path| && path[i] >= H
    ensures Pays(UpAndOut, H, path) <==> forall i :: 0 <= i < |path| ==> path[i] < H
    ensures Pays(DownAndIn, H, path) <==> exists i :: 0 <= i < |path| && path[i] <= H
    ensures Pays(DownAndOut, H, path) <==> forall i :: 0 <= i < |path| ==> path[i] > H
  {
  }

  /** In and out barriers of the same direction are complementary: for the
      same path and level exactly one of the pair pays. */
  lemma InOutComplementary(H: real, path: seq<real>)
    requires |path| > 0
    ensures Pays(UpAndIn, H, path) != Pays(UpAndOut, H, path)
    ensures Pays(DownAndIn, H, path) != Pays(DownAndOut, H, path)
  {
  }

  /** The terminal levels of the paths whose barrier condition holds, in
      order. */
  function Paid(bt: BarrierType, H: real, paths: seq<seq<real>>): seq<real>
    requires forall i :: 0 <= i < |paths| ==> |paths[i]| > 0
  {
    if paths == [] then []
    else
      var p := paths[|paths| - 1];
      Paid(bt, H, paths[..|paths| - 1]) + (if Pays(bt, H, p) then [Last(p)] else [])
  }

  /** The terminal levels of all the paths, in order. */
  function Lasts(paths: seq<seq<real>>): (xs: seq<real>)
    requires forall i :: 0 <= i < |paths| ==> |paths[i]| > 0
    ensures |xs| == |paths|
    ensures forall i :: 0 <= i < |paths| ==> xs[i] == Last(paths[i])
  {
    if paths == [] then [] else Lasts(paths[..|paths| - 1]) + [Last(paths[|paths| - 1])]
  }

  /** Knock-in plus knock-out is the plain terminal payoff: summed over the
      same paths with the same level, the up-and-in and up-and-out
      accumulations add up to the European accumulation, and likewise
      down-and-in and down-and-out. */
  lemma {:induction false} InPlusOutIsEuropean(f: real -> real, H: real, paths: seq<seq<real>>)
    requires forall i :: 0 <= i < |paths| ==> |paths[i]| > 0
    ensures SumOf(f, Paid(UpAndIn, H, paths)) + SumOf(f, Paid(UpAndOut, H, paths)) == SumOf(f, Lasts(paths))
    ensures SumOf(f, Paid(DownAndIn, H, paths)) + SumOf(f, Paid(DownAndOut, H, paths)) == SumOf(f, Lasts(paths))
  {
    if paths != [] {
      var init, p := paths[..|paths| - 1], paths[|paths| - 1];
      InPlusOutIsEuropean(f, H, init);
      SumOfAppend(f, Lasts(init), Last(p));
      assert Lasts(paths) == Lasts(init) + [Last(p)];
      forall bt | bt in {UpAndIn, UpAndOut, DownAndIn, DownAndOut}
        ensures SumOf(f, Paid(bt, H, paths))
             == SumOf(f, Paid(bt, H, init)) + (if Pays(bt, H, p) then f(Last(p)) else 0.0)
      {
        if Pays(bt, H, p) {
          SumOfAppend(f, Paid(bt, H, init), Last(p));
        } else {
          assert Paid(bt, H, paths) == Paid(bt, H, init) + [];
          assert Paid(bt, H, init) + [] == Paid(bt, H, init);
        }
      }
      InOutComplementary(H, p);
    }
  }
}
