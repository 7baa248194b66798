/**
 * The arc parameterizer (Pathfinder/src/include/grpl/pf/path/arc_parameterizer.h):
 * approximates a spline by augmented arcs, bisecting the spline parameter
 * interval until the arc over it is short enough and its end curvatures are
 * close enough.
 *
 * The source has no depth or degeneracy guard, so its recursion need not
 * end. Here every recursive member takes a ghost `depth` and requires
 * `Bottoms`: the bisection stops within `depth` levels and every arc it fits
 * has nonzero length (the divisor of set_curvature).
 */
module Parameterizer {
  import opened RealMath
  import opened Vectors
  import opened Paths
  import opened Arcs

  /** One arc of the bisection: its parameter interval, fitted arc and end curvatures. */
  datatype ArcSpec = ArcSpec(tLo: real, tHi: real, base: Arc2d, startK: real, endK: real)

  function Mid(tLo: real, tHi: real): real {
    (tHi + tLo) / 2.0
  }

  ghost predicate Defined(sp: Spline, t: real) {
    sp.curvature.requires(t)
  }

  /** The arc fitted over [tLo, tHi]: through the positions at tLo, the midpoint and tHi. */
  ghost function FitOver(sp: Spline, fit: CircleFit, tLo: real, tHi: real): ArcSpec
    requires Defined(sp, tLo) && Defined(sp, tHi)
  {
    ArcSpec(tLo, tHi, fit(sp.position(tLo), sp.position(Mid(tLo, tHi)), sp.position(tHi)),
      sp.curvature(tLo), sp.curvature(tHi))
  }

  /** The split criterion: curvature changes too much, or the arc is too long. */
  predicate Subdivide(a: ArcSpec, maxLen: real, maxDk: real) {
    Abs(a.endK - a.startK) > maxDk || a.base.length > maxLen
  }

  /** The bisection of [tLo, tHi] stops within `depth` levels and only fits arcs of nonzero length. */
  ghost predicate Bottoms(sp: Spline, fit: CircleFit, maxLen: real, maxDk: real, tLo: real, tHi: real, depth: nat)
    decreases depth
  {
    Defined(sp, tLo) && Defined(sp, tHi) &&
    FitOver(sp, fit, tLo, tHi).base.length != 0.0 &&
    (Subdivide(FitOver(sp, fit, tLo, tHi), maxLen, maxDk) ==>
      depth > 0 &&
      Bottoms(sp, fit, maxLen, maxDk, tLo, Mid(tLo, tHi), depth - 1) &&
      Bottoms(sp, fit, maxLen, maxDk, Mid(tLo, tHi), tHi, depth - 1))
  }

  /** The arcs the bisection ends with, left to right. */
  ghost function Leaves(sp: Spline, fit: CircleFit, maxLen: real, maxDk: real, tLo: real, tHi: real, depth: nat): seq<ArcSpec>
    requires Bottoms(sp, fit, maxLen, maxDk, tLo, tHi, depth)
    decreases depth
  {
    var a := FitOver(sp, fit, tLo, tHi);
    if Subdivide(a, maxLen, maxDk) then
      Leaves(sp, fit, maxLen, maxDk, tLo, Mid(tLo, tHi), depth - 1) +
      Leaves(sp, fit, maxLen, maxDk, Mid(tLo, tHi), tHi, depth - 1)
    else
      [a]
  }

  ghost predicate AllBottom(splines: seq<Spline>, fit: CircleFit, maxLen: real, maxDk: real, depth: nat) {
    forall i :: 0 <= i < |splines| ==> Bottoms(splines[i], fit, maxLen, maxDk, 0.0, 1.0, depth)
  }

  /** The leaves of every spline over [0, 1], spline after spline. */
  ghost function AllLeaves(splines: seq<Spline>, fit: CircleFit, maxLen: real, maxDk: real, depth: nat): seq<ArcSpec>
    requires AllBottom(splines, fit, maxLen, maxDk, depth)
  {
    if splines == [] then []
    else
      AllLeaves(splines[..|splines| - 1], fit, maxLen, maxDk, depth) +
      Leaves(splines[|splines| - 1], fit, maxLen, maxDk, 0.0, 1.0, depth)
  }

  /** `arc` is the augmented arc built from `a`, with its curvature interpolation set. */
  ghost predicate Matches(arc: AugmentedArc, a: ArcSpec)
    reads arc
  {
    a.base.length != 0.0 && arc.base == a.base && arc.curvatureSet &&
    arc.startCurvature == a.startK && arc.dkds == (a.endK - a.startK) / a.base.length
  }

  /** Every emitted arc meets both bounds and has nonzero length. */
  lemma {:induction false} LeavesWithinBounds(sp: Spline, fit: CircleFit, maxLen: real, maxDk: real, tLo: real, tHi: real, depth: nat)
    requires Bottoms(sp, fit, maxLen, maxDk, tLo, tHi, depth)
    ensures forall a :: a in Leaves(sp, fit, maxLen, maxDk, tLo, tHi, depth) ==>
      Abs(a.endK - a.startK) <= maxDk && a.base.length <= maxLen && a.base.length != 0.0
    decreases depth
  {
    if Subdivide(FitOver(sp, fit, tLo, tHi), maxLen, maxDk) {
      LeavesWithinBounds(sp, fit, maxLen, maxDk, tLo, Mid(tLo, tHi), depth - 1);
      LeavesWithinBounds(sp, fit, maxLen, maxDk, Mid(tLo, tHi), tHi, depth - 1);
    }
  }

  /**
   * The leaves tile [tLo, tHi] left to right, each carries the spline's
   * curvature at its ends, so the end curvature of one leaf is the start
   * curvature of the next.
   */
  lemma {:induction false} LeavesChain(sp: Spline, fit: CircleFit, maxLen: real, maxDk: real, tLo: real, tHi: real, depth: nat)
    requires Bottoms(sp, fit, maxLen, maxDk, tLo, tHi, depth)
    ensures var ls := Leaves(sp, fit, maxLen, maxDk, tLo, tHi, depth);
      |ls| >= 1 && ls[0].tLo == tLo && ls[|ls| - 1].tHi == tHi &&
      (forall i :: 0 <= i < |ls| ==>
        Defined(sp, ls[i].tLo) && Defined(sp, ls[i].tHi) &&
        ls[i].startK == sp.curvature(ls[i].tLo) && ls[i].endK == sp.curvature(ls[i].tHi)) &&
      (forall i :: 0 <= i < |ls| - 1 ==> ls[i].tHi == ls[i + 1].tLo && ls[i].endK == ls[i + 1].startK)
    decreases depth
  {
    if Subdivide(FitOver(sp, fit, tLo, tHi), maxLen, maxDk) {
      var tMid := Mid(tLo, tHi);
      LeavesChain(sp, fit, maxLen, maxDk, tLo, tMid, depth - 1);
      LeavesChain(sp, fit, maxLen, maxDk, tMid, tHi, depth - 1);
      var left := Leaves(sp, fit, maxLen, maxDk, tLo, tMid, depth - 1);
      var right := Leaves(sp, fit, maxLen, maxDk, tMid, tHi, depth - 1);
      var ls := left + right;
      assert ls == Leaves(sp, fit, maxLen, maxDk, tLo, tHi, depth);
      forall i | 0 <= i < |ls| - 1
        ensures ls[i].tHi == ls[i + 1].tLo && ls[i].endK == ls[i + 1].startK
      {
        if i < |left| - 1 {
        } else if i == |left| - 1 {
          assert ls[i] == left[|left| - 1] && ls[i + 1] == right[0];
        } else {
          assert ls[i] == right[i - |left|] && ls[i + 1] == right[i + 1 - |left|];
        }
      }
    }
  }

  /** On an increasing interval every leaf interval is increasing: arcs come out in increasing t. */
  lemma {:induction false} LeavesIncreasing(sp: Spline, fit: CircleFit, maxLen: real, maxDk: real, tLo: real, tHi: real, depth: nat)
    requires Bottoms(sp, fit, maxLen, maxDk, tLo, tHi, depth) && tLo < tHi
    ensures forall a :: a in Leaves(sp, fit, maxLen, maxDk, tLo, tHi, depth) ==> tLo <= a.tLo < a.tHi <= tHi
    decreases depth
  {
    if Subdivide(FitOver(sp, fit, tLo, tHi), maxLen, maxDk) {
      LeavesIncreasing(sp, fit, maxLen, maxDk, tLo, Mid(tLo, tHi), depth - 1);
      LeavesIncreasing(sp, fit, maxLen, maxDk, Mid(tLo, tHi), tHi, depth - 1);
    }
  }

  /** Consecutive interpolated arcs meet with equal curvature: arc[i].curvature(length) = arc[i+1].curvature(0). */
  lemma ArcsCurvatureContinuous(arcs: seq<AugmentedArc>, ls: seq<ArcSpec>)
    requires |arcs| == |ls|
    requires forall i :: 0 <= i < |arcs| ==> Matches(arcs[i], ls[i])
    requires forall i :: 0 <= i < |ls| - 1 ==> ls[i].endK == ls[i + 1].startK
    ensures forall i :: 0 <= i < |arcs| - 1 ==> arcs[i].Curvature(arcs[i].Length()) == arcs[i + 1].Curvature(0.0)
  {
    forall i | 0 <= i < |arcs| - 1
      ensures arcs[i].Curvature(arcs[i].Length()) == arcs[i + 1].Curvature(0.0)
    {
      InterpolationEnds(ls[i].startK, ls[i].endK, ls[i].base.length);
      InterpolationEnds(ls[i + 1].startK, ls[i + 1].endK, ls[i + 1].base.length);
    }
  }

  /**
   * Splitting a capacity between two parts in order: the first takes what it
   * needs up to the capacity, the second what is left. When the second part
   * is not empty, it overruns exactly when both together exceed the capacity.
   */
  lemma BudgetSplit(a: nat, b: nat, cap: nat)
    requires b >= 1
    ensures MinNat(a, cap) <= cap
    ensures MinNat(a, cap) + MinNat(b, cap - MinNat(a, cap)) == MinNat(a + b, cap)
    ensures (b > cap - MinNat(a, cap)) <==> (a + b > cap)
  {
  }

  class ArcParameterizer {
    var maxArcLength: real
    var maxDeltaCurvature: real
    var hasOverrun: bool

    constructor ()
    {
    }

    /** Sets the two split bounds; the overrun flag is left as it was. */
    method Configure(maxLen: real, maxDk: real)
      modifies this
      ensures maxArcLength == maxLen && maxDeltaCurvature == maxDk
      ensures hasOverrun == old(hasOverrun)
    {
      maxArcLength := maxLen;
      maxDeltaCurvature := maxDk;
    }

    /** Whether the last Parameterize call ran out of output capacity. */
    function HasOverrun(): bool
      reads this
    {
      hasOverrun
    }

    /** Number of arcs needed for [tLo, tHi], added to `count`; reads the bounds and changes nothing. */
    function CurveCount(sp: Spline, fit: CircleFit, tLo: real, tHi: real, count: nat, ghost depth: nat): (r: nat)
      reads this
      requires Bottoms(sp, fit, maxArcLength, maxDeltaCurvature, tLo, tHi, depth)
      ensures r == count + |Leaves(sp, fit, maxArcLength, maxDeltaCurvature, tLo, tHi, depth)|
      decreases depth
    {
      var tMid := (tHi + tLo) / 2.0;
      var kLo := sp.curvature(tLo);
      var kHi := sp.curvature(tHi);
      var arc := fit(sp.position(tLo), sp.position(tMid), sp.position(tHi));
      var subdivide := Abs(kHi - kLo) > maxDeltaCurvature || arc.length > maxArcLength;
      if subdivide then
        var c := CurveCount(sp, fit, tLo, tMid, count, depth - 1);
        CurveCount(sp, fit, tMid, tHi, c, depth - 1)
      else
        count + 1
    }

    /**
     * Emits the arcs for [tLo, tHi] into an output of capacity `maxCurveCount`:
     * the first min(leaves, capacity) leaves, each as a fresh augmented arc,
     * and records whether the capacity was too small.
     */
    method Parameterize(sp: Spline, fit: CircleFit, maxCurveCount: nat, tLo: real, tHi: real, ghost depth: nat)
      returns (len: nat, arcs: seq<AugmentedArc>)
      requires Bottoms(sp, fit, maxArcLength, maxDeltaCurvature, tLo, tHi, depth)
      modifies this
      ensures maxArcLength == old(maxArcLength) && maxDeltaCurvature == old(maxDeltaCurvature)
      ensures var ls := Leaves(sp, fit, maxArcLength, maxDeltaCurvature, tLo, tHi, depth);
        len == |arcs| == MinNat(|ls|, maxCurveCount) &&
        hasOverrun == (|ls| > maxCurveCount) &&
        (forall i :: 0 <= i < len ==> fresh(arcs[i]) && Matches(arcs[i], ls[i]))
      ensures maxCurveCount == 0 ==> len == 0 && hasOverrun
      ensures maxCurveCount >= CurveCount(sp, fit, tLo, tHi, 0, depth) ==>
        len == CurveCount(sp, fit, tLo, tHi, 0, depth) && !hasOverrun
      ensures maxCurveCount < CurveCount(sp, fit, tLo, tHi, 0, depth) ==>
        len < CurveCount(sp, fit, tLo, tHi, 0, depth) && hasOverrun
      decreases depth
    {
      ghost var maxLen, maxDk := maxArcLength, maxDeltaCurvature;
      ghost var ls := Leaves(sp, fit, maxLen, maxDk, tLo, tHi, depth);
      LeavesChain(sp, fit, maxLen, maxDk, tLo, tHi, depth);
      hasOverrun := false;
      if maxCurveCount == 0 {
        hasOverrun := true;
        return 0, [];
      }
      var tMid := (tHi + tLo) / 2.0;
      var kLo := sp.curvature(tLo);
      var kHi := sp.curvature(tHi);
      var arc := new AugmentedArc.WithCurvature(fit, sp.position(tLo), sp.position(tMid), sp.position(tHi), kLo, kHi);
      var subdivide := Abs(kHi - kLo) > maxDeltaCurvature || arc.Length() > maxArcLength;
      assert subdivide == Subdivide(FitOver(sp, fit, tLo, tHi), maxLen, maxDk);
      if subdivide {
        ghost var ls1 := Leaves(sp, fit, maxLen, maxDk, tLo, tMid, depth - 1);
        ghost var ls2 := Leaves(sp, fit, maxLen, maxDk, tMid, tHi, depth - 1);
        assert ls == ls1 + ls2;
        var len1, arcs1 := Parameterize(sp, fit, maxCurveCount, tLo, tMid, depth - 1);
        var len2, arcs2 := Parameterize(sp, fit, maxCurveCount - len1, tMid, tHi, depth - 1);
        LeavesChain(sp, fit, maxLen, maxDk, tMid, tHi, depth - 1);
        BudgetSplit(|ls1|, |ls2|, maxCurveCount);
        len, arcs := len1 + len2, arcs1 + arcs2;
        forall j | 0 <= j < len
          ensures fresh(arcs[j]) && Matches(arcs[j], ls[j])
        {
          if j >= len1 {
            assert len1 == |ls1|;
          }
        }
      } else {
        assert ls == [FitOver(sp, fit, tLo, tHi)];
        arc.SetCurvature(kLo, kHi);
        len, arcs := 1, [arc];
      }
    }

    /** Total number of arcs for a list of splines, each over [0, 1]. */
    method CurveCountAll(splines: seq<Spline>, fit: CircleFit, ghost depth: nat) returns (total: nat)
      requires AllBottom(splines, fit, maxArcLength, maxDeltaCurvature, depth)
      ensures total == |AllLeaves(splines, fit, maxArcLength, maxDeltaCurvature, depth)|
    {
      total := 0;
      for i := 0 to |splines|
        invariant total == |AllLeaves(splines[..i], fit, maxArcLength, maxDeltaCurvature, depth)|
      {
        assert splines[..i + 1][..i] == splines[..i];
        total := total + CurveCount(splines[i], fit, 0.0, 1.0, 0, depth);
      }
      assert splines[..|splines|] == splines;
    }

    /**
     * Parameterizes a list of splines in order into one output of capacity
     * `maxCurveCount`, each spline with the capacity that is left.
     */
    method ParameterizeAll(splines: seq<Spline>, fit: CircleFit, maxCurveCount: nat, ghost depth: nat)
      returns (len: nat, arcs: seq<AugmentedArc>)
      requires AllBottom(splines, fit, maxArcLength, maxDeltaCurvature, depth)
      modifies this
      ensures maxArcLength == old(maxArcLength) && maxDeltaCurvature == old(maxDeltaCurvature)
      ensures var ls := AllLeaves(splines, fit, maxArcLength, maxDeltaCurvature, depth);
        len == |arcs| == MinNat(|ls|, maxCurveCount) &&
        (splines != [] ==> hasOverrun == (|ls| > maxCurveCount)) &&
        (forall i :: 0 <= i < len ==> fresh(arcs[i]) && Matches(arcs[i], ls[i]))
      ensures splines == [] ==> hasOverrun == old(hasOverrun)
    {
      len, arcs := 0, [];
      for i := 0 to |splines|
        invariant maxArcLength == old(maxArcLength) && maxDeltaCurvature == old(maxDeltaCurvature)
        invariant var ls := AllLeaves(splines[..i], fit, maxArcLength, maxDeltaCurvature, depth);
          len == |arcs| == MinNat(|ls|, maxCurveCount) &&
          (i > 0 ==> hasOverrun == (|ls| > maxCurveCount)) &&
          (forall j :: 0 <= j < len ==> fresh(arcs[j]) && Matches(arcs[j], ls[j]))
        invariant i == 0 ==> hasOverrun == old(hasOverrun)
      {
        var n, more := Parameterize(splines[i], fit, maxCurveCount - len, 0.0, 1.0, depth);
        LeavesChain(splines[i], fit, maxArcLength, maxDeltaCurvature, 0.0, 1.0, depth);
        assert splines[..i + 1][..i] == splines[..i];
        len, arcs := len + n, arcs + more;
      }
      assert splines[..|splines|] == splines;
    }
  }
}
