/**
 * The min-max scaler that the pipeline is handed: `MinMaxScaler(feature_range=(0, 1))`.
 * Its arithmetic is modelled exactly over `real`; a constant column (zero data range)
 * is divided by 1 instead of 0, as the scaler does for zero ranges.
 */
module MinMaxScaling {

  /** The parameters a fit stores: the smallest and largest value seen. */
  datatype Params = Params(dataMin: real, dataMax: real)

  function Min(s: seq<real>): (m: real)
    requires |s| > 0
    ensures m in s
    ensures forall i :: 0 <= i < |s| ==> m <= s[i]
  {
    if |s| == 1 then s[0]
    else
      var rest := Min(s[1..]);
      if s[0] <= rest then s[0] else rest
  }

  function Max(s: seq<real>): (m: real)
    requires |s| > 0
    ensures m in s
    ensures forall i :: 0 <= i < |s| ==> s[i] <= m
  {
    if |s| == 1 then s[0]
    else
      var rest := Max(s[1..]);
      if s[0] >= rest then s[0] else rest
  }

  /** What `fit` learns from a non-empty column. */
  function Fit(s: seq<real>): (p: Params)
    requires |s| > 0
    ensures p.dataMin <= p.dataMax
  {
    Params(Min(s), Max(s))
  }

  /** A column whose values lie between two of its own values is fitted to exactly those. */
  lemma FitOfBoundedColumn(s: seq<real>, lo: nat, hi: nat)
    requires lo < |s| && hi < |s|
    requires forall i :: 0 <= i < |s| ==> s[lo] <= s[i] <= s[hi]
    ensures Fit(s) == Params(s[lo], s[hi])
  {
    assert Min(s) <= s[lo] && Max(s) >= s[hi];
  }

  /** The divisor: the data range, or 1 when the range is zero. */
  function Range(p: Params): real
  {
    if p.dataMax - p.dataMin == 0.0 then 1.0 else p.dataMax - p.dataMin
  }

  /** `transform` of one value into the feature range (0, 1). */
  function Scale(p: Params, x: real): real
  {
    (x - p.dataMin) / Range(p)
  }

  /** `transform` of a whole column, element by element. */
  function Transform(p: Params, s: seq<real>): (r: seq<real>)
    ensures |r| == |s|
    ensures forall i :: 0 <= i < |s| ==> r[i] == Scale(p, s[i])
  {
    if s == [] then [] else [Scale(p, s[0])] + Transform(p, s[1..])
  }

  /** A value inside the fitted interval is mapped into [0, 1]. */
  lemma ScaleInUnitInterval(p: Params, x: real)
    requires p.dataMin <= x <= p.dataMax
    ensures 0.0 <= Scale(p, x) <= 1.0
  {
    var d := Range(p);
    assert d > 0.0;
    assert 0.0 <= x - p.dataMin <= d;
    assert (x - p.dataMin) / d <= d / d;
  }

  /** Scaling keeps the order of values. */
  lemma ScaleMonotonic(p: Params, x: real, y: real)
    requires p.dataMin <= p.dataMax
    requires x <= y
    ensures Scale(p, x) <= Scale(p, y)
  {
    var d := Range(p);
    assert d > 0.0;
    assert (y - p.dataMin) - (x - p.dataMin) >= 0.0;
    assert Scale(p, y) - Scale(p, x) == ((y - p.dataMin) - (x - p.dataMin)) / d;
  }

  /** Fit-then-transform lands every value of the column in [0, 1]. */
  lemma FitTransformInUnitInterval(s: seq<real>)
    requires |s| > 0
    ensures forall i :: 0 <= i < |s| ==> 0.0 <= Transform(Fit(s), s)[i] <= 1.0
  {
    var p := Fit(s);
    var r := Transform(p, s);
    forall i | 0 <= i < |s|
      ensures 0.0 <= r[i] <= 1.0
    {
      assert r[i] == Scale(p, s[i]);
      ScaleInUnitInterval(p, s[i]);
    }
  }

  /** When the fitted range is not empty, its lower end is scaled to 0 and its upper
      end to 1. */
  lemma ScaleEndpoints(p: Params)
    requires p.dataMin < p.dataMax
    ensures Scale(p, p.dataMin) == 0.0
    ensures Scale(p, p.dataMax) == 1.0
  {
    var d := p.dataMax - p.dataMin;
    assert Range(p) == d;
    assert Scale(p, p.dataMax) == d / d;
    assert d / d == 1.0;
  }

  /**
   * The scaler object. A fit overwrites whatever an earlier fit stored.
   */
  class MinMaxScaler {
    var fitted: bool
    var dataMin: real
    var dataMax: real
    var nSamplesSeen: nat

    /** `MinMaxScaler(feature_range=(0, 1))`: nothing is fitted yet. */
    constructor ()
      ensures !fitted && nSamplesSeen == 0
    {
      fitted := false;
      dataMin := 0.0;
      dataMax := 0.0;
      nSamplesSeen := 0;
    }

    /** The parameters of the most recent fit. */
    function Current(): Params
      reads this
    {
      Params(dataMin, dataMax)
    }

    /** `fit_transform`: learn the column's minimum and maximum, replacing any earlier
        fit, and return the column scaled with them. A column with no rows is refused
        by the scaler, hence the precondition. */
    method FitTransform(data: seq<real>) returns (scaled: seq<real>)
      requires |data| > 0
      modifies this
      ensures fitted && nSamplesSeen == |data|
      ensures Current() == Fit(data)
      ensures scaled == Transform(Fit(data), data)
    {
      dataMin := Min(data);
      dataMax := Max(data);
      nSamplesSeen := |data|;
      fitted := true;
      scaled := Transform(Current(), data);
    }
  }
}
