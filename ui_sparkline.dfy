/** The drawer's chart (frontend/src/ui/Sparkline.tsx): the projection of a
    series onto a `width` by `height` box, with the "not enough data" guard
    and the flat-line midline. Numbers are reals; SVG strings are not modelled. */
module UiSparkline {
  import opened Wrappers
  import opened RealArith

  const DefaultWidth: real := 200.0
  const DefaultHeight: real := 50.0

  datatype Point = Point(x: real, y: real)

  /** `Math.max(...data)`. */
  function Max(s: seq<real>): (m: real)
    requires |s| > 0
    ensures m in s
    ensures forall i :: 0 <= i < |s| ==> s[i] <= m
  {
    if |s| == 1 then s[0]
    else
      var rest := Max(s[1..]);
      assert forall i :: 1 <= i < |s| ==> s[i] == s[1..][i - 1];
      if s[0] >= rest then s[0] else rest
  }

  /** `Math.min(...data)`. */
  function Min(s: seq<real>): (m: real)
    requires |s| > 0
    ensures m in s
    ensures forall i :: 0 <= i < |s| ==> m <= s[i]
  {
    if |s| == 1 then s[0]
    else
      var rest := Min(s[1..]);
      assert forall i :: 1 <= i < |s| ==> s[i] == s[1..][i - 1];
      if s[0] <= rest then s[0] else rest
  }

  /** `maxVal - minVal`: how far the series spreads. */
  function ValueRange(data: seq<real>): (r: real)
    requires |data| > 0
    ensures r >= 0.0
  {
    assert Min(data) <= data[0] <= Max(data);
    Max(data) - Min(data)
  }

  /** `getPointY`. */
  function PointY(v: real, minVal: real, valRange: real, height: real): real {
    if valRange == 0.0 then height / 2.0 else height - (v - minVal) / valRange * height
  }

  /** `(index / (data.length - 1)) * width`. */
  function PointX(index: nat, n: nat, width: real): real
    requires n >= 2
  {
    index as real / (n - 1) as real * width
  }

  /** `PointX` at the two ends of the box and strictly increasing across it. */
  lemma PointXSpan(i: nat, j: nat, n: nat, width: real)
    requires n >= 2
    ensures PointX(0, n, width) == 0.0
    ensures PointX(n - 1, n, width) == width
    ensures i < j && width > 0.0 ==> PointX(i, n, width) < PointX(j, n, width)
  {
    var d := (n - 1) as real;
    SelfRatio(d);
    if i < j && width > 0.0 {
      ScaleStrict(i as real, j as real, d, width);
    }
  }

  /** A value between the extremes of a non-flat series lands inside the box. */
  lemma PointYInBox(v: real, minVal: real, maxVal: real, height: real)
    requires minVal <= v <= maxVal
    requires maxVal - minVal > 0.0
    requires height >= 0.0
    ensures 0.0 <= PointY(v, minVal, maxVal - minVal, height) <= height
    ensures v == maxVal ==> PointY(v, minVal, maxVal - minVal, height) == 0.0
    ensures v == minVal ==> PointY(v, minVal, maxVal - minVal, height) == height
  {
    var valRange := maxVal - minVal;
    RatioInUnit(v - minVal, valRange);
    FlipInRange((v - minVal) / valRange, height);
    if v == maxVal {
      assert v - minVal == valRange;
      SelfRatio(valRange);
    }
  }

  /** The projected points: index spread over the width, value mapped
      between the series' extremes. */
  function Points(data: seq<real>, width: real, height: real): (r: seq<Point>)
    requires |data| >= 2
    ensures |r| == |data|
  {
    var minVal := Min(data);
    var valRange := ValueRange(data);
    seq(|data|, i requires 0 <= i < |data| =>
      Point(PointX(i, |data|, width), PointY(data[i], minVal, valRange, height)))
  }

  /** The polyline's points, or `None` for the "Not enough data" placeholder. */
  function Project(data: seq<real>, width: real, height: real): (r: Option<seq<Point>>)
    ensures r.None? <==> |data| < 2
    ensures r.Some? ==> |r.value| == |data|
  {
    if |data| < 2 then None else Some(Points(data, width, height))
  }

  /** The points span the width from 0 to `width`, left to right. */
  lemma ProjectX(data: seq<real>, width: real, height: real)
    requires |data| >= 2
    ensures Project(data, width, height).value[0].x == 0.0
    ensures Project(data, width, height).value[|data| - 1].x == width
    ensures width > 0.0 ==> forall i, j :: 0 <= i < j < |data| ==>
              Project(data, width, height).value[i].x < Project(data, width, height).value[j].x
  {
    var p := Project(data, width, height).value;
    PointXSpan(0, 0, |data|, width);
    if width > 0.0 {
      forall i, j | 0 <= i < j < |data| ensures p[i].x < p[j].x {
        PointXSpan(i, j, |data|, width);
      }
    }
  }

  /** A constant series is drawn as a flat line at half the height. */
  lemma ProjectConstant(data: seq<real>, width: real, height: real)
    requires |data| >= 2
    requires forall i :: 0 <= i < |data| ==> data[i] == data[0]
    ensures forall i :: 0 <= i < |data| ==> Project(data, width, height).value[i].y == height / 2.0
  {
    assert Max(data) in data && Min(data) in data;
  }

  lemma PointsInBox(data: seq<real>, width: real, height: real)
    requires |data| >= 2
    requires ValueRange(data) > 0.0
    requires height >= 0.0
    ensures forall i :: 0 <= i < |data| ==> 0.0 <= Points(data, width, height)[i].y <= height
    ensures forall i :: 0 <= i < |data| && data[i] == Max(data) ==> Points(data, width, height)[i].y == 0.0
    ensures forall i :: 0 <= i < |data| && data[i] == Min(data) ==> Points(data, width, height)[i].y == height
  {
    var p := Points(data, width, height);
    var minVal, maxVal := Min(data), Max(data);
    assert ValueRange(data) == maxVal - minVal;
    forall i | 0 <= i < |data|
      ensures 0.0 <= p[i].y <= height
      ensures data[i] == maxVal ==> p[i].y == 0.0
      ensures data[i] == minVal ==> p[i].y == height
    {
      var y := PointY(data[i], minVal, maxVal - minVal, height);
      assert p[i].y == y;
      PointYInBox(data[i], minVal, maxVal, height);
      assert 0.0 <= y <= height;
    }
  }

  /** A series with two distinct values has a positive range. */
  lemma NonConstantRange(data: seq<real>)
    requires |data| >= 2
    requires exists i :: 0 <= i < |data| && data[i] != data[0]
    ensures ValueRange(data) > 0.0
  {
    var k :| 0 <= k < |data| && data[k] != data[0];
    assert Min(data) <= data[k] && Min(data) <= data[0];
    assert data[k] <= Max(data) && data[0] <= Max(data);
  }

  /** A series with distinct values fills the height: every point lies in
      [0, height], the largest value at the top (0), the smallest at the
      bottom (`height`). */
  lemma ProjectNonConstant(data: seq<real>, width: real, height: real)
    requires |data| >= 2
    requires height >= 0.0
    requires exists i :: 0 <= i < |data| && data[i] != data[0]
    ensures forall i :: 0 <= i < |data| ==>
              0.0 <= Project(data, width, height).value[i].y <= height
    ensures forall i :: 0 <= i < |data| && data[i] == Max(data) ==> Project(data, width, height).value[i].y == 0.0
    ensures forall i :: 0 <= i < |data| && data[i] == Min(data) ==> Project(data, width, height).value[i].y == height
  {
    NonConstantRange(data);
    PointsInBox(data, width, height);
  }

  /** With the default 200 by 50 box, a series of two or more values runs
      from x = 0 to x = 200 and every point lies within the box's height. */
  lemma DefaultBoxProjection(data: seq<real>)
    requires |data| >= 2
    ensures Project(data, DefaultWidth, DefaultHeight).value[0].x == 0.0
    ensures Project(data, DefaultWidth, DefaultHeight).value[|data| - 1].x == DefaultWidth
    ensures forall i :: 0 <= i < |data| ==> 0.0 <= Project(data, DefaultWidth, DefaultHeight).value[i].y <= DefaultHeight
  {
    ProjectX(data, DefaultWidth, DefaultHeight);
    if exists i :: 0 <= i < |data| && data[i] != data[0] {
      ProjectNonConstant(data, DefaultWidth, DefaultHeight);
    } else {
      ProjectConstant(data, DefaultWidth, DefaultHeight);
    }
  }
}
