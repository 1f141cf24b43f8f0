/** The hoverable sparkline (frontend/src/components/Sparkline.tsx): the
    projection with the `range || 1` fallback, the hover index under the
    cursor, and the component's two state cells. */
module HoverSparkline {
  import opened Wrappers
  import opened RealArith
  import UiSparkline

  const DefaultWidth: real := 80.0
  const DefaultHeight: real := 24.0
  const DefaultShowTooltip := false

  datatype Point = Point(x: real, y: real, value: real)

  /** `max - min || 1`: a zero range becomes 1. */
  function Range(data: seq<real>): (r: real)
    requires |data| > 0
    ensures r > 0.0
  {
    var d := UiSparkline.Max(data) - UiSparkline.Min(data);
    assert d >= 0.0 by {
      assert UiSparkline.Min(data) <= data[0] <= UiSparkline.Max(data);
    }
    if d == 0.0 then 1.0 else d
  }

  /** The x coordinate exactly as written: `(index / (data.length - 1)) * width`.
      With one element the divisor is 0 and JavaScript yields `NaN`, which is
      `None` here. */
  function XAsWritten(index: nat, n: nat, width: real): (x: Option<real>)
    ensures x.None? <==> n == 1
  {
    if n == 1 then None else Some(index as real / (n as real - 1.0) * width)
  }

  /** A one-point series has no x coordinate as written. */
  lemma SinglePointHasNoX(width: real)
    ensures XAsWritten(0, 1, width).None?
    ensures forall n: nat, i: nat :: n >= 2 ==> XAsWritten(i, n, width).Some?
  {
  }

  /** The x coordinate with the divisor guarded like the range, `(length - 1) || 1`. */
  function X(index: nat, n: nat, width: real): real
    requires n >= 1
  {
    index as real / (if n == 1 then 1.0 else n as real - 1.0) * width
  }

  /** Wherever the written x is defined, the guarded one equals it. */
  lemma XAgrees(index: nat, n: nat, width: real)
    requires n >= 2
    ensures XAsWritten(index, n, width) == Some(X(index, n, width))
  {
    var d := n as real - 1.0;
    assert X(index, n, width) == index as real / d * width;
    assert XAsWritten(index, n, width).value == index as real / d * width;
  }

  /** The guarded x agrees with the written one wherever that is defined,
      places a single point at 0, and always stays within [0, width]. */
  lemma XCorrect(index: nat, n: nat, width: real)
    requires 1 <= n && index < n
    requires width >= 0.0
    ensures n >= 2 ==> XAsWritten(index, n, width) == Some(X(index, n, width))
    ensures n == 1 ==> X(index, n, width) == 0.0
    ensures 0.0 <= X(index, n, width) <= width
  {
    var d := if n == 1 then 1.0 else n as real - 1.0;
    if n >= 2 {
      assert X(index, n, width) == index as real / d * width;
      assert XAsWritten(index, n, width).value == index as real / d * width;
    }
    RatioInUnit(index as real, d);
    assert index as real / d * width <= 1.0 * width;
  }

  /** `height - ((value - min) / range) * height`. */
  function Y(value: real, minVal: real, range: real, height: real): real
    requires range > 0.0
  {
    height - (value - minVal) / range * height
  }

  /** A value between the extremes of the series lands inside the box, the
      extremes of a non-constant series on its edges. */
  lemma YInBox(v: real, minVal: real, maxVal: real, range: real, height: real)
    requires minVal <= v <= maxVal
    requires range == if maxVal - minVal == 0.0 then 1.0 else maxVal - minVal
    requires height >= 0.0
    ensures 0.0 <= Y(v, minVal, range, height) <= height
    ensures maxVal != minVal && v == maxVal ==> Y(v, minVal, range, height) == 0.0
    ensures maxVal != minVal && v == minVal ==> Y(v, minVal, range, height) == height
  {
    if maxVal != minVal {
      UiSparkline.PointYInBox(v, minVal, maxVal, height);
      assert Y(v, minVal, range, height) == UiSparkline.PointY(v, minVal, maxVal - minVal, height);
    } else {
      assert v - minVal == 0.0;
    }
  }

  function Points(data: seq<real>, width: real, height: real): (r: seq<Point>)
    requires |data| > 0
    ensures |r| == |data|
  {
    var minVal := UiSparkline.Min(data);
    var range := Range(data);
    seq(|data|, i requires 0 <= i < |data| => Point(X(i, |data|, width), Y(data[i], minVal, range, height), data[i]))
  }

  /** The component renders nothing for an empty series and otherwise one
      point per value. */
  function Project(data: seq<real>, width: real, height: real): (r: Option<seq<Point>>)
    ensures r.None? <==> |data| == 0
    ensures r.Some? ==> |r.value| == |data|
  {
    if |data| == 0 then None else Some(Points(data, width, height))
  }

  /** For two or more values the projection is the component's own: x is the
      unguarded `(index / (length - 1)) * width`, y is `Y` with the series'
      minimum and `Range`, and each point carries its value. */
  lemma ProjectMatchesSource(data: seq<real>, width: real, height: real)
    requires |data| >= 2
    ensures forall i :: 0 <= i < |data| ==>
              XAsWritten(i, |data|, width) == Some(Project(data, width, height).value[i].x) &&
              Project(data, width, height).value[i].y == Y(data[i], UiSparkline.Min(data), Range(data), height) &&
              Project(data, width, height).value[i].value == data[i]
  {
    var p := Project(data, width, height).value;
    var minVal, range := UiSparkline.Min(data), Range(data);
    forall i | 0 <= i < |data|
      ensures XAsWritten(i, |data|, width) == Some(p[i].x)
      ensures p[i].y == Y(data[i], minVal, range, height) && p[i].value == data[i]
    {
      assert p[i] == Point(X(i, |data|, width), Y(data[i], minVal, range, height), data[i]);
      XAgrees(i, |data|, width);
    }
  }

  /** A constant series divides by the fallback range 1 and lies on the
      bottom edge, `y == height`. */
  lemma ProjectConstant(data: seq<real>, width: real, height: real)
    requires |data| > 0
    requires forall i :: 0 <= i < |data| ==> data[i] == data[0]
    ensures forall i :: 0 <= i < |data| ==> Project(data, width, height).value[i].y == height
  {
    assert UiSparkline.Max(data) in data && UiSparkline.Min(data) in data;
    assert Range(data) == 1.0;
  }

  /** Every point lies in the box: y in [0, height] for any series and any
      non-negative size, with the extremes on the top and bottom edges when
      the series is not constant. */
  lemma ProjectInBox(data: seq<real>, width: real, height: real)
    requires |data| > 0
    requires width >= 0.0 && height >= 0.0
    ensures forall i :: 0 <= i < |data| ==>
              0.0 <= Project(data, width, height).value[i].x <= width &&
              0.0 <= Project(data, width, height).value[i].y <= height
    ensures UiSparkline.Max(data) != UiSparkline.Min(data) ==> forall i :: 0 <= i < |data| ==>
              (data[i] == UiSparkline.Max(data) ==> Project(data, width, height).value[i].y == 0.0) &&
              (data[i] == UiSparkline.Min(data) ==> Project(data, width, height).value[i].y == height)
  {
    var p := Project(data, width, height).value;
    var minVal, maxVal := UiSparkline.Min(data), UiSparkline.Max(data);
    var range := Range(data);
    forall i | 0 <= i < |data|
      ensures 0.0 <= p[i].x <= width && 0.0 <= p[i].y <= height
      ensures maxVal != minVal && data[i] == maxVal ==> p[i].y == 0.0
      ensures maxVal != minVal && data[i] == minVal ==> p[i].y == height
    {
      assert p[i] == Point(X(i, |data|, width), Y(data[i], minVal, range, height), data[i]);
      XCorrect(i, |data|, width);
      YInBox(data[i], minVal, maxVal, range, height);
    }
  }

  /** `Math.max(0, Math.min(Math.round((x / width) * (length - 1)), length - 1))`,
      with `Math.round(v)` as the floor of `v + 1/2`. */
  function HoverIndex(x: real, width: real, n: nat): (i: int)
    requires width > 0.0
    requires n >= 1
    ensures 0 <= i <= n - 1
    ensures var rounded := (x / width * (n - 1) as real + 0.5).Floor;
            0 <= rounded <= n - 1 ==> i == rounded
  {
    var rounded := (x / width * (n - 1) as real + 0.5).Floor;
    if rounded < 0 then 0 else if rounded > n - 1 then n - 1 else rounded
  }

  /** A cursor over the left edge picks the first point and one over the
      right edge the last. */
  lemma HoverIndexEdges(width: real, n: nat)
    requires width > 0.0
    requires n >= 1
    ensures HoverIndex(0.0, width, n) == 0
    ensures HoverIndex(width, width, n) == n - 1
  {
    assert 0.0 / width == 0.0;
    SelfRatio(width);
  }

  datatype MousePos = MousePos(x: real, y: real)

  /** The component's state cells `hoveredIndex` and `mousePos`, for one
      rendering of a non-empty series. */
  class Hover {
    const data: seq<real>
    const width: real
    const showTooltip: bool
    var hoveredIndex: Option<int>
    var mousePos: MousePos

    /** The highlighted point, if any, is one of the series' points. */
    ghost predicate Valid()
      reads this
    {
      hoveredIndex.Some? ==> 0 <= hoveredIndex.value < |data|
    }

    constructor(data: seq<real>, width: real, showTooltip: bool)
      requires |data| > 0
      ensures this.data == data && this.width == width && this.showTooltip == showTooltip
      ensures hoveredIndex == None && mousePos == MousePos(0.0, 0.0)
      ensures Valid()
    {
      this.data := data;
      this.width := width;
      this.showTooltip := showTooltip;
      hoveredIndex := None;
      mousePos := MousePos(0.0, 0.0);
    }

    /** `handleMouseMove`: nothing changes without tooltips; otherwise the
        point under the cursor is highlighted and the position recorded. */
    method MouseMove(clientX: real, clientY: real, rectLeft: real)
      requires Valid()
      requires |data| > 0 && width > 0.0
      modifies this
      ensures Valid()
      ensures !showTooltip ==> hoveredIndex == old(hoveredIndex) && mousePos == old(mousePos)
      ensures showTooltip ==> hoveredIndex == Some(HoverIndex(clientX - rectLeft, width, |data|))
      ensures showTooltip ==> mousePos == MousePos(clientX, clientY)
    {
      if !showTooltip {
        return;
      }
      var x := clientX - rectLeft;
      hoveredIndex := Some(HoverIndex(x, width, |data|));
      mousePos := MousePos(clientX, clientY);
    }

    /** `onMouseLeave`: the highlight is cleared, the position kept. */
    method MouseLeave()
      requires Valid()
      modifies this
      ensures Valid()
      ensures hoveredIndex == None && mousePos == old(mousePos)
    {
      hoveredIndex := None;
    }
  }

  /** With the default 80 by 24 box every point of a non-empty series lies
      inside the box. */
  lemma DefaultBoxInBox(data: seq<real>)
    requires |data| > 0
    ensures forall i :: 0 <= i < |data| ==>
              0.0 <= Project(data, DefaultWidth, DefaultHeight).value[i].x <= DefaultWidth &&
              0.0 <= Project(data, DefaultWidth, DefaultHeight).value[i].y <= DefaultHeight
  {
    ProjectInBox(data, DefaultWidth, DefaultHeight);
  }

  /** With the default `showTooltip = false` the cursor never highlights a
      point: moving over the chart keeps both state cells at their initial values. */
  method DefaultIgnoresCursor(data: seq<real>, clientX: real, clientY: real, rectLeft: real)
    returns (hovered: Option<int>, pos: MousePos)
    requires |data| > 0
    ensures hovered == None && pos == MousePos(0.0, 0.0)
  {
    var h := new Hover(data, DefaultWidth, DefaultShowTooltip);
    h.MouseMove(clientX, clientY, rectLeft);
    hovered, pos := h.hoveredIndex, h.mousePos;
  }
}
