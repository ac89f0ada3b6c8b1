/**
 * The arc geometry and the render state of the radial gauge component: a
 * static dial arc and a value arc whose path element is created lazily, on
 * the first value render, together with the gauge's span angle.
 */
module Gauge {
  import opened Wrappers

  /** The dial's centre in the 100 x 100 view box. */
  const CentreX: real := 50.0
  const CentreY: real := 50.0

  /** An angle in degrees reduced to one turn, [0, 360). */
  function NormalizeDegrees(angle: real): (n: real)
    ensures 0.0 <= n < 360.0
    ensures 0.0 <= angle < 360.0 ==> n == angle
  {
    angle - 360.0 * ((angle / 360.0).Floor as real)
  }

  /** Angles a full turn apart reduce to the same angle. */
  lemma NormalizeDegreesPeriodic(angle: real)
    ensures NormalizeDegrees(angle + 360.0) == NormalizeDegrees(angle)
  {
    assert (angle + 360.0) / 360.0 == angle / 360.0 + 1.0;
  }

  /**
   * A point on the circle of radius `radius` about (`cx`, `cy`) at `degrees`.
   * The component computes its coordinates with cosine and sine and rounds
   * them to three decimals; the model keeps the point as the term that names
   * it, with the angle reduced to one turn.
   */
  datatype Point = OnCircle(cx: real, cy: real, radius: real, degrees: real)

  /** getCartesian, with the trigonometry left symbolic. */
  function Cartesian(cx: real, cy: real, radius: real, angle: real): (p: Point)
    ensures p.cx == cx && p.cy == cy && p.radius == radius
    ensures 0.0 <= p.degrees < 360.0
    ensures 0.0 <= angle < 360.0 ==> p.degrees == angle
  {
    OnCircle(cx, cy, radius, NormalizeDegrees(angle))
  }

  /** Angles a full turn apart name the same point, as cosine and sine are periodic. */
  lemma CartesianPeriodic(cx: real, cy: real, radius: real, angle: real)
    ensures Cartesian(cx, cy, radius, angle + 360.0) == Cartesian(cx, cy, radius, angle)
  {
    NormalizeDegreesPeriodic(angle);
  }

  datatype DialCoords = DialCoords(start: Point, end: Point)

  /** getDialCoords: the end points of an arc, on the circle about the view box's centre. */
  function GetDialCoords(radius: real, startAngle: real, endAngle: real): (c: DialCoords)
    ensures c.start == c.end <==> NormalizeDegrees(startAngle) == NormalizeDegrees(endAngle)
  {
    DialCoords(start := Cartesian(CentreX, CentreY, radius, startAngle),
               end := Cartesian(CentreX, CentreY, radius, endAngle))
  }

  function Abs(x: real): real {
    if x < 0.0 then -x else x
  }

  /** The span between the dial's two angles: the full turn less the angle between them. */
  function SpanAngle(dialStartAngle: real, dialEndAngle: real): (span: real)
    ensures span <= 360.0
    ensures span == 360.0 <==> dialStartAngle == dialEndAngle
  {
    360.0 - Abs(dialStartAngle - dialEndAngle)
  }

  /** getAngle: the share `percentage` of the span `gaugeSpanAngle`. */
  function GetAngle(percentage: real, gaugeSpanAngle: real): (angle: real)
    ensures percentage == 0.0 ==> angle == 0.0
    ensures percentage == 100.0 ==> angle == gaugeSpanAngle
    ensures 0.0 <= percentage <= 100.0 && 0.0 <= gaugeSpanAngle ==> 0.0 <= angle <= gaugeSpanAngle
  {
    percentage * gaugeSpanAngle / 100.0
  }

  /** A large-arc or sweep flag of an SVG arc command. */
  type Bit = b: int | 0 <= b <= 1

  /**
   * The angle an arc with sweep flag 1 turns through from angle `a` to
   * angle `b`: their difference reduced to one turn.
   */
  function PositiveSweep(a: real, b: real): (s: real)
    ensures 0.0 <= s < 360.0
  {
    NormalizeDegrees(b - a)
  }

  /** A large-arc flag agrees with the angle the arc turns through. */
  predicate LargeArcFits(flag: Bit, sweep: real) {
    (flag == 1 ==> sweep >= 180.0) && (flag == 0 ==> sweep <= 180.0)
  }

  /** An arc that runs forward from its start, less than a turn, turns through the difference of its angles. */
  lemma ForwardSweep(startAngle: real, endAngle: real)
    requires startAngle <= endAngle < startAngle + 360.0
    ensures PositiveSweep(startAngle, endAngle) == endAngle - startAngle
  {
  }

  /**
   * An arc whose end angle lies below its start wraps past 360 degrees and
   * turns through the span between the two angles.
   */
  lemma WrappedSweep(startAngle: real, endAngle: real)
    requires endAngle < startAngle < endAngle + 360.0
    ensures PositiveSweep(startAngle, endAngle) == SpanAngle(startAngle, endAngle)
  {
    var d := endAngle - startAngle;
    assert -1.0 < d / 360.0 < 0.0;
  }

  /**
   * The value arc's large-arc flag: 0 when start and end are at most 180
   * degrees apart. The rule fits every arc that runs forward, less than a turn.
   */
  function ValueLargeArc(startAngle: real, endAngle: real): (flag: Bit)
    ensures startAngle <= endAngle < startAngle + 360.0 ==>
      LargeArcFits(flag, PositiveSweep(startAngle, endAngle))
  {
    if Abs(endAngle - startAngle) <= 180.0 then 0 else 1
  }

  /**
   * The dial helper's large-arc flag: 1 when start and end are at most 180
   * degrees apart. The rule fits every arc whose end angle lies below its
   * start, less than a turn, as the dial's does.
   */
  function DialLargeArc(startAngle: real, endAngle: real): (flag: Bit)
    ensures endAngle < startAngle < endAngle + 360.0 ==>
      LargeArcFits(flag, PositiveSweep(startAngle, endAngle))
  {
    if Abs(endAngle - startAngle) <= 180.0 then 1 else 0
  }

  /** One entry of the array a path's `d` attribute is joined from. */
  datatype Token = Command(letter: char) | Number(v: real) | X(p: Point) | Y(p: Point)

  /** A move-to followed by one elliptical arc, the only path shape the component draws. */
  datatype ArcPath = ArcPath(from: Point, rx: real, ry: real, rotation: real, largeArc: Bit, sweep: Bit, to: Point)

  /** The entries `M sx sy A rx ry rotation large sweep ex ey`, in order. */
  function ArcTokens(a: ArcPath): (t: seq<Token>)
    ensures |t| == 11
  {
    [Command('M'), X(a.from), Y(a.from),
     Command('A'), Number(a.rx), Number(a.ry), Number(a.rotation),
     Number(a.largeArc as real), Number(a.sweep as real), X(a.to), Y(a.to)]
  }

  predicate IsBit(t: Token) {
    t == Number(0.0) || t == Number(1.0)
  }

  /** Reads a `d` attribute back as one move-to and one arc, when it has that shape. */
  function ParseArc(t: seq<Token>): Option<ArcPath> {
    if |t| == 11 && t[0] == Command('M') && t[1].X? && t[2] == Y(t[1].p) &&
       t[3] == Command('A') && t[4].Number? && t[5].Number? && t[6].Number? &&
       IsBit(t[7]) && IsBit(t[8]) && t[9].X? && t[10] == Y(t[9].p)
    then
      Some(ArcPath(t[1].p, t[4].v, t[5].v, t[6].v,
                   if t[7].v == 0.0 then 0 else 1,
                   if t[8].v == 0.0 then 0 else 1,
                   t[9].p))
    else None
  }

  /** Writing an arc and reading it back are inverse in both directions. */
  lemma ParseArcInverse(a: ArcPath, t: seq<Token>)
    ensures ParseArc(ArcTokens(a)) == Some(a)
    ensures ParseArc(t).Some? ==> ArcTokens(ParseArc(t).value) == t
  {
  }

  /** createSvgArcPathString: the dial-style arc from `startAngle` to `endAngle`. */
  function CreateSvgArcPathString(radius: real, startAngle: real, endAngle: real): (d: seq<Token>)
    ensures ParseArc(d) == Some(ArcPath(
      Cartesian(CentreX, CentreY, radius, startAngle), radius, radius, 0.0,
      DialLargeArc(startAngle, endAngle), 1,
      Cartesian(CentreX, CentreY, radius, endAngle)))
  {
    var coords := GetDialCoords(radius, startAngle, endAngle);
    var a := ArcPath(coords.start, radius, radius, 0.0, DialLargeArc(startAngle, endAngle), 1, coords.end);
    ParseArcInverse(a, []);
    ArcTokens(a)
  }

  /** The value arc's sweep: none while the span is unset or zero, else the value's share of the span. */
  function ValueAngle(gaugeSpanAngle: Option<real>, value: real): (angle: real)
    ensures gaugeSpanAngle.None? || gaugeSpanAngle == Some(0.0) ==> angle == 0.0
    ensures value == 0.0 ==> angle == 0.0
    ensures gaugeSpanAngle.Some? && value == 100.0 ==> angle == gaugeSpanAngle.value
    ensures gaugeSpanAngle.Some? && 0.0 <= gaugeSpanAngle.value && 0.0 <= value <= 100.0 ==> 0.0 <= angle <= gaugeSpanAngle.value
  {
    if gaugeSpanAngle.Some? && gaugeSpanAngle.value != 0.0 then GetAngle(value, gaugeSpanAngle.value) else 0.0
  }

  /** Where the value arc ends: its sweep past the dial's start angle. */
  function ValueEndAngle(dialStartAngle: real, gaugeSpanAngle: Option<real>, value: real): (endAngle: real)
    ensures value == 0.0 ==> endAngle == dialStartAngle
    ensures gaugeSpanAngle.Some? && value == 100.0 ==> endAngle == dialStartAngle + gaugeSpanAngle.value
    ensures gaugeSpanAngle.Some? && 0.0 <= gaugeSpanAngle.value && 0.0 <= value <= 100.0 ==>
      dialStartAngle <= endAngle <= dialStartAngle + gaugeSpanAngle.value
  {
    dialStartAngle + ValueAngle(gaugeSpanAngle, value)
  }

  /** The `d` attribute setSvgArcPathString writes for `value`. */
  function ValueArcPathString(radius: real, dialStartAngle: real, gaugeSpanAngle: Option<real>, value: real): (d: seq<Token>)
    ensures ParseArc(d) == Some(ArcPath(
      Cartesian(CentreX, CentreY, radius, dialStartAngle), radius, radius, 0.0,
      ValueLargeArc(dialStartAngle, ValueEndAngle(dialStartAngle, gaugeSpanAngle, value)), 1,
      Cartesian(CentreX, CentreY, radius, ValueEndAngle(dialStartAngle, gaugeSpanAngle, value))))
  {
    var endAngle := ValueEndAngle(dialStartAngle, gaugeSpanAngle, value);
    var coords := GetDialCoords(radius, dialStartAngle, endAngle);
    var a := ArcPath(coords.start, radius, radius, 0.0, ValueLargeArc(dialStartAngle, endAngle), 1, coords.end);
    ParseArcInverse(a, []);
    ArcTokens(a)
  }

  /** For the same two angles the two helpers choose opposite flags. */
  lemma LargeArcFlagsDiffer(startAngle: real, endAngle: real)
    ensures ValueLargeArc(startAngle, endAngle) + DialLargeArc(startAngle, endAngle) == 1
  {
  }

  /** The dial helper's rule does not fit a short arc that runs forward. */
  lemma DialLargeArcMisfitsForward(startAngle: real, endAngle: real)
    requires startAngle < endAngle < startAngle + 180.0
    ensures !LargeArcFits(DialLargeArc(startAngle, endAngle), PositiveSweep(startAngle, endAngle))
  {
    ForwardSweep(startAngle, endAngle);
  }

  /**
   * A value between 0 and 100 on a span below a full turn draws a value arc
   * that stays inside the dial, turns through exactly the value's share of
   * the span, and carries a fitting large-arc flag.
   */
  lemma ValueArcWithinDial(dialStartAngle: real, gaugeSpanAngle: real, value: real)
    requires 0.0 < gaugeSpanAngle < 360.0
    requires 0.0 <= value <= 100.0
    ensures dialStartAngle <= ValueEndAngle(dialStartAngle, Some(gaugeSpanAngle), value) <= dialStartAngle + gaugeSpanAngle
    ensures PositiveSweep(dialStartAngle, ValueEndAngle(dialStartAngle, Some(gaugeSpanAngle), value)) == GetAngle(value, gaugeSpanAngle)
    ensures LargeArcFits(
      ValueLargeArc(dialStartAngle, ValueEndAngle(dialStartAngle, Some(gaugeSpanAngle), value)),
      PositiveSweep(dialStartAngle, ValueEndAngle(dialStartAngle, Some(gaugeSpanAngle), value)))
  {
    ForwardSweep(dialStartAngle, ValueEndAngle(dialStartAngle, Some(gaugeSpanAngle), value));
  }

  /**
   * The value rule does not fit a value past the top of the scale: on the
   * default dial the value 150 ends at 540 degrees, one full turn and 45
   * degrees past the dial's start, an arc of 45 degrees that the rule marks
   * as a major arc.
   */
  lemma ValueArcMisfitsPastFullScale()
    ensures ValueEndAngle(135.0, Some(270.0), 150.0) == 540.0
    ensures PositiveSweep(135.0, 540.0) == 45.0
    ensures ValueLargeArc(135.0, 540.0) == 1
    ensures !LargeArcFits(ValueLargeArc(135.0, 540.0), PositiveSweep(135.0, 540.0))
  {
    assert (540.0 - 135.0) / 360.0 == 1.125;
  }

  /**
   * The value rule does not fit a dial whose angles are more than a turn
   * apart: angles 0 and 450 give the span -90, so the value 50 ends at -45
   * degrees, an arc that runs backwards and that sweep flag 1 draws as 315
   * degrees, yet the rule marks it as a minor arc.
   */
  lemma ValueArcRunsBackOnNegativeSpan()
    ensures SpanAngle(0.0, 450.0) == -90.0
    ensures ValueEndAngle(0.0, Some(-90.0), 50.0) == -45.0
    ensures PositiveSweep(0.0, -45.0) == 315.0
    ensures !LargeArcFits(ValueLargeArc(0.0, -45.0), PositiveSweep(0.0, -45.0))
  {
    assert -45.0 / 360.0 == -0.125;
  }

  /**
   * Drawn on the dial's geometry, the value arc starts where the dial arc
   * starts; the value 0 ends there too, and the value 100 ends, a full span
   * on, exactly where the dial arc ends.
   */
  lemma ValueArcSpansDial(radius: real, dialStartAngle: real, dialEndAngle: real)
    requires dialEndAngle < dialStartAngle < dialEndAngle + 360.0
    ensures ParseArc(ValueArcPathString(radius, dialStartAngle, Some(SpanAngle(dialStartAngle, dialEndAngle)), 0.0)).value.from
         == ParseArc(CreateSvgArcPathString(radius, dialStartAngle, dialEndAngle)).value.from
    ensures ParseArc(ValueArcPathString(radius, dialStartAngle, Some(SpanAngle(dialStartAngle, dialEndAngle)), 0.0)).value.to
         == ParseArc(CreateSvgArcPathString(radius, dialStartAngle, dialEndAngle)).value.from
    ensures ParseArc(ValueArcPathString(radius, dialStartAngle, Some(SpanAngle(dialStartAngle, dialEndAngle)), 100.0)).value.to
         == ParseArc(CreateSvgArcPathString(radius, dialStartAngle, dialEndAngle)).value.to
  {
    var span := SpanAngle(dialStartAngle, dialEndAngle);
    assert ValueEndAngle(dialStartAngle, Some(span), 100.0) == dialEndAngle + 360.0;
    CartesianPeriodic(CentreX, CentreY, radius, dialEndAngle);
  }

  /** A path element of the SVG, reduced to its `d` attribute. */
  class PathElement {
    var d: seq<Token>

    constructor (d: seq<Token>)
      ensures this.d == d
    {
      this.d := d;
    }
  }

  /**
   * The value arc's state: its geometry, fixed at construction, and the
   * element and span that the first value render creates.
   */
  class GaugePath {
    var element: PathElement?
    const radius: real
    const dialStartAngle: real
    const dialEndAngle: real
    var gaugeSpanAngle: Option<real>
    const color: string

    /** Once the element exists, the span is the one computed from the dial angles. */
    ghost predicate Valid()
      reads this
    {
      element != null ==> gaugeSpanAngle == Some(SpanAngle(dialStartAngle, dialEndAngle))
    }

    /** The component's initial path: radius 45, dial from 135 to 45 degrees, nothing rendered. */
    constructor Default()
      ensures Valid()
      ensures element == null && gaugeSpanAngle == None
      ensures radius == 45.0 && dialStartAngle == 135.0 && dialEndAngle == 45.0 && color == "#129"
    {
      element := null;
      radius := 45.0;
      dialStartAngle := 135.0;
      dialEndAngle := 45.0;
      gaugeSpanAngle := None;
      color := "#129";
    }

    /** setSvgArcPathString: rewrites the value arc of an existing element; without one, nothing changes. */
    method SetSvgArcPathString(value: real)
      modifies element
      ensures element != null ==> element.d == ValueArcPathString(radius, dialStartAngle, gaugeSpanAngle, value)
    {
      if element != null {
        element.d := ValueArcPathString(radius, dialStartAngle, gaugeSpanAngle, value);
      }
    }

    /**
     * updatePath: on the first call, fixes the span and creates the value
     * element (first drawn as the whole dial); on every call, draws the arc
     * for `value` into that element.
     */
    method UpdatePath(value: real)
      requires Valid()
      modifies this, element
      ensures Valid() && element != null
      ensures old(element) == null ==> fresh(element)
      ensures old(element) != null ==> element == old(element) && gaugeSpanAngle == old(gaugeSpanAngle)
      ensures gaugeSpanAngle == Some(SpanAngle(dialStartAngle, dialEndAngle))
      ensures element.d == ValueArcPathString(radius, dialStartAngle, gaugeSpanAngle, value)
    {
      if element == null {
        gaugeSpanAngle := Some(SpanAngle(dialStartAngle, dialEndAngle));
        var valuePath := new PathElement(CreateSvgArcPathString(radius, dialStartAngle, dialEndAngle));
        element := valuePath;
      }
      SetSvgArcPathString(value);
    }
  }

  /** One entry of the change record the framework passes to ngOnChanges. */
  datatype SimpleChange = SimpleChange(previousValue: real, currentValue: real, firstChange: bool)

  /** Whether ngOnChanges redraws: `value` changed, not for the first time, and the SVG exists. */
  predicate RedrawsOn(changes: map<string, SimpleChange>, svgElement: bool)
    ensures !svgElement ==> !RedrawsOn(changes, svgElement)
    ensures "value" !in changes ==> !RedrawsOn(changes, svgElement)
    ensures "value" in changes && changes["value"].firstChange ==> !RedrawsOn(changes, svgElement)
  {
    "value" in changes && !changes["value"].firstChange && svgElement
  }

  /** The gauge component: its input value, its SVG (present or not), the dial arc and the value path. */
  class GaugeComponent {
    var value: real
    var svgElement: bool
    var dial: PathElement?
    const path: GaugePath

    ghost predicate Valid()
      reads this, path
    {
      path.Valid() && (dial != null ==> dial != path.element)
    }

    constructor ()
      ensures Valid() && fresh(path)
      ensures value == 0.0 && !svgElement && dial == null
      ensures path.element == null && path.gaugeSpanAngle == None
      ensures path.radius == 45.0 && path.dialStartAngle == 135.0 && path.dialEndAngle == 45.0 && path.color == "#129"
    {
      value := 0.0;
      svgElement := false;
      dial := null;
      path := new GaugePath.Default();
    }

    /**
     * ngAfterViewInit: creates the SVG with the dial arc drawn from 135 to 45
     * degrees, then renders the value 50.
     */
    method NgAfterViewInit()
      requires Valid()
      modifies this, path, path.element
      ensures Valid() && svgElement && value == old(value)
      ensures fresh(dial) && dial.d == CreateSvgArcPathString(path.radius, 135.0, 45.0)
      ensures path.element != null && (old(path.element) == null ==> fresh(path.element))
      ensures old(path.element) != null ==> path.element == old(path.element)
      ensures path.gaugeSpanAngle == Some(SpanAngle(path.dialStartAngle, path.dialEndAngle))
      ensures path.element.d == ValueArcPathString(path.radius, path.dialStartAngle, path.gaugeSpanAngle, 50.0)
    {
      svgElement := true;
      var dialPath := new PathElement(CreateSvgArcPathString(path.radius, 135.0, 45.0));
      dial := dialPath;
      path.UpdatePath(50.0);
    }

    /** ngOnChanges: redraws the value arc for the current `value` only when RedrawsOn holds. */
    method NgOnChanges(changes: map<string, SimpleChange>)
      requires Valid()
      modifies path, path.element
      ensures Valid()
      ensures RedrawsOn(changes, svgElement) ==>
        path.element != null &&
        (old(path.element) == null ==> fresh(path.element)) &&
        (old(path.element) != null ==> path.element == old(path.element)) &&
        path.gaugeSpanAngle == Some(SpanAngle(path.dialStartAngle, path.dialEndAngle)) &&
        path.element.d == ValueArcPathString(path.radius, path.dialStartAngle, path.gaugeSpanAngle, value)
      ensures !RedrawsOn(changes, svgElement) ==>
        path.element == old(path.element) && path.gaugeSpanAngle == old(path.gaugeSpanAngle) &&
        (path.element != null ==> path.element.d == old(path.element.d))
    {
      if RedrawsOn(changes, svgElement) {
        path.UpdatePath(value);
      }
    }
  }

  /**
   * The default gauge's first render: span 270, the value 50 ends at 270
   * degrees on a minor arc, and the dial arc turns through the whole span on
   * a major arc.
   */
  lemma DefaultFirstRender()
    ensures SpanAngle(135.0, 45.0) == 270.0
    ensures ValueEndAngle(135.0, Some(270.0), 50.0) == 270.0
    ensures ParseArc(ValueArcPathString(45.0, 135.0, Some(270.0), 50.0)) == Some(ArcPath(
      Cartesian(50.0, 50.0, 45.0, 135.0), 45.0, 45.0, 0.0, 0, 1, Cartesian(50.0, 50.0, 45.0, 270.0)))
    ensures ParseArc(CreateSvgArcPathString(45.0, 135.0, 45.0)).value.largeArc == 1
    ensures PositiveSweep(135.0, 45.0) == 270.0
  {
    assert GetAngle(50.0, 270.0) == 135.0;
    assert ValueLargeArc(135.0, 270.0) == 0;
    var d := ValueArcPathString(45.0, 135.0, Some(270.0), 50.0);
    assert ParseArc(d).Some?;
    assert DialLargeArc(135.0, 45.0) == 1;
    WrappedSweep(135.0, 45.0);
  }
}
