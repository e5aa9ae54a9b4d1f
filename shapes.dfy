/**
 * The two shape kinds of script.js, `Circle` and `Rectangle`: their starting
 * sizes, their growth and skew steps, and the way the session dispatches a
 * growth or skew command on the kind of the live shape.
 */
module Shapes {
  import opened Options

  /** A canvas coordinate; `None` is `undefined` (no pointer position recorded yet). */
  type Coord = Option<real>

  /** An opaque colour token; `None` while no colour has been picked. */
  type Paint = Option<string>

  const InitialRadius: int := 10
  const RadiusStep: int := 5
  const InitialLength: int := 30
  const InitialWidth: int := 10
  const SideStep: int := 5
  const SkewStep: int := 1

  /** What a shape object holds at one moment. */
  datatype ShapeValue =
    | CircleValue(centerX: Coord, centerY: Coord, color: Paint, radius: int)
    | RectangleValue(centerX: Coord, centerY: Coord, color: Paint, angle: real,
                     length: int, width: int, lengthSkew: int, widthSkew: int)

  function NewCircle(centerX: Coord, centerY: Coord, color: Paint): ShapeValue
  {
    CircleValue(centerX, centerY, color, InitialRadius)
  }

  function NewRectangle(angle: real, centerX: Coord, centerY: Coord, color: Paint): ShapeValue
  {
    RectangleValue(centerX, centerY, color, angle, InitialLength, InitialWidth, 0, 0)
  }

  /**
   * The shape invariant: every size is its starting value plus a whole number of
   * steps, and the skews are non-negative counts.
   */
  predicate WellFormed(s: ShapeValue)
  {
    match s
    case CircleValue(_, _, _, r) =>
      r >= InitialRadius && (r - InitialRadius) % RadiusStep == 0
    case RectangleValue(_, _, _, _, l, w, ls, ws) =>
      l >= InitialLength && (l - InitialLength) % SideStep == 0 &&
      w >= InitialWidth && (w - InitialWidth) % SideStep == 0 &&
      ls >= 0 && ws >= 0
  }

  /** Every defined entry of a shape list is well-formed. */
  predicate AllWellFormed(c: seq<Option<ShapeValue>>)
  {
    forall i :: 0 <= i < |c| && c[i].Some? ==> WellFormed(c[i].value)
  }

  lemma AllWellFormedAppend(c: seq<Option<ShapeValue>>, e: Option<ShapeValue>)
    requires AllWellFormed(c) && (e.Some? ==> WellFormed(e.value))
    ensures AllWellFormed(c + [e])
  {
  }

  /** A well-formed shape has positive extent. */
  lemma WellFormedIsPositive(s: ShapeValue)
    requires WellFormed(s)
    ensures s.CircleValue? ==> s.radius > 0
    ensures s.RectangleValue? ==> s.length > 0 && s.width > 0
  {
  }

  lemma NewShapesWellFormed(angle: real, centerX: Coord, centerY: Coord, color: Paint)
    ensures WellFormed(NewCircle(centerX, centerY, color))
    ensures WellFormed(NewRectangle(angle, centerX, centerY, color))
  {
  }

  /** The four edit commands of the session, named after the key handlers. */
  datatype Edit = GrowMain | GrowSecondary | SkewMain | SkewSecondary

  /**
   * One edit applied to a shape. A circle only answers GrowMain; note the
   * crossing of the skews: SkewMain raises widthSkew, SkewSecondary lengthSkew.
   */
  function Apply(e: Edit, s: ShapeValue): (r: ShapeValue)
    ensures r.CircleValue? == s.CircleValue?
    ensures r.centerX == s.centerX && r.centerY == s.centerY && r.color == s.color
    ensures r.RectangleValue? ==> r.angle == s.angle
    ensures s.CircleValue? && e != GrowMain ==> r == s
    ensures WellFormed(s) ==> WellFormed(r)
  {
    match s
    case CircleValue(_, _, _, radius) =>
      if e == GrowMain then s.(radius := radius + RadiusStep) else s
    case RectangleValue(_, _, _, _, length, width, lengthSkew, widthSkew) =>
      match e
      case GrowMain => s.(length := length + SideStep)
      case GrowSecondary => s.(width := width + SideStep)
      case SkewMain => s.(widthSkew := widthSkew + SkewStep)
      case SkewSecondary => s.(lengthSkew := lengthSkew + SkewStep)
  }

  /** An edit on the session's optional live shape: nothing happens when there is none. */
  function EditLive(e: Edit, live: Option<ShapeValue>): Option<ShapeValue>
  {
    if live.None? then None else Some(Apply(e, live.value))
  }

  /** A sequence of edits, applied first to last. */
  function ApplyAll(s: ShapeValue, es: seq<Edit>): ShapeValue
    decreases |es|
  {
    if es == [] then s else ApplyAll(Apply(es[0], s), es[1..])
  }

  /**
   * Whatever the order of the edits, each size field moves by its step times the
   * number of edits that address it, independently of the others, and the kind,
   * centre, colour and orientation never change.
   */
  lemma {:induction false} ApplyAllCounts(s: ShapeValue, es: seq<Edit>)
    ensures var r, n := ApplyAll(s, es), multiset(es);
      r.CircleValue? == s.CircleValue? &&
      r.centerX == s.centerX && r.centerY == s.centerY && r.color == s.color &&
      (s.CircleValue? ==> r.radius == s.radius + RadiusStep * n[GrowMain]) &&
      (s.RectangleValue? ==>
         r.angle == s.angle &&
         r.length == s.length + SideStep * n[GrowMain] &&
         r.width == s.width + SideStep * n[GrowSecondary] &&
         r.widthSkew == s.widthSkew + SkewStep * n[SkewMain] &&
         r.lengthSkew == s.lengthSkew + SkewStep * n[SkewSecondary])
    decreases |es|
  {
    if es != [] {
      ApplyAllCounts(Apply(es[0], s), es[1..]);
      assert es == [es[0]] + es[1..];
      assert multiset(es) == multiset{es[0]} + multiset(es[1..]);
    }
  }

  /** Any sequence of edits keeps a shape well-formed. */
  lemma {:induction false} ApplyAllWellFormed(s: ShapeValue, es: seq<Edit>)
    requires WellFormed(s)
    ensures WellFormed(ApplyAll(s, es))
    decreases |es|
  {
    if es != [] {
      ApplyAllWellFormed(Apply(es[0], s), es[1..]);
    }
  }

  /** A new circle grown k times has radius 10 + 5k, which is positive. */
  lemma GrownCircleRadius(centerX: Coord, centerY: Coord, color: Paint, es: seq<Edit>)
    ensures var r := ApplyAll(NewCircle(centerX, centerY, color), es);
      r.CircleValue? && r.radius == 10 + 5 * multiset(es)[GrowMain] && r.radius > 0
  {
    ApplyAllCounts(NewCircle(centerX, centerY, color), es);
  }

  /**
   * A new rectangle after any edits: length 30 + 5g, width 10 + 5h, widthSkew s
   * and lengthSkew d, where g, h, s, d count the GrowMain, GrowSecondary, SkewMain
   * and SkewSecondary edits; its orientation is the one it was created with.
   */
  lemma EditedRectangle(angle: real, centerX: Coord, centerY: Coord, color: Paint, es: seq<Edit>)
    ensures var r, n := ApplyAll(NewRectangle(angle, centerX, centerY, color), es), multiset(es);
      r == RectangleValue(centerX, centerY, color, angle,
                          30 + 5 * n[GrowMain], 10 + 5 * n[GrowSecondary],
                          n[SkewSecondary], n[SkewMain])
  {
    ApplyAllCounts(NewRectangle(angle, centerX, centerY, color), es);
  }

  /** A circle object (script.js `Circle`); its centre and colour are fixed at creation. */
  class Circle {
    const centerX: Coord
    const centerY: Coord
    const color: Paint
    var radius: int

    function Value(): ShapeValue
      reads this
    {
      CircleValue(centerX, centerY, color, radius)
    }

    constructor (centerX: Coord, centerY: Coord, color: Paint)
      ensures Value() == NewCircle(centerX, centerY, color)
    {
      this.centerX := centerX;
      this.centerY := centerY;
      this.color := color;
      radius := InitialRadius;
    }

    method IncreaseRadius()
      modifies this`radius
      ensures radius == old(radius) + RadiusStep
    {
      radius := radius + RadiusStep;
    }
  }

  /**
   * A rectangle object (script.js `Rectangle`); its orientation, centre and colour
   * are fixed at creation, its sizes and skews grow one field at a time.
   */
  class Rectangle {
    const angle: real
    const centerX: Coord
    const centerY: Coord
    const color: Paint
    var length: int
    var width: int
    var lengthSkew: int
    var widthSkew: int

    function Value(): ShapeValue
      reads this
    {
      RectangleValue(centerX, centerY, color, angle, length, width, lengthSkew, widthSkew)
    }

    constructor (angle: real, centerX: Coord, centerY: Coord, color: Paint)
      ensures Value() == NewRectangle(angle, centerX, centerY, color)
    {
      this.angle := angle;
      this.centerX := centerX;
      this.centerY := centerY;
      this.color := color;
      length := InitialLength;
      width := InitialWidth;
      lengthSkew := 0;
      widthSkew := 0;
    }

    method IncreaseLength()
      modifies this`length
      ensures length == old(length) + SideStep
      ensures width == old(width) && lengthSkew == old(lengthSkew) && widthSkew == old(widthSkew)
    {
      length := length + SideStep;
    }

    method IncreaseWidth()
      modifies this`width
      ensures width == old(width) + SideStep
      ensures length == old(length) && lengthSkew == old(lengthSkew) && widthSkew == old(widthSkew)
    {
      width := width + SideStep;
    }

    method IncreaseLengthSkew()
      modifies this`lengthSkew
      ensures lengthSkew == old(lengthSkew) + SkewStep
      ensures length == old(length) && width == old(width) && widthSkew == old(widthSkew)
    {
      lengthSkew := lengthSkew + SkewStep;
    }

    method IncreaseWidthSkew()
      modifies this`widthSkew
      ensures widthSkew == old(widthSkew) + SkewStep
      ensures length == old(length) && width == old(width) && lengthSkew == old(lengthSkew)
    {
      widthSkew := widthSkew + SkewStep;
    }
  }
}
