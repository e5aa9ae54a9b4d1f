/**
 * What a full redraw of the painting (script.js `ConstructivistPainting.redraw`)
 * draws, as an ordered trace of draw events. Each event stands for the canvas
 * calls one render step makes; the pixels they produce are not part of this model.
 */
module Rendering {
  import opened Options
  import opened Geometry
  import opened Shapes

  datatype DrawEvent =
      /** `clearRect(0, 0, canvasWidth, canvasHeight)`. */
    | Clear(width: Coord, height: Coord)
      /** A circle's `arc` + `fill`. */
    | FillDisc(centerX: Coord, centerY: Coord, radius: int, color: Paint)
      /**
       * A rectangle's `moveTo`/`lineTo` path + `fill`; the outline is in the
       * rectangle's own frame, placed by rotating it by `angle` about the centre.
       */
    | FillPolygon(centerX: Coord, centerY: Coord, angle: real, outline: seq<PathStep>, color: Paint)
      /** The two guide strokes through the cursor, steered by the session angle. */
    | LineOfForce(cursorX: real, cursorY: real, angle: real)
      /** Calling `redraw` on an `undefined` list entry throws; the pass stops there. */
    | TypeError

  /** How one shape renders itself (`Circle.redraw`, `Rectangle.redraw`). */
  function ShapeEvent(s: ShapeValue): (ev: DrawEvent)
    ensures s.CircleValue? <==> ev.FillDisc?
    ensures ev.FillDisc? ==> ev.radius == s.radius
    ensures s.RectangleValue? ==> ev.FillPolygon? && ev.outline == Outline(CornerOffsets(s.length, s.width, s.lengthSkew, s.widthSkew))
    ensures ev.FillPolygon? ==>
      ev.angle == s.angle && |ev.outline| == 5 &&
      ev.outline[0].to == Neg(ev.outline[2].to) && ev.outline[1].to == Neg(ev.outline[3].to)
    ensures !ev.LineOfForce? && !ev.TypeError? && !ev.Clear?
    ensures (ev.FillDisc? || ev.FillPolygon?) && ev.centerX == s.centerX && ev.centerY == s.centerY && ev.color == s.color
  {
    match s
    case CircleValue(x, y, color, radius) => FillDisc(x, y, radius, color)
    case RectangleValue(x, y, color, angle, length, width, lengthSkew, widthSkew) =>
      FillPolygon(x, y, angle, Outline(CornerOffsets(length, width, lengthSkew, widthSkew)), color)
  }

  /** JavaScript truthiness of a coordinate: `undefined` and 0 are falsy. */
  predicate Falsy(c: Coord)
  {
    c.None? || c.value == 0.0
  }

  /** The list has no `undefined` entry. */
  predicate NoUndefined(c: seq<Option<ShapeValue>>)
  {
    forall i :: 0 <= i < |c| ==> c[i].Some?
  }

  /** Index of the first `undefined` entry of the list, or its length if there is none. */
  function FirstUndefined(c: seq<Option<ShapeValue>>): (k: nat)
    ensures k <= |c|
    ensures forall i :: 0 <= i < k ==> c[i].Some?
    ensures k < |c| ==> c[k].None?
  {
    if c == [] || c[0].None? then 0 else 1 + FirstUndefined(c[1..])
  }

  /** The first `undefined` entry is the one every earlier entry is defined before. */
  lemma FirstUndefinedAt(c: seq<Option<ShapeValue>>, i: nat)
    requires i <= |c| && (forall j :: 0 <= j < i ==> c[j].Some?) && (i < |c| ==> c[i].None?)
    ensures FirstUndefined(c) == i
  {
    var k := FirstUndefined(c);
    if k != i {
      assert false;
    }
  }

  /** The events of the first k entries of the list, each a defined shape, in list order. */
  function ShapeEvents(c: seq<Option<ShapeValue>>, k: nat): (evs: seq<DrawEvent>)
    requires k <= |c| && forall i :: 0 <= i < k ==> c[i].Some?
    ensures |evs| == k
    ensures forall i :: 0 <= i < k ==> evs[i] == ShapeEvent(c[i].value)
  {
    if k == 0 then [] else ShapeEvents(c, k - 1) + [ShapeEvent(c[k - 1].value)]
  }

  /**
   * What a completed pass draws after the committed shapes: the temporary shape
   * if present, then the line of force unless a cursor coordinate is falsy.
   */
  function Overlay(temporary: Option<ShapeValue>, cursorX: Coord, cursorY: Coord, angle: real): seq<DrawEvent>
  {
    (if temporary.Some? then [ShapeEvent(temporary.value)] else []) + LineOfForceEvents(cursorX, cursorY, angle)
  }

  /**
   * `redrawLineOfForce`: the guide through the cursor at the session angle,
   * skipped when a cursor coordinate is `undefined` or 0.
   */
  function LineOfForceEvents(cursorX: Coord, cursorY: Coord, angle: real): (drawn: seq<DrawEvent>)
    ensures |drawn| <= 1
    ensures drawn != [] <==> !Falsy(cursorX) && !Falsy(cursorY)
    ensures drawn != [] ==> drawn[0] == LineOfForce(cursorX.value, cursorY.value, angle)
  {
    if Falsy(cursorX) || Falsy(cursorY) then [] else [LineOfForce(cursorX.value, cursorY.value, angle)]
  }

  /**
   * The trace of one redraw: clear the canvas, render the committed shapes in
   * list order, then the overlay. An `undefined` list entry throws when it is
   * reached, and nothing after it is drawn.
   */
  function Render(committed: seq<Option<ShapeValue>>, temporary: Option<ShapeValue>,
                  cursorX: Coord, cursorY: Coord, angle: real,
                  width: Coord, height: Coord): seq<DrawEvent>
  {
    var k := FirstUndefined(committed);
    [Clear(width, height)] + ShapeEvents(committed, k) +
    if k < |committed| then [TypeError] else Overlay(temporary, cursorX, cursorY, angle)
  }

  /** 1 for true, 0 for false. */
  function Count(b: bool): nat { if b then 1 else 0 }

  /**
   * With no `undefined` entry the redraw completes: the clear comes first, every
   * committed shape follows at its list position, then the temporary shape, and
   * the line of force is drawn last exactly when both cursor coordinates are truthy.
   */
  lemma RedrawOrder(committed: seq<Option<ShapeValue>>, temporary: Option<ShapeValue>,
                    cursorX: Coord, cursorY: Coord, angle: real, width: Coord, height: Coord)
    requires NoUndefined(committed)
    ensures var t, n := Render(committed, temporary, cursorX, cursorY, angle, width, height), |committed|;
      var shown := !Falsy(cursorX) && !Falsy(cursorY);
      |t| == 1 + n + Count(temporary.Some?) + Count(shown) &&
      t[0] == Clear(width, height) &&
      (forall i :: 0 <= i < n ==> t[1 + i] == ShapeEvent(committed[i].value)) &&
      (temporary.Some? ==> t[1 + n] == ShapeEvent(temporary.value)) &&
      (shown <==> t[|t| - 1].LineOfForce?) &&
      (shown ==> t[|t| - 1] == LineOfForce(cursorX.value, cursorY.value, angle)) &&
      TypeError !in t
  {
    var n := |committed|;
    assert FirstUndefined(committed) == n;
    var shapes := ShapeEvents(committed, n);
    var overlay := Overlay(temporary, cursorX, cursorY, angle);
    var t := Render(committed, temporary, cursorX, cursorY, angle, width, height);
    assert t == [Clear(width, height)] + shapes + overlay;
    assert forall ev :: ev in shapes ==> !ev.TypeError? && !ev.LineOfForce? by {
      forall ev | ev in shapes ensures !ev.TypeError? && !ev.LineOfForce? {
        var i :| 0 <= i < n && shapes[i] == ev;
      }
    }
    assert TypeError !in overlay;
  }

  /**
   * An `undefined` entry anywhere in the list aborts every redraw: after the clear
   * and the shapes before the first `undefined` entry comes the thrown error, and
   * nothing else; neither the temporary shape nor the line of force is drawn.
   */
  lemma UndefinedEntryAbortsRedraw(committed: seq<Option<ShapeValue>>, j: nat, temporary: Option<ShapeValue>,
                                   cursorX: Coord, cursorY: Coord, angle: real, width: Coord, height: Coord)
    requires j < |committed| && committed[j].None?
    ensures Render(committed, temporary, cursorX, cursorY, angle, width, height) ==
      [Clear(width, height)] + ShapeEvents(committed, FirstUndefined(committed)) + [TypeError]
    ensures var t := Render(committed, temporary, cursorX, cursorY, angle, width, height);
      t[|t| - 1] == TypeError &&
      |t| == FirstUndefined(committed) + 2 && FirstUndefined(committed) <= j &&
      forall i :: 0 <= i < |t| ==> !t[i].LineOfForce?
  {
    assert FirstUndefined(committed) <= j;
  }

  /**
   * The session angle only steers the line of force: two redraws that differ
   * only in it draw the same events except the line of force.
   */
  lemma AngleOnlySteersLineOfForce(committed: seq<Option<ShapeValue>>, temporary: Option<ShapeValue>,
                                   cursorX: Coord, cursorY: Coord, a1: real, a2: real, width: Coord, height: Coord)
    ensures var t1, t2 := Render(committed, temporary, cursorX, cursorY, a1, width, height),
                          Render(committed, temporary, cursorX, cursorY, a2, width, height);
      |t1| == |t2| && forall i :: 0 <= i < |t1| && t1[i] != t2[i] ==> t1[i].LineOfForce? && t2[i].LineOfForce?
  {
  }
}
