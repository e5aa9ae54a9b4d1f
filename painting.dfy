/**
 * The painting session of script.js (`ConstructivistPainting`): the committed
 * shape list, the single temporary (live) shape, and the session's angle,
 * colour, cursor and canvas size, with the commands the key handlers call.
 */
module Painting {
  import opened Options
  import opened Shapes
  import opened Rendering

  /** π as 3.141592653589793, the decimal JavaScript prints for `Math.PI`. */
  const Pi: real := 3.141592653589793
  const InitialAngle: real := Pi / 6.0
  const DeltaAngle: real := Pi / 24.0

  /** A reference to a shape object, tagged with its class. */
  datatype ShapeRef = CircleRef(circle: Circle) | RectangleRef(rectangle: Rectangle)

  function Obj(r: ShapeRef): object
  {
    match r
    case CircleRef(c) => c
    case RectangleRef(q) => q
  }

  function ValueOf(r: ShapeRef): (v: ShapeValue)
    reads Obj(r)
    ensures v.CircleValue? <==> r.CircleRef?
  {
    match r
    case CircleRef(c) => c.Value()
    case RectangleRef(q) => q.Value()
  }

  /** The current value of an entry that may be `undefined`. */
  function EntryValue(e: Option<ShapeRef>): Option<ShapeValue>
    reads if e.Some? then {Obj(e.value)} else {}
  {
    if e.None? then None else Some(ValueOf(e.value))
  }

  class ConstructivistPainting {
    var canvasWidth: Coord
    var canvasHeight: Coord
    var cursorX: Coord
    var cursorY: Coord
    var angle: real
    const deltaAngle: real
    /**
     * The committed list. The source keeps the shape objects; a committed object
     * is never changed again (the slot that referred to it is emptied in the same
     * step), so the list keeps their values.
     */
    var shapes: seq<Option<ShapeValue>>
    var temporaryShape: Option<ShapeRef>
    var currentColor: Paint

    function TemporaryObjects(): set<object>
      reads this`temporaryShape
    {
      if temporaryShape.Some? then {Obj(temporaryShape.value)} else {}
    }

    /** The live shape as it is now, if there is one. */
    function Temporary(): Option<ShapeValue>
      reads this`temporaryShape, TemporaryObjects()
    {
      EntryValue(temporaryShape)
    }

    /** The session invariant: every committed shape and the live shape are well-formed. */
    ghost predicate Valid()
      reads this`shapes, this`temporaryShape, TemporaryObjects()
    {
      AllWellFormed(shapes) && (Temporary().Some? ==> WellFormed(Temporary().value))
    }

    /** The canvas context the source also keeps is not part of this model. */
    constructor ()
      ensures Valid()
      ensures canvasWidth.None? && canvasHeight.None? && cursorX.None? && cursorY.None?
      ensures angle == InitialAngle && deltaAngle == DeltaAngle && deltaAngle > 0.0
      ensures shapes == [] && temporaryShape.None? && currentColor.None?
    {
      canvasWidth, canvasHeight := None, None;
      cursorX, cursorY := None, None;
      angle := InitialAngle;
      deltaAngle := DeltaAngle;
      shapes := [];
      temporaryShape := None;
      currentColor := None;
    }

    /** Stores the canvas size; the guide length derived from it is not modelled. */
    method UpdateCanvasSize(width: real, height: real)
      modifies this`canvasWidth, this`canvasHeight
      ensures canvasWidth == Some(width) && canvasHeight == Some(height)
    {
      canvasWidth := Some(width);
      canvasHeight := Some(height);
    }

    method SetCursorPosition(x: real, y: real)
      modifies this`cursorX, this`cursorY
      ensures cursorX == Some(x) && cursorY == Some(y)
    {
      cursorX := Some(x);
      cursorY := Some(y);
    }

    /** Turns the line of force; the live shape, if any, keeps its own orientation. */
    method IncreaseAngle()
      modifies this`angle
      ensures angle == old(angle) + deltaAngle
      ensures Temporary() == old(Temporary()) && shapes == old(shapes)
    {
      angle := angle + deltaAngle;
    }

    method DecreaseAngle()
      modifies this`angle
      ensures angle == old(angle) - deltaAngle
      ensures Temporary() == old(Temporary()) && shapes == old(shapes)
    {
      angle := angle - deltaAngle;
    }

    method SetAngle(angle: real)
      modifies this`angle
      ensures this.angle == angle
      ensures Temporary() == old(Temporary()) && shapes == old(shapes)
    {
      this.angle := angle;
    }

    method SetCurrentColor(color: string)
      modifies this`currentColor
      ensures currentColor == Some(color)
      ensures Temporary() == old(Temporary()) && shapes == old(shapes)
    {
      currentColor := Some(color);
    }

    /**
     * Commits the temporary shape by appending it to the list, then empties the
     * slot. With no temporary shape this appends an `undefined` entry.
     */
    method SaveTemporaryShape()
      requires Valid()
      modifies this`shapes, this`temporaryShape
      ensures Valid()
      ensures shapes == old(shapes) + [old(Temporary())] && temporaryShape.None?
    {
      AllWellFormedAppend(shapes, Temporary());
      shapes := shapes + [Temporary()];
      ResetTemporaryShape();
    }

    /**
     * The commit the session is meant to have: it only commits a live shape, so
     * with no temporary shape it changes nothing and the list never gains an
     * `undefined` entry.
     */
    method CommitTemporaryShape()
      requires Valid()
      modifies this`shapes, this`temporaryShape
      ensures Valid() && temporaryShape.None?
      ensures old(temporaryShape).None? ==> shapes == old(shapes)
      ensures old(temporaryShape).Some? ==> shapes == old(shapes) + [old(Temporary())]
      ensures NoUndefined(old(shapes)) ==> NoUndefined(shapes)
    {
      if temporaryShape.Some? {
        SaveTemporaryShape();
      }
    }

    /** Discards the temporary shape; the committed list is untouched. */
    method ResetTemporaryShape()
      requires Valid()
      modifies this`temporaryShape
      ensures Valid()
      ensures temporaryShape.None?
      ensures shapes == old(shapes)
    {
      temporaryShape := None;
    }

    /**
     * Starts a new circle at the cursor in the current colour, replacing (not
     * committing) any live shape.
     */
    method CreateTemporaryCircle()
      requires Valid()
      modifies this`temporaryShape
      ensures Valid()
      ensures temporaryShape.Some? && temporaryShape.value.CircleRef? && fresh(Obj(temporaryShape.value))
      ensures Temporary() == Some(NewCircle(cursorX, cursorY, currentColor))
      ensures shapes == old(shapes)
    {
      var circle := new Circle(cursorX, cursorY, currentColor);
      temporaryShape := Some(CircleRef(circle));
    }

    /**
     * Starts a new rectangle at the cursor in the current colour, oriented along
     * the current line of force, replacing (not committing) any live shape.
     */
    method CreateTemporaryRectangle()
      requires Valid()
      modifies this`temporaryShape
      ensures Valid()
      ensures temporaryShape.Some? && temporaryShape.value.RectangleRef? && fresh(Obj(temporaryShape.value))
      ensures Temporary() == Some(NewRectangle(angle, cursorX, cursorY, currentColor))
      ensures shapes == old(shapes)
    {
      var rectangle := new Rectangle(angle, cursorX, cursorY, currentColor);
      temporaryShape := Some(RectangleRef(rectangle));
    }

    /** Grows the live shape along its main direction: a circle's radius, a rectangle's length. */
    method GrowMainDirection()
      requires Valid()
      modifies TemporaryObjects()
      ensures Valid()
      ensures Temporary() == EditLive(GrowMain, old(Temporary()))
      ensures shapes == old(shapes)
    {
      if temporaryShape.None? {
        return;
      }
      match temporaryShape.value {
        case CircleRef(circle) => circle.IncreaseRadius();
        case RectangleRef(rectangle) => rectangle.IncreaseLength();
      }
    }

    /** Grows a live rectangle's width; a live circle is left as it is. */
    method GrowSecondaryDirection()
      requires Valid()
      modifies TemporaryObjects()
      ensures Valid()
      ensures Temporary() == EditLive(GrowSecondary, old(Temporary()))
      ensures shapes == old(shapes)
    {
      if temporaryShape.None? {
        return;
      }
      if temporaryShape.value.RectangleRef? {
        temporaryShape.value.rectangle.IncreaseWidth();
      }
    }

    /** Raises a live rectangle's widthSkew; a live circle is left as it is. */
    method SkewMainDirection()
      requires Valid()
      modifies TemporaryObjects()
      ensures Valid()
      ensures Temporary() == EditLive(SkewMain, old(Temporary()))
      ensures shapes == old(shapes)
    {
      if temporaryShape.None? {
        return;
      }
      if temporaryShape.value.RectangleRef? {
        temporaryShape.value.rectangle.IncreaseWidthSkew();
      }
    }

    /** Raises a live rectangle's lengthSkew; a live circle is left as it is. */
    method SkewSecondaryDirection()
      requires Valid()
      modifies TemporaryObjects()
      ensures Valid()
      ensures Temporary() == EditLive(SkewSecondary, old(Temporary()))
      ensures shapes == old(shapes)
    {
      if temporaryShape.None? {
        return;
      }
      if temporaryShape.value.RectangleRef? {
        temporaryShape.value.rectangle.IncreaseLengthSkew();
      }
    }

    /**
     * One full redraw, returned as its trace of draw events; the session itself
     * is not changed.
     */
    method Redraw() returns (trace: seq<DrawEvent>)
      ensures trace == Render(shapes, Temporary(), cursorX, cursorY, angle, canvasWidth, canvasHeight)
    {
      var clear := [Clear(canvasWidth, canvasHeight)];
      trace := clear;
      // the `forEach` over the committed list; `redraw` on an `undefined` entry throws
      var committed, i := shapes, 0;
      while i < |committed| && committed[i].Some?
        invariant i <= |committed|
        invariant forall j :: 0 <= j < i ==> committed[j].Some?
        invariant trace == clear + ShapeEvents(committed, i)
      {
        trace := trace + [ShapeEvent(committed[i].value)];
        i := i + 1;
      }
      FirstUndefinedAt(committed, i);
      if i < |committed| {
        trace := trace + [TypeError];
        return;
      }
      var temporary, overlay := Temporary(), [];
      if temporary.Some? {
        overlay := [ShapeEvent(temporary.value)];
      }
      // `redrawLineOfForce`
      overlay := overlay + LineOfForceEvents(cursorX, cursorY, angle);
      assert overlay == Overlay(temporary, cursorX, cursorY, angle);
      trace := trace + overlay;
    }
  }
}
