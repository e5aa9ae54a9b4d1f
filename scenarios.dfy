/** Sessions driven through the commands the key handlers of script.js issue. */
module Scenarios {
  import opened Options
  import opened Shapes
  import opened Rendering
  import opened Painting

  /** Cursor at (50, 50), red, 'c', 'g', 'g', Enter: one red circle of radius 20 is committed. */
  method GrowAndCommitCircle() returns (committed: seq<Option<ShapeValue>>)
    ensures committed == [Some(CircleValue(Some(50.0), Some(50.0), Some("red"), 20))]
  {
    var painting := new ConstructivistPainting();
    painting.SetCursorPosition(50.0, 50.0);
    painting.SetCurrentColor("red");
    painting.CreateTemporaryCircle();
    painting.GrowMainDirection();
    painting.GrowMainDirection();
    painting.SaveTemporaryShape();
    committed := painting.shapes;
  }

  /**
   * 'r', 's', a clockwise angle step, 's': widthSkew is 2, lengthSkew stays 0,
   * and the rectangle keeps the angle it was created with.
   */
  method SkewLiveRectangle() returns (live: Option<ShapeValue>, angle: real)
    ensures live == Some(RectangleValue(Some(100.0), Some(100.0), None, InitialAngle, 30, 10, 0, 2))
    ensures angle == InitialAngle + DeltaAngle
  {
    var painting := new ConstructivistPainting();
    painting.SetCursorPosition(100.0, 100.0);
    painting.CreateTemporaryRectangle();
    painting.SkewMainDirection();
    painting.IncreaseAngle();
    painting.SkewMainDirection();
    live, angle := painting.Temporary(), painting.angle;
  }

  /**
   * Enter with no live shape, then a redraw: the list gains an `undefined` entry
   * and the redraw stops after clearing the canvas, without the line of force.
   */
  method SaveWithoutLiveShape() returns (trace: seq<DrawEvent>)
    ensures trace == [Clear(Some(800.0), Some(600.0)), TypeError]
  {
    var painting := new ConstructivistPainting();
    painting.UpdateCanvasSize(800.0, 600.0);
    painting.SetCursorPosition(10.0, 20.0);
    painting.SaveTemporaryShape();
    trace := painting.Redraw();
  }

  /** The same keys with the guarded commit: the redraw completes with the line of force. */
  method CommitWithoutLiveShape() returns (trace: seq<DrawEvent>)
    ensures trace == [Clear(Some(800.0), Some(600.0)), LineOfForce(10.0, 20.0, InitialAngle)]
  {
    var painting := new ConstructivistPainting();
    painting.UpdateCanvasSize(800.0, 600.0);
    painting.SetCursorPosition(10.0, 20.0);
    painting.CommitTemporaryShape();
    trace := painting.Redraw();
  }
}
