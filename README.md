# Constructivist painting: shape model and session state machine

This project models the core of `script.js`, a small canvas drawing program.
The user places circles and rotated, skewed rectangles along a steerable
guideline (the "line of force"). Each shape is grown and skewed while it is
live (the temporary shape) and then committed to the painting's shape list.

The model has six modules:

- `Options`: `Option`, standing for a JavaScript value that may be `undefined`.
- `Geometry`: the rectangle's local corner table and the order in which its outline is drawn.
- `Shapes`: the `Circle` and `Rectangle` classes, which are mutated in place.
  Beside them is `ShapeValue`, the value view of a shape, with the four edit
  commands as functions on it and the invariant they keep.
- `Rendering`: a redraw as an ordered trace of draw events.
- `Painting`: the `ConstructivistPainting` session class. It holds the
  committed list (`shapes`), the temporary slot, and the angle, colour, cursor
  and canvas size. Its methods are the commands the key handlers call.
  The slot holds a `Circle` or `Rectangle` object, and `Temporary()` gives its
  current value. The committed list holds the values of the committed shapes.
- `Scenarios`: sessions driven through those commands.

`undefined` is `None` throughout: the cursor and canvas size before they are
first set, the colour before one is picked, shape centres and colours copied
from those, and a list entry pushed by committing an empty slot.

Two behaviours of script.js are easy to miss:

- The line of force is skipped when either cursor coordinate is falsy. That
  includes 0, not only the case of no cursor yet (`Rendering.Falsy`).
- Committing with no live shape is not a no-op. It appends `undefined` (see Findings).

## Model

| member | source | states |
|---|---|---|
| `Geometry.CornerOffsets` | script.js:57-61 | Four corners. corner 2 = −corner 0 and corner 3 = −corner 1, so the shape is a parallelogram centred on the shape's centre. Side vectors are (2·lengthSkew, width) and (length, 2·widthSkew): each skew slants only one pair of sides |
| `Geometry.UnskewedCorners` | script.js:57-61 | With both skews 0 the corners are (±length/2, ±width/2) in the order (+,+), (+,−), (−,−), (−,+) |
| `Geometry.Outline` | script.js:73-74 | The path starts with a move to corner 3 and draws to corners 0, 1, 2, 3. It is closed, reaches every corner, and each edge joins neighbours in the cycle 3, 0, 1, 2 |
| `Shapes.Apply` | script.js:145-185 | Dispatch of one edit on the shape kind. The kind, centre, colour and orientation are kept. A circle is unchanged by everything but GrowMain. Well-formedness is preserved |
| `Shapes.ApplyAllCounts` | script.js:13-54 | After any sequence of edits: radius/length grows by 5 per GrowMain and width by 5 per GrowSecondary; widthSkew grows by 1 per SkewMain and lengthSkew by 1 per SkewSecondary. Each field moves independently of the others |
| `Shapes.ApplyAllWellFormed` | script.js:13-54 | Any sequence of edits keeps a shape well-formed: each size is its starting value plus whole steps, and the skews are non-negative |
| `Shapes.GrownCircleRadius` | script.js:10-15 | A new circle after k GrowMain edits has radius 10 + 5k, which is positive |
| `Shapes.EditedRectangle` | script.js:27-54 | A new rectangle after any edits has length 30 + 5g, width 10 + 5h, lengthSkew d and widthSkew s. It keeps its creation angle, centre and colour |
| `Shapes.WellFormedIsPositive` | script.js:10-37 | A well-formed circle has radius > 0; a well-formed rectangle has length > 0 and width > 0 |
| `Shapes.NewShapesWellFormed` | script.js:10-37 | Newly created circles and rectangles are well-formed |
| `Shapes.Circle.constructor` | script.js:5-11 | A new circle has the given centre and colour and radius 10 |
| `Shapes.Circle.IncreaseRadius` | script.js:13-15 | The radius grows by exactly 5; nothing else changes |
| `Shapes.Rectangle.constructor` | script.js:27-38 | A new rectangle has the given angle, centre and colour, length 30, width 10 and both skews 0 |
| `Shapes.Rectangle.IncreaseLength` | script.js:40-42 | length grows by 5; width and both skews are unchanged |
| `Shapes.Rectangle.IncreaseWidth` | script.js:44-46 | width grows by 5; length and both skews are unchanged |
| `Shapes.Rectangle.IncreaseLengthSkew` | script.js:48-50 | lengthSkew grows by 1; the other three fields are unchanged |
| `Shapes.Rectangle.IncreaseWidthSkew` | script.js:52-54 | widthSkew grows by 1; the other three fields are unchanged |
| `Rendering.ShapeEvent` | script.js:17-76 | A circle renders as a filled disc with its radius. A rectangle renders as a filled polygon with its own angle. Its outline is the drawing path through the corner table of its length, width and skews, five steps whose corners are point-symmetric. Both keep the shape's centre and colour |
| `Rendering.FirstUndefined` | script.js:221 | The index of the first `undefined` list entry, or the list length: every entry before it is defined |
| `Rendering.FirstUndefinedAt` | script.js:221 | An index is the first `undefined` entry (or the length) exactly when every entry before it is defined and the entry at it, if any, is not |
| `Rendering.ShapeEvents` | script.js:221 | The events of the list entries before the first `undefined` one: the i-th event renders the i-th shape |
| `Rendering.LineOfForceEvents` | script.js:194-212 | At most one guide event is drawn, and one is drawn exactly when both cursor coordinates are truthy (neither `undefined` nor 0). It goes through the cursor at the session angle |
| `Rendering.RedrawOrder` | script.js:219-226 | With no `undefined` entry the trace is: the clear, then every committed shape at its list position, then the temporary shape if present. The line of force comes last exactly when both cursor coordinates are truthy. No error is thrown |
| `Rendering.UndefinedEntryAbortsRedraw` | script.js:221 | With an `undefined` entry the trace is exactly the clear, the shapes before the first `undefined` entry, and the thrown error. Neither the temporary shape nor the line of force is drawn |
| `Rendering.AngleOnlySteersLineOfForce` | script.js:194-212 | Two redraws that differ only in the session angle differ only in their line-of-force event |
| `Painting.ConstructivistPainting.constructor` | script.js:81-93 | Starts with the angle at π/6 and a positive angle step π/24, an empty list and an empty slot. Size, cursor and colour are unset |
| `Painting.ConstructivistPainting.UpdateCanvasSize` | script.js:95-99 | Stores the canvas width and height |
| `Painting.ConstructivistPainting.SetCursorPosition` | script.js:101-104 | Stores both cursor coordinates |
| `Painting.ConstructivistPainting.IncreaseAngle` | script.js:108-110 | The session angle grows by the step. The live shape and the committed shapes are unchanged, so a live rectangle keeps its orientation |
| `Painting.ConstructivistPainting.DecreaseAngle` | script.js:112-114 | The session angle shrinks by the step. Live and committed shapes are unchanged |
| `Painting.ConstructivistPainting.SetAngle` | script.js:116-118 | The session angle becomes the given one. Live and committed shapes are unchanged |
| `Painting.ConstructivistPainting.SetCurrentColor` | script.js:122-124 | The current colour becomes the given one. Live and committed shapes are unchanged |
| `Painting.ConstructivistPainting.SaveTemporaryShape` | script.js:128-131 | The slot's content (possibly `undefined`) is appended at the end of the list; earlier entries keep their values and order. The slot becomes empty and the session invariant is kept |
| `Painting.ConstructivistPainting.CommitTemporaryShape` | script.js:128-131 | The guarded commit: a live shape is appended as above. With an empty slot nothing changes. A list without `undefined` entries stays so |
| `Painting.ConstructivistPainting.ResetTemporaryShape` | script.js:133-135 | The slot becomes empty; the committed shapes are unchanged and the session invariant is kept |
| `Painting.ConstructivistPainting.CreateTemporaryCircle` | script.js:137-139 | The slot holds a fresh circle at the cursor in the current colour with radius 10. Any previous live shape is dropped without being committed. The committed shapes are unchanged |
| `Painting.ConstructivistPainting.CreateTemporaryRectangle` | script.js:141-143 | The slot holds a fresh rectangle at the cursor in the current colour, oriented at the session angle. Any previous live shape is dropped without being committed. The committed shapes are unchanged |
| `Painting.ConstructivistPainting.GrowMainDirection` | script.js:145-155 | The live shape becomes `Apply(GrowMain, ·)` of itself: radius +5 for a circle, length +5 for a rectangle. With no live shape nothing changes. Committed shapes are unchanged |
| `Painting.ConstructivistPainting.GrowSecondaryDirection` | script.js:157-164 | A live rectangle's width grows by 5. A circle or an empty slot is left unchanged. Committed shapes are unchanged |
| `Painting.ConstructivistPainting.SkewMainDirection` | script.js:166-174 | A live rectangle's widthSkew grows by 1. A circle or an empty slot is left unchanged. Committed shapes are unchanged |
| `Painting.ConstructivistPainting.SkewSecondaryDirection` | script.js:176-185 | A live rectangle's lengthSkew grows by 1. A circle or an empty slot is left unchanged. Committed shapes are unchanged |
| `Painting.ConstructivistPainting.Redraw` | script.js:219-226 | Without changing the session, returns exactly the trace `Render` prescribes for the current committed shapes, temporary shape, cursor, angle and canvas size |
| `Scenarios.GrowAndCommitCircle` | script.js:128-155 | Cursor (50, 50), colour red, create a circle, grow it twice, commit: the list holds exactly one red circle at (50, 50) with radius 20 |
| `Scenarios.SkewLiveRectangle` | script.js:108-174 | A new rectangle skewed twice by SkewMain, with an angle step in between, has widthSkew 2 and lengthSkew 0. It keeps the angle it was created with while the session angle moves on |
| `Scenarios.SaveWithoutLiveShape` | script.js:128-226 | On an 800×600 canvas with the cursor at (10, 20), committing an empty slot and then redrawing gives only the clear and the thrown error |
| `Scenarios.CommitWithoutLiveShape` | script.js:128-226 | With the guarded commit the same keys give the clear and the line of force |

## Findings

| source | as written | input that shows it | evidently intended | confidence | as-written member | corrected member |
|---|---|---|---|---|---|---|
| script.js:128-131 | `saveTemporaryShape` pushes the slot's content even when the slot is empty | Enter with no live shape, then any redraw: the list holds `undefined`, and `redraw` calls `redraw()` on it at script.js:221. That throws, so from then on no later shape, no temporary shape and no line of force is drawn | committing an empty slot changes nothing | high; not executed | `Painting.ConstructivistPainting.SaveTemporaryShape`, `Rendering.UndefinedEntryAbortsRedraw`, `Scenarios.SaveWithoutLiveShape` | `Painting.ConstructivistPainting.CommitTemporaryShape`, `Rendering.RedrawOrder`, `Scenarios.CommitWithoutLiveShape` |

## Left out

- Vertex placement of a rectangle (script.js:62-70) is left out because it is floating-point trigonometry: `vertexLength`, `atan` with the +π quadrant fix, `cos`/`sin` rotation and `Math.round`. A polygon event carries the local outline, the orientation and the centre instead. Note that `atan(vertex[1] / vertex[0])` divides by zero once length/2 ± lengthSkew is 0 (for example lengthSkew 15 on a new rectangle).
- `vertexLength` and `maxLineLength` (script.js:1-3, 98) need a square root. `UpdateCanvasSize` only stores the size, and the guide's endpoint arithmetic (script.js:199-212) is not modelled.
- Numbers are modelled exactly: angles as reals and sizes as unbounded integers. JavaScript doubles agree on sizes below 2^53 but round the angle sums. π is 3.141592653589793, the decimal JavaScript prints for `Math.PI`; the double itself differs from it in later digits.
- Canvas context calls become draw events. The events do not model the context's path state: `Rectangle.redraw` never calls `beginPath`, so its `fill` also repaints earlier subpaths of the current path.
- The committed list holds the values of the committed shapes, not references to the shape objects. Nothing in script.js changes a shape after it is committed: the edit commands act only on the slot, and `saveTemporaryShape` empties the slot right after the push. So the values are what a later redraw reads. Aliasing between list entries and live objects is not modelled.
- Falsiness of `NaN` coordinates is not modelled: coordinates are reals or `undefined`.
- The drawing context each shape and the session keep (`ctx`) is left out.
- The debug method `drawLine` (script.js:189-192) is left out because nothing calls it.
- `onResize` (script.js:230-236) is left out because it reads the document.
- `ControlPanel` (script.js:239-284) is left out because it builds DOM widgets.
- The global set-up and event listeners (script.js:289-344) are left out as UI wiring. Two of their quirks are therefore not modelled: the 'd' key falls through into the colour case, and the angle slider passes a string to `setAngle`.
