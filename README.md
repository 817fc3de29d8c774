# KYSwiftUI geometry core, in Dafny

This project models the value-level geometry of the KYSwiftUI extension
library for SwiftUI and proves properties of it:

- **`UnevenRoundedRectangle`** (`Sources/KYSwiftUI/Shape/UnevenRoundedRectangle.swift`):
  the four-radius record `RectangleCornerRadii` with its clamping
  `inset(amount:)` and its `animatableData` packing; the path builder
  `path(in:)`, which emits a move, four line-and-quarter-arc pairs and a
  close; the inset wrapper `_Inset`, which accumulates an inset amount and,
  when drawn, shrinks both the radii and the frame; and the helper
  `CGRect.inset(by:)`.
- **`TappablePadding`** (`Sources/KYSwiftUI/TappablePadding.swift`): the
  per-edge masking of optional `EdgeInsets` by an edge set (`insetsValue`),
  `EdgeInsets.inverted`, `EdgeInsets(_all:)`, and how the three public
  `tappablePadding` overloads choose `edges` and `insets`.

`CGFloat` is modelled as `real`. The code only adds, subtracts, negates and
takes `max`, so exact arithmetic keeps every property meaningful.

Files and modules:

- `platform.dfy`, module `Platform`: the value types the library computes with.
  These are Swift's `Optional`, and `CGPoint`, `CGRect` (with its null
  rectangle, its magnitude-valued `width`/`height` and `standardized`),
  `Edge`, `EdgeInsets`, `AnimatablePair`. It also holds a SwiftUI `Path` as a
  sequence of symbolic commands (`Move`, `Line`, `Arc`, `Close`). An arc's
  start and end points come from a table of unit vectors at quarter turns.
  The y axis grows downwards, so 90° is down and 270° is up.
- `uneven_rounded_rectangle.dfy`, module `Shape`: the shape, its radii, its
  inset wrapper and the rectangle inset.
- `tappable_padding.dfy`, module `Padding`: the modifier's inset arithmetic
  and the overloads.

The three shape types are Swift structs, which have value semantics, so they
are datatypes here. Each `mutating` member and each property setter becomes a
method on the datatype. The method takes the current value and returns the
updated one, and it assigns the fields one at a time, as the source does.
`path(in:)` is a method that appends to a local command sequence. It is proved
equal to the reference outline `Shape.Outline`, which is defined
geometrically: the path moves to where the last corner's arc ends. Then, for
each corner in clockwise order, it draws a line to the start of that corner's
arc and then the arc, centred one radius inward from the corner. Finally it
closes. The lemmas about the outline state the command sequence's shape, the
arcs' centres, radii and angles, continuity and closure, and the sharp
rectangle you get when all radii are 0.

The model follows the code in these respects:

- `path(in:)` never clamps overlapping radii against each other.
  `Shape.OutlineSidesClockwise` states exactly when a straight segment runs
  backwards because two radii on one side do not fit.
- `path(in:)` always emits four arcs. With all radii 0 each arc has radius 0
  and sits at a corner of the rectangle.
- `path(in:)` reads the rectangle's origin as stored but its width and height
  as magnitudes. For a rectangle with a negative width or height it draws
  beside the rectangle's region, from the origin outwards.
  `CGRect.inset(by:)` standardises the rectangle first, so such a rectangle
  is drawn in a different place by the shape inset by 0.
  `Shape.NegativeWidthDrawnBeside` proves both for a negative width.
- `CGRect.inset(by:)` returns the null rectangle when the insets exceed the
  width or the height.

## Model

| member | source | states |
|---|---|---|
| `Shape.RectangleCornerRadii.SetAnimatableData` | Sources/KYSwiftUI/Shape/UnevenRoundedRectangle.swift:42-51 | reading the data after setting it returns exactly what was set; setting the data just read leaves all four radii unchanged |
| `Shape.AnimatableDataOrder` | Sources/KYSwiftUI/Shape/UnevenRoundedRectangle.swift:39-45 | the packed order is topLeading, bottomLeading, bottomTrailing, topTrailing; two radii records pack alike exactly when they are equal |
| `Shape.RectangleCornerRadii.Inset` | Sources/KYSwiftUI/Shape/UnevenRoundedRectangle.swift:54-59 | every radius becomes `max(0, old - amount)`, so all radii are non-negative afterwards; the result is the specification `Shrunk(amount)` |
| `Shape.ShrunkRadii` | Sources/KYSwiftUI/Shape/UnevenRoundedRectangle.swift:54-59 | per corner, the shrunk radius is `max(0, radius - amount)` and is never negative |
| `Shape.ShrunkTwice` | Sources/KYSwiftUI/Shape/UnevenRoundedRectangle.swift:54-59 | shrinking by `a` and then by a non-negative `b` equals shrinking once by `a + b`; shrinking non-negative radii by 0 changes nothing |
| `Shape.UnevenRoundedRectangle.WithRadii` | Sources/KYSwiftUI/Shape/UnevenRoundedRectangle.swift:81-91 | the convenience initialiser stores each given radius at its own corner and keeps the given style |
| `Shape.DefaultShapeIsSharp` | Sources/KYSwiftUI/Shape/UnevenRoundedRectangle.swift:32-37 | with no arguments every radius defaults to 0 and the style to `.continuous` |
| `Shape.UnevenRoundedRectangle.Path` | Sources/KYSwiftUI/Shape/UnevenRoundedRectangle.swift:98-117 | the commands built step by step are exactly the reference outline: arcs centred one radius inward from each corner, each reached by a line to its start point |
| `Shape.OutlineUnfolded` | Sources/KYSwiftUI/Shape/UnevenRoundedRectangle.swift:106-115 | the reference outline, computed from unit vectors, has the source's explicit coordinates command by command |
| `Shape.OutlineAt` | Sources/KYSwiftUI/Shape/UnevenRoundedRectangle.swift:106-115 | the outline has ten commands; command `2i+1` is a line to the start of corner `i`'s arc and command `2i+2` is that arc, corners taken top-trailing, bottom-trailing, bottom-leading, top-leading |
| `Shape.OutlineShape` | Sources/KYSwiftUI/Shape/UnevenRoundedRectangle.swift:98-117 | exactly ten commands: a Move to `(x + topLeading, y)`, then Line and Arc four times, then Close; the arcs sweep 270→360, 0→90, 90→180, 180→270 degrees, none clockwise |
| `Shape.OutlineArcs` | Sources/KYSwiftUI/Shape/UnevenRoundedRectangle.swift:108-114 | each arc is centred at its corner offset inward by that corner's radius on both axes, and its radius is that corner's radius |
| `Shape.OutlineContinuous` | Sources/KYSwiftUI/Shape/UnevenRoundedRectangle.swift:106-115 | each Line ends at the start point of the following arc, and the last arc ends at the Move point, so the outline is continuous and closes on itself |
| `Shape.OutlineSidesStraight` | Sources/KYSwiftUI/Shape/UnevenRoundedRectangle.swift:106-113 | each straight segment starts and ends on the same side of the drawing frame (the origin plus the width and height magnitudes): top, trailing, bottom, leading in turn |
| `Shape.OutlineSidesClockwise` | Sources/KYSwiftUI/Shape/UnevenRoundedRectangle.swift:106-113 | a straight segment runs clockwise along its side if and only if the two radii at that side's ends together fit within the side's length |
| `Shape.OutlineInsideRect` | Sources/KYSwiftUI/Shape/UnevenRoundedRectangle.swift:100-115 | with non-negative radii that fit, every line target and every arc centre, start and end lies in the drawing frame; when the width and height are non-negative they all lie in the rectangle's region |
| `Shape.NegativeWidthDrawnBeside` | Sources/KYSwiftUI/Shape/UnevenRoundedRectangle.swift:100-115 | for a negative width the outline reaches past the rectangle's maximum x, and the shape inset by 0, which standardises the rectangle first, draws a different outline |
| `Shape.SharpCorners` | Sources/KYSwiftUI/Shape/UnevenRoundedRectangle.swift:106-114 | with all radii 0, every move and line target and every arc centre is one of the corners `(x,y)`, `(x+w,y)`, `(x+w,y+h)`, `(x,y+h)`, and every arc has radius 0 and starts and ends at its centre |
| `Shape.UnevenRoundedRectangle.SetAnimatableData` | Sources/KYSwiftUI/Shape/UnevenRoundedRectangle.swift:119-122 | the shape's data is its radii's; it round-trips in both directions and the style is kept |
| `Shape.UnevenRoundedRectangle.InsetBy` | Sources/KYSwiftUI/Shape/UnevenRoundedRectangle.swift:126-128 | insetting a shape wraps that same shape with the given amount |
| `Shape.InsetShape.Path` | Sources/KYSwiftUI/Shape/UnevenRoundedRectangle.swift:139-143 | draws the base radii shrunk by `amount` in the frame inset by `amount` on all four sides, or nothing when that frame is null |
| `Shape.InsetShape.SetAnimatableData` | Sources/KYSwiftUI/Shape/UnevenRoundedRectangle.swift:145-151 | the data is the base's data paired with `amount`; it round-trips in both directions and keeps the base's style |
| `Shape.InsetShape.InsetBy` | Sources/KYSwiftUI/Shape/UnevenRoundedRectangle.swift:153-157 | insetting a wrapper by `b` gives the base inset once by the accumulated total, so insetting by `a` then `b` gives the same wrapper as insetting by `a + b` |
| `Shape.DrawInsetFrame` | Sources/KYSwiftUI/Shape/UnevenRoundedRectangle.swift:139-143 | an inset shape draws nothing exactly when the frame is null or twice the amount exceeds its width or height; otherwise each side of the frame moves inward by the amount and the drawn radii are non-negative |
| `Shape.DrawInsetAccumulates` | Sources/KYSwiftUI/Shape/UnevenRoundedRectangle.swift:139-157 | drawing with the accumulated amount `a + b` equals first shrinking radii and frame by `a` and then drawing inset by a non-negative `b` |
| `Shape.InsetRect` | Sources/KYSwiftUI/Shape/UnevenRoundedRectangle.swift:161-181 | a null input gives null; otherwise the result is null if and only if the insets exceed the width or the height; a non-null result has non-negative size and each side moved inward by its own inset |
| `Shape.InsetRectTwice` | Sources/KYSwiftUI/Shape/UnevenRoundedRectangle.swift:161-181 | uniform insetting by `a` and then by a non-negative `b` equals one uniform inset by `a + b`, null results included |
| `Platform.Rect.Standardized` | Sources/KYSwiftUI/Shape/UnevenRoundedRectangle.swift:166 | standardising keeps the rectangle's region (its minimum and maximum x and y) and makes its width and height non-negative |
| `Padding.TappablePadding.InsetsValue` | Sources/KYSwiftUI/TappablePadding.swift:22-29 | an edge absent from `edges` contributes 0; an edge present contributes the supplied inset for that edge, or 0 when no insets were supplied |
| `Padding.NoInsetsNoPadding` | Sources/KYSwiftUI/TappablePadding.swift:24-27 | with nil insets all four components are 0, whatever `edges` is |
| `Padding.EdgesSelectInsets` | Sources/KYSwiftUI/TappablePadding.swift:22-29 | with every edge selected the value is exactly the supplied insets; with no edge selected it is 0 everywhere |
| `Padding.MaskTwice` | Sources/KYSwiftUI/TappablePadding.swift:22-29 | masking an already masked value by a second edge set is masking once by the intersection of the two sets |
| `Padding.SingleEdge` | Sources/KYSwiftUI/TappablePadding.swift:22-29 | selecting a single edge pads that edge by its supplied inset and every other edge by 0 |
| `Padding.Inverted` | Sources/KYSwiftUI/TappablePadding.swift:41-43 | every edge of the result is the negation of that edge of the input |
| `Padding.InvertedTwice` | Sources/KYSwiftUI/TappablePadding.swift:41-43 | inverting twice gives back the original insets |
| `Padding.PaddingCancels` | Sources/KYSwiftUI/TappablePadding.swift:31-37 | `insetsValue` plus `insetsValue.inverted` is 0 on every edge, so the outer padding exactly cancels the inner padding |
| `Padding.Uniform` | Sources/KYSwiftUI/TappablePadding.swift:45-47 | `EdgeInsets(_all: v)` has `v` on top, leading, bottom and trailing |
| `Padding.TappablePaddingInsets` | Sources/KYSwiftUI/TappablePadding.swift:51-56 | the insets overload uses the default edge set `.all`, so the modifier pads by exactly the given insets |
| `Padding.TappablePaddingEdges` | Sources/KYSwiftUI/TappablePadding.swift:58-65 | nil `length` gives nil insets, otherwise uniform insets of `length`; the modifier pads the chosen edges by `length` and the others by 0 |
| `Padding.TappablePaddingLength` | Sources/KYSwiftUI/TappablePadding.swift:67-72 | the length overload selects `.all` edges and pads every edge by `length` |

## Left out

- Rendering, stroking, hit-testing and arc geometry beyond the end points of quarter arcs are left out. `Path`, `Angle` and trigonometry belong to SwiftUI and CoreGraphics, so an arc is a symbolic command.
- Floating point is left out. `CGFloat` is an exact real, so rounding, infinities and NaN are not modelled.
- `Shape.UnevenRoundedRectangle.Path`: requires a non-null rectangle. CoreGraphics gives the null rectangle an infinite origin, which exact reals cannot represent.
- `Shape.InsetShape.Path`: returns `None` where the source would draw in the null rectangle. In that case the source emits a path at infinite coordinates.
- Animation interpolation is left out. SwiftUI blends `animatableData` outside this library, so only the get/set round trips are modelled.
- `RoundedCornerStyle` is carried as an opaque two-value enum. `path(in:)` never reads it.
- `Shape.OutlineInsideRect`: promises containment in the rectangle's region only when its width and height are non-negative. For a negative width or height the source draws from the origin by the magnitudes, outside the region, and the lemma then promises containment only in that drawing frame.
- Whether the outline is simple (does not intersect itself) is not proved. Nor is its equivalence with SwiftUI's uniform `RoundedRectangle`, which is not part of this model. The model proves that the points stay inside the rectangle and that the sides run clockwise when the radii fit.
- `TappablePadding.body` is left out: the view padding, `contentShape`, `onTapGesture` and calling the `perform` callback. That is view-tree composition and gesture dispatch inside SwiftUI. The callback is carried as an opaque value and passed through unchanged.
- The `KY` namespace wrapper (`View+GM.swift`) is left out: the overloads are free functions. Also left out are `HostingController.swift`, a UIKit subclass with no geometry, `Package.swift`, the build manifest, and the `#Preview` blocks.
- In-place mutation of Swift structs is modelled by returning the updated value. Swift copies structs on assignment, so there is no aliasing to capture.
