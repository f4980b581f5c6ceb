# Stage plot seating, modelled in Dafny

This project models the seating arithmetic of a music-stage plotter. The plotter
places the seats of an orchestra on concentric arcs ("bands") around the front
of a stage, keeping a minimum distance between neighbouring seats and between
bands, and counts the seats it draws.

Three modules:

- `Wrappers` (`wrappers.dfy`): `Option` for Python's `None`, `Result` for the
  exceptions the arithmetic raises.
- `Geometry` (`geometry.dfy`): positions, dimensions, arc angles, circles,
  the arc length of a circle, the intersection of two circles and the integer
  rectangle helper (`geometry.py`).
- `Stage` (`stage.py`): rows and how many seats fit on them, the walk of seats
  along an arc, the bands of rows and their radii, the percussion bounding box
  and the hall layout with its seat count.

Modelling choices:

- Floats are reals. Pi is the printed value of the host language's
  double-precision constant, and no proof uses more than its positivity.
- Square root, cosine and sine are not interpreted. They come in as the
  fields of a `Numerics` record of `real -> real` functions, so each property
  holds for any numeric library. The one pinned value is the square root of
  0, which is exactly 0 in floating point. A single-seat row depends on it:
  its step distance is 0, so no advance happens.
- The exceptions Python would raise become `Failure` values. A zero
  distancing or two concentric circles give `DivisionByZero`. Circles that do
  not meet give `MathDomainError`, because the square root of a negative
  number is taken. A failure ends the whole hall layout, as the uncaught exception
  does.
- The global seat counter is an explicit accumulator. `Walk` adds one per seat
  drawn, `DrawRow` passes it on and `DrawSchedule`, which `HallDraw` calls,
  starts it at 0.
- `Rows.draw` is split in two steps. `Schedule` accumulates the band radius and
  turns each band into the rows it draws. `HallDraw` then draws those rows in
  order. The split is sound because drawing a row never changes a radius.
  `PlannedDraws` is the closed-form reference that `Schedule` is proved
  against: band `k` lies at `firstRowDelta + k * max(distancing, rowDistancing)`.
- Python's `int()` is `Trunc`, which truncates toward zero. `[x] * n` yields
  `max(0, n)` copies, so a capacity of zero or less, from a negative radius or
  distancing, gives an empty row.

## Model

| member | source | states |
|---|---|---|
| Geometry.Add | geometry.py:14-15 | subtracting the second operand from a sum gives back the first |
| Geometry.Sub | geometry.py:11-12 | adding the subtrahend back to a difference gives back the minuend |
| Geometry.AddSubRoundTrip | geometry.py:11-15 | `(p + q) - q == p` and `(p - q) + q == p` for all positions |
| Geometry.Scale | geometry.py:25-27 | scaling by 1 is the identity, by 0 gives the origin, by -1 gives the additive inverse |
| Geometry.ScaleCompose | geometry.py:25-27 | scaling by `s` then by `t` is scaling by `s * t` |
| Geometry.Distance | geometry.py:17-19 | a point is at distance 0 from itself. For distinct points the squared distance is positive, so the result is the library's square root of it and the pinned value at 0 never applies |
| Geometry.DistanceSymmetric | geometry.py:17-19 | distance is symmetric in its two points, and a point is at distance 0 from itself |
| Geometry.AddDimensions | geometry.py:36-37 | the sum of two dimensions is component-wise: removing one summand leaves the other |
| Geometry.AddDimensionsCommutative | geometry.py:36-37 | dimension addition is commutative |
| Geometry.AddDimensionsAssociative | geometry.py:36-37 | dimension addition is associative |
| Geometry.Perimeter | geometry.py:76-83 | arc length is non-negative for a non-negative radius and positive for a positive radius on a non-empty arc; it is 0 when start equals end and `2 * pi * r` for a 360-degree span |
| Geometry.PerimeterSymmetric | geometry.py:81 | arc length does not depend on which angle is the start |
| Geometry.PerimeterMonotone | geometry.py:79-83 | for a non-negative radius, a wider span is never shorter |
| Geometry.PositionAt | geometry.py:67-74 | the squared distance of the point from the centre is the squared radius times `cos^2 + sin^2` of the angle converted to radians, so the point is on the circle whenever the library keeps that identity. A zero radius gives the centre itself |
| Geometry.Intersections | geometry.py:53-65 | fails with a division by zero exactly when the computed centre distance is 0, which the opaque square root may yield even for distinct centres. Otherwise it fails with a domain error exactly when the half chord squared is negative. On success the point is offset from the foot point perpendicular to the centre line. The flag picks the side: the cross product of the centre line with the offset, times the centre distance, is `h * |d|^2` when clockwise and its negation otherwise, `h` being the root of the half chord squared |
| Geometry.ChordPoint | geometry.py:60-65 | the chosen point's offset from the foot point is perpendicular to the centre line. Its side is fixed by the flag: the cross product of the centre direction with the offset, times the distance, is `h * |d|^2` for the clockwise branch and `-(h * |d|^2)` for the other |
| Geometry.ChordPointsMirror | geometry.py:60-65 | the two sides' points differ only in the sign of the offset, so the foot point is their midpoint |
| Geometry.IntersectionsMirror | geometry.py:59-65 | the clockwise and counter-clockwise results exist together. They are mirror images about the foot point `p2`, which is their midpoint |
| Geometry.IntersectionsTangent | geometry.py:58-65 | when the half chord is zero, both choices are the foot point |
| Geometry.Trunc | geometry.py:89-90 | `int()` truncation: the result lies within 1 of the input on the zero side, and it has the input's sign |
| Geometry.TruncMonotone | geometry.py:89-90 | truncation preserves order |
| Geometry.CreateRectangle | geometry.py:86-90 | for non-negative extents the corners are ordered: `x1 <= x2`, `y1 <= y2` |
| Geometry.CreateRectangleExact | geometry.py:89-90 | with an integer centre and even extents the corners are exactly `centre -/+ extent / 2` |
| Stage.NewRow | stage.py:52-54 | a row given no angles gets the default arc 190 to 350 degrees (stage.py:11). Given angles are kept, and the instrument list is stored unchanged |
| Stage.Capacity | stage.py:57 | the capacity `n` is the floor of `perimeter / distancing` plus one: `n - 1 <= perimeter / distancing < n` |
| Stage.CapacityAtLeastOne | stage.py:57 | a non-negative arc with positive distancing holds at least one seat |
| Stage.CapacityAtMultiple | stage.py:57 | an arc of exactly `k` distancings holds `k + 1` seats |
| Stage.CapacityBelowMultiple | stage.py:57 | an arc from `k - 1` up to just below `k` distancings holds `k` seats |
| Stage.Repeat | stage.py:59 | `[x] * n` has `max(0, n)` elements, all equal to `x` |
| Stage.InstrumentsToUse | stage.py:56-65 | with no list, or a list longer than the capacity, the result is `max(0, capacity)` default seats and the list is discarded. Otherwise the list is returned unchanged. The length never exceeds `max(0, capacity)`, so a capacity of zero or less gives no seats |
| Stage.InstrumentsToUseFits | stage.py:56-65 | on a non-negative arc with positive distancing, the capacity bounds the seats, and an untagged row gets at least one seat |
| Stage.SeedAngle | stage.py:79-80 | with several seats the first is at the start angle. A single seat is at the arc's midpoint, equally far from both ends |
| Stage.SecondAngle | stage.py:82-85 | with several seats, `seats - 1` steps from the start to the sampled angle cover the arc's span. With one seat the sample is the seed itself |
| Stage.Advance | stage.py:92-94 | a step that is not positive leaves the position unchanged. A positive step is the clockwise intersection of the row's circle with the circle of that step around the position, so on success the move is perpendicular to the line from the row's centre to the position, measured from the foot point |
| Stage.WalkableWithoutStep | stage.py:90-94 | with a step that is not positive, every advance succeeds, so a walk of any length runs to its end |
| Stage.Walk | stage.py:90-94 | the walk succeeds exactly when every one of its advances succeeds, the one after the last seat included. It draws one seat per instrument, in order, the first at the seed position, and each next position is the clockwise advance from the previous one. The count grows by exactly the number of seats (stage.py:19-20) |
| Stage.RowSeats | stage.py:73-77 | the number of seats of a row never exceeds `max(0, capacity)` of its arc at its radius, and a row with no list gets exactly that many default seats |
| Stage.RowSeatsCentreFree | stage.py:73-77 | the seats of a row depend only on its radius, arc and list, not on where the centre is |
| Stage.DrawRow | stage.py:67-94 | a zero distancing fails. Otherwise the row succeeds exactly when the walk of its seats from the seed with the measured step runs to its end, and a row of at most one seat always succeeds. On success the count grows by the length of the seat-count rule's list and the seats carry that list's instruments in order. The first seat is at the seed angle, and every later seat is the clockwise advance of the previous one by the step of `RowStep` |
| Stage.RowStep | stage.py:82-86 | the step is the distance from the seed seat to the second sample point; a row of at most one seat has step 0, so it never advances |
| Stage.BandDraws | stage.py:114-118 | a `None` band draws the default row once (stage.py:97). A list band draws each of its rows once, in order. All are drawn at the band's radius |
| Stage.Schedule | stage.py:109-118 | accumulating `radius += max(distancing, n_distancing_row)` per band yields the rows at the closed-form radii of `PlannedDraws` |
| Stage.BandRadiiIncreasing | stage.py:111-113 | with a positive band step, a later band's radius is strictly larger |
| Stage.PlannedDrawsWithin | stage.py:111-118 | with a non-negative band step, no row of the first `k` bands lies beyond the `k`-th band's radius |
| Stage.PlannedDrawsSorted | stage.py:111-118 | with a non-negative band step, rows are drawn in non-decreasing radius order |
| Stage.SingleDefaultBandSeats | stage.py:57-59 | a single `None` band seats exactly the capacity of the default arc at the first band's radius |
| Stage.PercussionBounds | stage.py:136-148 | `minX` is at most every x and the stage length, and is one of them. `maxX` is at least every x and 0, and is one of them. Likewise for y with the stage width |
| Stage.BoxCenter | stage.py:150 | the percussion centre is equidistant from the box's bounds on both axes |
| Stage.HallCenter | stage.py:165 | the band centre is halfway along the stage length, on its far edge |
| Stage.DrawSchedule | stage.py:109-118 | drawing the scheduled rows in order succeeds exactly when there are none, or the distancing is not zero and every row can be walked to its end. A zero distancing with a row to draw fails with a division by zero. Any other failure is the error of a row whose predecessors all walk to their end, which is the first failing row. On success the count started at 0 equals the number of seats and the sum of the seat-count rule over the rows (stage.py:19-20) |
| Stage.HallDraw | stage.py:157-183 | a zero distancing fails once a row is drawn. The layout succeeds exactly when no row is scheduled, or the distancing is not zero and every scheduled row can be walked to its end; otherwise the layout fails with the error of a row whose predecessors all walk to their end, that is, the first failing row's error, which `Hall.draw` lets propagate (stage.py:115-118, 183). On success the seat count starts at 0 and equals the number of seats. It is the sum of the seat-count rule over every scheduled row. The centre is the hall centre and the podium is its 100 by 100 rectangle. The percussion box is the seeded bounding box of the percussion outline, with every bound either a seed or an attained coordinate, and its centre is the box's midpoint |

## Left out

- Rendering and file output: image creation, fonts, icons, `alpha_composite`, `reduce`, saving the image and building the file name (stage.py:18-31, stage.py:134-135, stage.py:151-155, stage.py:161-196). This is I/O. `Instrument` keeps its icon path as an optional string and never loads it.
- The diagnostic `print` calls (stage.py:62, stage.py:88, stage.py:181). They have no effect on the result.
- The numeric values of `math.sqrt`, `cos` and `sin`, and so the numeric correctness of `Circle.position` (geometry.py:67-74), `Position.distance` (geometry.py:17-19) and the intersection formula. For example, the result is not proved to lie on both circles, and seats are not proved to be exactly the step distance apart. These functions are opaque parameters.
- `Position.normal` (geometry.py:21-23). Nothing in the modelled code calls it.
- The instrument icon constants (stage.py:35-48). They are asset paths.
- The hidden areas and the legend position of a hall. They are only drawn (stage.py:178-179, stage.py:185-193).
- `__main__.py`. It is a hard-coded demo whose helpers duplicate `geometry.py`.
- `test_geometry.py`. It targets a different version of the position API (`Position.from_xy`, `.point`).
- Stage.HallDraw and Stage.DrawSchedule: state the number of seats and their sum over the rows, not where each row's seats sit in the combined list. The positions are stated row by row by `Stage.DrawRow`.
