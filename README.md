# Pen plotter state machine, modelled in Dafny

`plotter.ts` drives a pen plotter through an immutable `PlotterState`: a position, a
heading in degrees, a line colour and a carriage (pen) state. Six primitive transitions
(`move`, `turn`, `carriageUp`, `carriageDown`, `setColor`, `setPosition`) each copy the
state, overwrite one field and write one trace line to an injected printer. Two shape
routines (`drawTriangle`, `drawSquare`) lower the pen, loop {move, turn} three or four
times and raise the pen again.

The model has three modules:

- `Angles` (`angles.dfy`): JavaScript's truncated remainder `x % 360.0` (`JsRem360`).
  Dafny's `%` is Euclidean, so this is written out. The module also defines when two
  headings are equivalent (`SameHeading`: they differ by a whole number of turns).
- `Plotter` (`plotter.dfy`): the state as datatypes and the six transitions as pure
  functions. Each one returns a `Step`: the new state and the one `Event` it writes to the
  printer. `drawLine` becomes the `DrawLine(from, to, color)` event. `calcNewPosition`
  is a caller-supplied function of type `Geometry` and stays uninterpreted.
- `Shapes` (`shapes.dfy`): `Sides` specifies `n` rounds of the loop body and `Polygon`
  specifies a whole shape routine. `DrawTriangle` and `DrawSquare` are methods with loops
  that build the final state and the printer trace. They are proved equal to `Polygon`.
  Their headline properties come from lemmas about `Sides` and `Polygon`.

The remainder at plotter.ts:87 keeps the sign of the dividend, so `turn` does not
normalise a heading into [0, 360): turning -90 from heading 0 leaves -90
(`TurnCanGoNegative`). A full turn gives back the same heading exactly when that heading
lies in [0, 360) (`TurnFullCircle`, `TurnFullCircleOnlyInRange`). Any other heading comes
back only equivalent to it, up to whole turns (`Turn`'s contract).

## Model

| member | source | states |
|---|---|---|
| Angles.JsRem360 | plotter.ts:87 | the remainder lies strictly between -360 and 360, has the sign of the dividend (so it is in [0, 360) for a non-negative dividend), differs from the dividend by whole turns, and is the dividend itself when that is already within one turn |
| Angles.SameHeadingUnique | plotter.ts:87 | two equivalent headings less than one turn apart are equal, so a heading has one representative in [0, 360) |
| Plotter.InitializePlotterState | plotter.ts:175-182 | the record's four fields are exactly the four arguments |
| Plotter.InitialState | plotter.ts:184-190 | the script's start state is position (0, 0), heading 0, black, pen up |
| Plotter.Move | plotter.ts:64-78 | the new position is the geometry helper applied to distance, heading and old position; heading, colour and pen are unchanged; the event is a draw-line event exactly when the pen is down, carrying old position, new position and current colour, and otherwise a moved-without-drawing event with the distance and start point |
| Plotter.Turn | plotter.ts:84-92 | the new heading is equivalent to old heading plus delta, lies strictly within one turn, has the sign of the sum (in [0, 360) for a non-negative sum) and equals the sum when the sum is within one turn; position, colour and pen are unchanged; the event reports the delta |
| Plotter.CarriageUp | plotter.ts:98-104 | the pen becomes UP, nothing else changes, the event is the raise message |
| Plotter.CarriageDown | plotter.ts:110-116 | the pen becomes DOWN, nothing else changes, the event is the lower message |
| Plotter.SetColor | plotter.ts:122-128 | only the colour changes, to the given one; the event names it |
| Plotter.SetPosition | plotter.ts:134-140 | only the position changes, to the given one; the event is a position-set event and never a draw-line event, whatever the pen state |
| Plotter.CarriageUpIdempotent | plotter.ts:98-104 | raising the pen twice gives the same state as raising it once |
| Plotter.CarriageDownIdempotent | plotter.ts:110-116 | lowering the pen twice gives the same state as lowering it once |
| Plotter.CarriageUpUndoesDown | plotter.ts:98-116 | from a raised pen, lowering then raising gives back the original state |
| Plotter.TurnFullCircle | plotter.ts:84-92 | a 360-degree turn leaves a state whose heading is in [0, 360) unchanged |
| Plotter.TurnFullCircleOnlyInRange | plotter.ts:84-92 | conversely, a 360-degree turn gives back the same state only when the heading is in [0, 360) |
| Plotter.TurnCanGoNegative | plotter.ts:87 | turning -90 degrees from heading 0 leaves heading -90: the remainder does not normalise into [0, 360) |
| Shapes.Sides | plotter.ts:151-154 | `n` rounds of the loop body write exactly 2n events |
| Shapes.Polygon | plotter.ts:149-156 | a shape routine writes exactly 2n + 2 events: lower, n rounds, raise |
| Shapes.SidesKeepPenAndColor | plotter.ts:151-154 | the loop leaves the pen state and the colour as they were |
| Shapes.RoundDraws | plotter.ts:64-78 | one round adds exactly one line, from the current position along the current heading, when the pen is down, and no line when it is up |
| Shapes.SidesDrawNothingRaised | plotter.ts:68-73 | with the pen up, any number of rounds draws no line |
| Shapes.SidesDraw | plotter.ts:151-154 | with the pen down, the lines drawn by n rounds are exactly one per round, the k-th running from the position after k rounds along the heading after k rounds |
| Shapes.LineOfRoundEnds | plotter.ts:152 | the line of a round ends where that round leaves the carriage, in the starting colour |
| Shapes.SidesPath | plotter.ts:151-154 | with the pen down, n rounds draw n lines in the starting colour forming a connected path from the start position to the final position |
| Shapes.TotalTurnIsProduct | plotter.ts:153 | n turns of the same angle add up to n times that angle |
| Shapes.SidesHeading | plotter.ts:151-154 | after n rounds the heading is equivalent to the start heading plus all turns; it stays non-negative from a non-negative start with non-negative turns, and is within one turn once a turn has been made |
| Shapes.PolygonPath | plotter.ts:149-168 | a shape routine ends with the pen up and the colour kept, brackets its trace with lower and raise events, and draws n connected lines in the starting colour from the start position to the final position |
| Shapes.PolygonClosesHeading | plotter.ts:149-168 | when the turns add up to 360 degrees, the routine ends on a heading equivalent to the start heading, equal to it when the start is in [0, 360) |
| Shapes.DrawTriangle | plotter.ts:149-156 | the loop's result and trace equal the triangle polygon; pen UP, colour kept, 8 events and exactly 3 connected lines in the starting colour from the start position; heading equivalent to the start heading, equal to it when the start is in [0, 360) |
| Shapes.DrawSquare | plotter.ts:161-168 | the loop's result and trace equal the square polygon; pen UP, colour kept, 10 events and exactly 4 connected lines in the starting colour from the start position; heading equivalent to the start heading, equal to it when the start is in [0, 360) |
| Shapes.ScriptScenario | plotter.ts:184-201 | the top-level script: the triangle from the initial state draws 3 lines from (0, 0) and ends pen up at heading 0; moving to (10, 10) and setting red draw nothing; the square then draws 4 red lines from (10, 10) and ends pen up, red, at heading 0 |

## Left out

- `calcNewPosition` (plotter.ts:50-58): its floating-point trigonometry and `Math.round` are not modelled. The model takes it as a caller-supplied function, so nothing is proved about the positions it returns. In particular the model does not prove that a triangle or square returns to its start position.
- Numbers are exact reals. Floating-point rounding of `state.angle + angle`, and NaN or infinite inputs, are not modelled.
- Plotter.TurnFullCircle, Shapes.PolygonClosesHeading and the equal-heading clause of Shapes.DrawTriangle and Shapes.DrawSquare hold only in exact arithmetic. With doubles, `0.1 + 360` is not exactly representable, so a full turn from heading 0.1 need not give back 0.1, and three turns of 120 from such a heading need not land on it exactly.
- `Angles.JsRem360`: proved on exact reals. It does not capture the rounding of the sum before `%` is applied.
- The printer (plotter.ts:34, 173): the `console.log` binding is I/O. Each write is modelled as one `Event` value. The Russian message texts and their template formatting (plotter.ts:44, 72, 85-135) are not modelled.
- The display strings of `LineColor` (plotter.ts:23-27): the colour is a datatype with three constructors.
- The top-level script's fixed call sequence (plotter.ts:184-201) is glue. It appears only as the `ScriptScenario` lemma, stated over the specification functions.
