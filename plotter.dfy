/** The plotter's state and its six primitive transitions. Every transition takes an
    immutable state, returns a new state that differs in one field only, and makes
    exactly one write to the injected printer; that write is returned as an `Event`. */
module Plotter {
  import opened Angles

  datatype Position = Position(x: real, y: real)

  /** Whether the pen carriage is raised or lowered. */
  datatype CarriageState = Up | Down

  datatype LineColor = Black | Red | Green

  datatype PlotterState = PlotterState(
    position: Position,
    angle: real,
    color: LineColor,
    carriageState: CarriageState)

  /** What a transition writes to the printer, one value per message kind. */
  datatype Event =
    | DrawLine(from: Position, to: Position, lineColor: LineColor)
    | Moved(distance: real, start: Position)
    | Turned(delta: real)
    | CarriageRaised
    | CarriageLowered
    | ColorSet(newColor: LineColor)
    | PositionSet(newPosition: Position)

  /** The new state of a transition together with the one printer write it makes. */
  datatype Step = Step(state: PlotterState, event: Event)

  /** The geometry helper `calcNewPosition(distance, angle, current)`: trigonometry and
      rounding on floating-point numbers, supplied by the caller and left uninterpreted. */
  type Geometry = (real, real, Position) -> Position

  function InitializePlotterState(position: Position, angle: real, color: LineColor,
                                  carriageState: CarriageState): (r: PlotterState)
    ensures r.position == position && r.angle == angle
    ensures r.color == color && r.carriageState == carriageState
  {
    PlotterState(position, angle, color, carriageState)
  }

  /** The state the top-level script starts from. */
  function InitialState(): (r: PlotterState)
    ensures r.position == Position(0.0, 0.0) && r.angle == 0.0
    ensures r.color == Black && r.carriageState == Up
  {
    InitializePlotterState(Position(0.0, 0.0), 0.0, Black, Up)
  }

  /** Moves the carriage `distance` along its heading; draws a line only with the pen down. */
  function Move(geo: Geometry, distance: real, s: PlotterState): (r: Step)
    ensures r.state.position == geo(distance, s.angle, s.position)
    ensures r.state.angle == s.angle && r.state.color == s.color
    ensures r.state.carriageState == s.carriageState
    ensures r.event.DrawLine? <==> s.carriageState == Down
    ensures s.carriageState == Down ==>
              r.event == DrawLine(s.position, r.state.position, s.color)
    ensures s.carriageState == Up ==> r.event == Moved(distance, s.position)
  {
    var newPosition := geo(distance, s.angle, s.position);
    var event := if s.carriageState == Down then DrawLine(s.position, newPosition, s.color)
                 else Moved(distance, s.position);
    Step(s.(position := newPosition), event)
  }

  /** Turns the heading by `delta` degrees, reduced with JavaScript's remainder. */
  function Turn(delta: real, s: PlotterState): (r: Step)
    ensures SameHeading(r.state.angle, s.angle + delta)
    ensures -FullTurn < r.state.angle < FullTurn
    ensures s.angle + delta >= 0.0 ==> 0.0 <= r.state.angle < FullTurn
    ensures s.angle + delta <= 0.0 ==> r.state.angle <= 0.0
    ensures -FullTurn < s.angle + delta < FullTurn ==> r.state.angle == s.angle + delta
    ensures r.state.position == s.position && r.state.color == s.color
    ensures r.state.carriageState == s.carriageState
    ensures r.event == Turned(delta)
  {
    Step(s.(angle := JsRem360(s.angle + delta)), Turned(delta))
  }

  function CarriageUp(s: PlotterState): (r: Step)
    ensures r.state.carriageState == Up
    ensures r.state.position == s.position && r.state.angle == s.angle
    ensures r.state.color == s.color
    ensures r.event == CarriageRaised
  {
    Step(s.(carriageState := Up), CarriageRaised)
  }

  function CarriageDown(s: PlotterState): (r: Step)
    ensures r.state.carriageState == Down
    ensures r.state.position == s.position && r.state.angle == s.angle
    ensures r.state.color == s.color
    ensures r.event == CarriageLowered
  {
    Step(s.(carriageState := Down), CarriageLowered)
  }

  function SetColor(color: LineColor, s: PlotterState): (r: Step)
    ensures r.state.color == color
    ensures r.state.position == s.position && r.state.angle == s.angle
    ensures r.state.carriageState == s.carriageState
    ensures r.event == ColorSet(color)
  {
    Step(s.(color := color), ColorSet(color))
  }

  /** Places the carriage at `position` without drawing, whatever the pen state. */
  function SetPosition(position: Position, s: PlotterState): (r: Step)
    ensures r.state.position == position
    ensures r.state.angle == s.angle && r.state.color == s.color
    ensures r.state.carriageState == s.carriageState
    ensures !r.event.DrawLine? && r.event == PositionSet(position)
  {
    Step(s.(position := position), PositionSet(position))
  }

  /** Raising the pen twice leaves the same state as raising it once. */
  lemma CarriageUpIdempotent(s: PlotterState)
    ensures CarriageUp(CarriageUp(s).state).state == CarriageUp(s).state
  {
  }

  /** Lowering the pen twice leaves the same state as lowering it once. */
  lemma CarriageDownIdempotent(s: PlotterState)
    ensures CarriageDown(CarriageDown(s).state).state == CarriageDown(s).state
  {
  }

  /** Raising the pen undoes lowering it, when it was raised to begin with. */
  lemma CarriageUpUndoesDown(s: PlotterState)
    requires s.carriageState == Up
    ensures CarriageUp(CarriageDown(s).state).state == s
  {
  }

  /** A full turn leaves a heading in [0, 360) where it was. */
  lemma TurnFullCircle(s: PlotterState)
    requires 0.0 <= s.angle < FullTurn
    ensures Turn(FullTurn, s).state == s
  {
  }

  /** Conversely, a full turn gives back the same state only from a heading in [0, 360):
      from any other heading it gives a different, equivalent heading. */
  lemma TurnFullCircleOnlyInRange(s: PlotterState)
    requires Turn(FullTurn, s).state == s
    ensures 0.0 <= s.angle < FullTurn
  {
    var a := Turn(FullTurn, s).state.angle;
    if s.angle + FullTurn >= 0.0 {
      assert 0.0 <= a < FullTurn;
    } else {
      assert false;
    }
  }

  /** The remainder keeps the sign of the sum: turning -90 degrees from heading 0 leaves
      the heading at -90, outside [0, 360). */
  lemma TurnCanGoNegative()
    ensures Turn(-90.0, InitialState()).state.angle == -90.0
  {
  }
}
