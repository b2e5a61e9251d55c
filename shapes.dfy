/** The shape routines `drawTriangle` and `drawSquare`: lower the pen, repeat
    {move, turn} a fixed number of times, raise the pen. The loop is specified by the
    recursive function `Sides`; the methods run the loop and are proved equal to it. */
module Shapes {
  import opened Angles
  import opened Plotter

  /** A final state together with every printer write made on the way, in order. */
  datatype Drawing = Drawing(state: PlotterState, trace: seq<Event>)

  /** A line that a trace reports as drawn. */
  datatype Segment = Segment(from: Position, to: Position, color: LineColor)

  /** The lines a trace draws, in order. */
  function Drawn(trace: seq<Event>): (lines: seq<Segment>)
    ensures |lines| <= |trace|
  {
    if trace == [] then []
    else
      var head := if trace[0].DrawLine? then [Segment(trace[0].from, trace[0].to, trace[0].lineColor)]
                  else [];
      head + Drawn(trace[1..])
  }

  /** Each line of `lines` starts where the previous one ends. */
  predicate Connected(lines: seq<Segment>) {
    forall k :: 0 <= k < |lines| - 1 ==> lines[k].to == lines[k + 1].from
  }

  /** `n` rounds of {move `size`, turn `exterior`} from `s`, as in the loop body. */
  function Sides(geo: Geometry, size: real, exterior: real, n: nat, s: PlotterState): (d: Drawing)
    ensures |d.trace| == 2 * n
  {
    if n == 0 then Drawing(s, [])
    else
      var before := Sides(geo, size, exterior, n - 1, s);
      var moved := Move(geo, size, before.state);
      var turned := Turn(exterior, moved.state);
      Drawing(turned.state, before.trace + [moved.event, turned.event])
  }

  /** A polygon routine: pen down, `n` sides, pen up. */
  function Polygon(geo: Geometry, size: real, exterior: real, n: nat, s: PlotterState): (d: Drawing)
    ensures |d.trace| == 2 * n + 2
  {
    var lowered := CarriageDown(s);
    var sides := Sides(geo, size, exterior, n, lowered.state);
    var raised := CarriageUp(sides.state);
    Drawing(raised.state, [lowered.event] + sides.trace + [raised.event])
  }

  lemma {:induction false} DrawnAppend(a: seq<Event>, b: seq<Event>)
    ensures Drawn(a + b) == Drawn(a) + Drawn(b)
  {
    if a != [] {
      assert (a + b)[1..] == a[1..] + b;
      DrawnAppend(a[1..], b);
    } else {
      assert a + b == b;
    }
  }

  /** The loop never touches the pen or the colour. */
  lemma {:induction false} SidesKeepPenAndColor(geo: Geometry, size: real, exterior: real, n: nat,
                                                s: PlotterState)
    ensures Sides(geo, size, exterior, n, s).state.carriageState == s.carriageState
    ensures Sides(geo, size, exterior, n, s).state.color == s.color
  {
    if n > 0 {
      SidesKeepPenAndColor(geo, size, exterior, n - 1, s);
    }
  }

  /** The line that round `k + 1` draws with the pen down: from the position after
      `k` rounds, along the heading after `k` rounds. */
  function LineOfRound(geo: Geometry, size: real, exterior: real, k: nat, s: PlotterState)
    : (seg: Segment)
  {
    var at := Sides(geo, size, exterior, k, s).state;
    Segment(at.position, geo(size, at.angle, at.position), at.color)
  }

  /** The line of round `k + 1` ends where that round leaves the carriage, and is drawn
      in the starting colour. */
  lemma LineOfRoundEnds(geo: Geometry, size: real, exterior: real, k: nat, s: PlotterState)
    ensures LineOfRound(geo, size, exterior, k, s).to == Sides(geo, size, exterior, k + 1, s).state.position
    ensures LineOfRound(geo, size, exterior, k, s).color == s.color
  {
    SidesKeepPenAndColor(geo, size, exterior, k, s);
  }

  /** The lines drawn by one round: one line with the pen down, none with it up. */
  lemma RoundDraws(geo: Geometry, size: real, exterior: real, n: nat, s: PlotterState)
    requires n > 0
    ensures var before := Sides(geo, size, exterior, n - 1, s);
            Drawn(Sides(geo, size, exterior, n, s).trace) ==
              Drawn(before.trace) +
              (if before.state.carriageState == Down
               then [LineOfRound(geo, size, exterior, n - 1, s)] else [])
  {
    var before := Sides(geo, size, exterior, n - 1, s);
    var moved := Move(geo, size, before.state);
    var turned := Turn(exterior, moved.state);
    DrawnAppend(before.trace, [moved.event, turned.event]);
    assert [moved.event, turned.event][1..] == [turned.event];
  }

  /** With the pen up the loop draws nothing. */
  lemma {:induction false} SidesDrawNothingRaised(geo: Geometry, size: real, exterior: real,
                                                  n: nat, s: PlotterState)
    requires s.carriageState == Up
    ensures Drawn(Sides(geo, size, exterior, n, s).trace) == []
  {
    if n > 0 {
      var before := Sides(geo, size, exterior, n - 1, s);
      SidesDrawNothingRaised(geo, size, exterior, n - 1, s);
      SidesKeepPenAndColor(geo, size, exterior, n - 1, s);
      assert before.state.carriageState == Up;
      RoundDraws(geo, size, exterior, n, s);
      assert Drawn(Sides(geo, size, exterior, n, s).trace) == Drawn(before.trace) + [];
    }
  }

  /** The lines of the first `n` rounds, one per round. */
  function RoundLines(geo: Geometry, size: real, exterior: real, n: nat, s: PlotterState)
    : (lines: seq<Segment>)
    ensures |lines| == n
  {
    if n == 0 then [] else RoundLines(geo, size, exterior, n - 1, s) + [LineOfRound(geo, size, exterior, n - 1, s)]
  }

  lemma {:induction false} RoundLinesAt(geo: Geometry, size: real, exterior: real, n: nat,
                                        s: PlotterState, k: nat)
    requires k < n
    ensures RoundLines(geo, size, exterior, n, s)[k] == LineOfRound(geo, size, exterior, k, s)
  {
    if k < n - 1 {
      RoundLinesAt(geo, size, exterior, n - 1, s, k);
    }
  }

  /** With the pen down every round draws exactly one line: the `k`-th line runs from
      the position after `k` rounds, along the heading after `k` rounds. */
  lemma {:induction false} SidesDraw(geo: Geometry, size: real, exterior: real, n: nat,
                                     s: PlotterState)
    requires s.carriageState == Down
    ensures Drawn(Sides(geo, size, exterior, n, s).trace) == RoundLines(geo, size, exterior, n, s)
  {
    if n > 0 {
      var before := Sides(geo, size, exterior, n - 1, s);
      SidesDraw(geo, size, exterior, n - 1, s);
      SidesKeepPenAndColor(geo, size, exterior, n - 1, s);
      assert before.state.carriageState == Down;
      RoundDraws(geo, size, exterior, n, s);
      assert Drawn(Sides(geo, size, exterior, n, s).trace)
          == Drawn(before.trace) + [LineOfRound(geo, size, exterior, n - 1, s)];
    }
  }

  /** With the pen down the loop draws a connected path of `n` lines in the starting
      colour, from the starting position to the final one. */
  lemma SidesPath(geo: Geometry, size: real, exterior: real, n: nat, s: PlotterState)
    requires s.carriageState == Down
    ensures var d := Sides(geo, size, exterior, n, s);
            var lines := Drawn(d.trace);
            |lines| == n && Connected(lines) &&
            (forall k :: 0 <= k < n ==> lines[k].color == s.color) &&
            (n > 0 ==> lines[0].from == s.position && lines[n - 1].to == d.state.position)
  {
    var lines := Drawn(Sides(geo, size, exterior, n, s).trace);
    SidesDraw(geo, size, exterior, n, s);
    forall k | 0 <= k < n
      ensures lines[k] == LineOfRound(geo, size, exterior, k, s)
      ensures lines[k].color == s.color
      ensures lines[k].to == Sides(geo, size, exterior, k + 1, s).state.position
    {
      RoundLinesAt(geo, size, exterior, n, s, k);
      LineOfRoundEnds(geo, size, exterior, k, s);
    }
    forall k | 0 <= k < |lines| - 1
      ensures lines[k].to == lines[k + 1].from
    {
      assert lines[k + 1] == LineOfRound(geo, size, exterior, k + 1, s);
    }
  }

  /** The sum of `n` turns of `exterior` degrees, before any remainder is taken. */
  function TotalTurn(n: nat, exterior: real): (t: real)
  {
    if n == 0 then 0.0 else TotalTurn(n - 1, exterior) + exterior
  }

  /** `n` turns of `exterior` degrees add up to `n * exterior`. */
  lemma {:induction false} TotalTurnIsProduct(n: nat, exterior: real)
    ensures TotalTurn(n, exterior) == n as real * exterior
  {
    if n > 0 {
      TotalTurnIsProduct(n - 1, exterior);
      assert (n - 1) as real * exterior + exterior == n as real * exterior;
    }
  }

  /** After `n` rounds the heading is the starting heading plus `n` turns of `exterior`,
      up to whole turns; it stays non-negative from a non-negative start and lies
      strictly between -360 and 360 once a turn has been made. */
  lemma {:induction false} SidesHeading(geo: Geometry, size: real, exterior: real, n: nat,
                                        s: PlotterState)
    ensures var a := Sides(geo, size, exterior, n, s).state.angle;
            SameHeading(a, s.angle + TotalTurn(n, exterior)) &&
            (s.angle >= 0.0 && exterior >= 0.0 ==> a >= 0.0) &&
            (n > 0 ==> -FullTurn < a < FullTurn)
  {
    var a := Sides(geo, size, exterior, n, s).state.angle;
    if n == 0 {
      assert a - (s.angle + TotalTurn(0, exterior)) == Turns(0);
    } else {
      var before := Sides(geo, size, exterior, n - 1, s);
      var b := before.state.angle;
      var moved := Move(geo, size, before.state);
      assert moved.state.angle == b;
      assert a == Turn(exterior, moved.state).state.angle;
      SidesHeading(geo, size, exterior, n - 1, s);
      var done := s.angle + TotalTurn(n - 1, exterior);
      SameHeadingShift(b, done, exterior);
      SameHeadingTransitive(a, b + exterior, done + exterior);
    }
  }

  /** A polygon routine leaves the pen raised and the colour kept, brackets its trace
      with the lower and raise events, and draws its `n` sides as a connected path in
      the starting colour from the start position to the final position. */
  lemma PolygonPath(geo: Geometry, size: real, exterior: real, n: nat, s: PlotterState)
    requires n > 0
    ensures var d := Polygon(geo, size, exterior, n, s);
            var lines := Drawn(d.trace);
            d.state.carriageState == Up && d.state.color == s.color &&
            d.trace[0] == CarriageLowered && d.trace[2 * n + 1] == CarriageRaised &&
            |lines| == n && Connected(lines) && lines[0].from == s.position &&
            lines[n - 1].to == d.state.position &&
            (forall k :: 0 <= k < n ==> lines[k].color == s.color)
  {
    var lowered := CarriageDown(s);
    var sides := Sides(geo, size, exterior, n, lowered.state);
    var d := Polygon(geo, size, exterior, n, s);
    SidesKeepPenAndColor(geo, size, exterior, n, lowered.state);
    SidesPath(geo, size, exterior, n, lowered.state);
    DrawnAppend([lowered.event], sides.trace);
    DrawnAppend([lowered.event] + sides.trace, [CarriageUp(sides.state).event]);
    assert Drawn(d.trace) == Drawn(sides.trace);
  }

  /** A polygon whose turns add up to one full turn ends on a heading equivalent to the
      start heading, and equal to it when the start lies in [0, 360). */
  lemma PolygonClosesHeading(geo: Geometry, size: real, exterior: real, n: nat, s: PlotterState)
    requires n > 0 && exterior >= 0.0 && n as real * exterior == FullTurn
    ensures var a := Polygon(geo, size, exterior, n, s).state.angle;
            SameHeading(a, s.angle) && (0.0 <= s.angle < FullTurn ==> a == s.angle)
  {
    var lowered := CarriageDown(s);
    var a := Polygon(geo, size, exterior, n, s).state.angle;
    SidesHeading(geo, size, exterior, n, lowered.state);
    TotalTurnIsProduct(n, exterior);
    SameHeadingFullTurn(s.angle);
    SameHeadingTransitive(a, s.angle + FullTurn, s.angle);
    if 0.0 <= s.angle < FullTurn {
      SameHeadingUnique(a, s.angle);
    }
  }

  /** `drawTriangle`: three sides, turning 120 degrees after each. */
  method DrawTriangle(geo: Geometry, size: real, s: PlotterState)
    returns (r: PlotterState, trace: seq<Event>)
    ensures Drawing(r, trace) == Polygon(geo, size, 120.0, 3, s)
    ensures r.carriageState == Up && r.color == s.color
    ensures |trace| == 8 && trace[0] == CarriageLowered && trace[7] == CarriageRaised
    ensures |Drawn(trace)| == 3 && Connected(Drawn(trace))
    ensures Drawn(trace)[0].from == s.position && Drawn(trace)[2].to == r.position
    ensures forall k :: 0 <= k < 3 ==> Drawn(trace)[k].color == s.color
    ensures SameHeading(r.angle, s.angle)
    ensures 0.0 <= s.angle < FullTurn ==> r.angle == s.angle
  {
    var lowered := CarriageDown(s);
    var state := lowered.state;
    trace := [lowered.event];
    for i := 0 to 3
      invariant state == Sides(geo, size, 120.0, i, lowered.state).state
      invariant trace == [lowered.event] + Sides(geo, size, 120.0, i, lowered.state).trace
    {
      var moved := Move(geo, size, state);
      state := moved.state;
      trace := trace + [moved.event];
      var turned := Turn(120.0, state);
      state := turned.state;
      trace := trace + [turned.event];
    }
    var raised := CarriageUp(state);
    r := raised.state;
    trace := trace + [raised.event];
    PolygonPath(geo, size, 120.0, 3, s);
    PolygonClosesHeading(geo, size, 120.0, 3, s);
  }

  /** `drawSquare`: four sides, turning 90 degrees after each. */
  method DrawSquare(geo: Geometry, size: real, s: PlotterState)
    returns (r: PlotterState, trace: seq<Event>)
    ensures Drawing(r, trace) == Polygon(geo, size, 90.0, 4, s)
    ensures r.carriageState == Up && r.color == s.color
    ensures |trace| == 10 && trace[0] == CarriageLowered && trace[9] == CarriageRaised
    ensures |Drawn(trace)| == 4 && Connected(Drawn(trace))
    ensures Drawn(trace)[0].from == s.position && Drawn(trace)[3].to == r.position
    ensures forall k :: 0 <= k < 4 ==> Drawn(trace)[k].color == s.color
    ensures SameHeading(r.angle, s.angle)
    ensures 0.0 <= s.angle < FullTurn ==> r.angle == s.angle
  {
    var lowered := CarriageDown(s);
    var state := lowered.state;
    trace := [lowered.event];
    for i := 0 to 4
      invariant state == Sides(geo, size, 90.0, i, lowered.state).state
      invariant trace == [lowered.event] + Sides(geo, size, 90.0, i, lowered.state).trace
    {
      var moved := Move(geo, size, state);
      state := moved.state;
      trace := trace + [moved.event];
      var turned := Turn(90.0, state);
      state := turned.state;
      trace := trace + [turned.event];
    }
    var raised := CarriageUp(state);
    r := raised.state;
    trace := trace + [raised.event];
    PolygonPath(geo, size, 90.0, 4, s);
    PolygonClosesHeading(geo, size, 90.0, 4, s);
  }

  /** The top-level script: a triangle of side 100 from the initial state, then a jump
      to (10, 10), the colour red and a square of side 80. Both shapes end with the pen
      raised and the heading back at 0; the square is drawn in red from (10, 10). */
  lemma ScriptScenario(geo: Geometry)
    ensures var triangle := Polygon(geo, 100.0, 120.0, 3, InitialState());
            var placed := SetPosition(Position(10.0, 10.0), triangle.state);
            var colored := SetColor(Red, placed.state);
            var square := Polygon(geo, 80.0, 90.0, 4, colored.state);
            var squareLines := Drawn(square.trace);
            |Drawn(triangle.trace)| == 3 && Drawn(triangle.trace)[0].from == Position(0.0, 0.0) &&
            triangle.state.carriageState == Up && triangle.state.angle == 0.0 &&
            Drawn([placed.event, colored.event]) == [] &&
            |squareLines| == 4 && squareLines[0].from == Position(10.0, 10.0) &&
            (forall k :: 0 <= k < 4 ==> squareLines[k].color == Red) &&
            square.state.carriageState == Up && square.state.angle == 0.0 &&
            square.state.color == Red
  {
    var triangle := Polygon(geo, 100.0, 120.0, 3, InitialState());
    PolygonPath(geo, 100.0, 120.0, 3, InitialState());
    PolygonClosesHeading(geo, 100.0, 120.0, 3, InitialState());
    var placed := SetPosition(Position(10.0, 10.0), triangle.state);
    var colored := SetColor(Red, placed.state);
    PolygonPath(geo, 80.0, 90.0, 4, colored.state);
    PolygonClosesHeading(geo, 80.0, 90.0, 4, colored.state);
  }
}
