/** The data-point editor around the engine: a left click selects the
    nearest data point within the point radius, a double click first adds a
    point where it lands, and the Start, Stop and Restart commands switch the
    search on and off. Clicks are ignored while the search runs. */
module PointEditor {
  import opened Geometry
  import opened GeneticEngine

  datatype Option<T> = None | Some(value: T)

  /** Radius of a drawn data point, in pixels. */
  const PointRadius: int := 8
  /** Largest int, the initial selection distance. */
  const IntMax: int := 0x7fff_ffff

  function SquaredDistance(p: Point, q: Point): (d: int)
    ensures d >= 0
    ensures d == 0 <==> p == q
  {
    (p.x - q.x) * (p.x - q.x) + (p.y - q.y) * (p.y - q.y)
  }

  /** sel is what a click at `at` selects: the first point of least squared
      distance when that distance is within the point radius, and nothing
      when every point is farther. */
  predicate IsNearestSelection(points: seq<Point>, at: Point, sel: Option<nat>)
  {
    match sel
    case None =>
      forall j :: 0 <= j < |points| ==> SquaredDistance(points[j], at) > PointRadius * PointRadius
    case Some(k) =>
      && k < |points|
      && SquaredDistance(points[k], at) <= PointRadius * PointRadius
      && (forall j :: 0 <= j < |points| ==> SquaredDistance(points[k], at) <= SquaredDistance(points[j], at))
      && (forall j :: 0 <= j < k ==> SquaredDistance(points[k], at) < SquaredDistance(points[j], at))
  }

  /** The selection scan: keep the first point of strictly smaller distance,
      starting from the largest int, then accept it only within the radius. */
  method SelectNearest(points: seq<Point>, at: Point) returns (sel: Option<nat>)
    ensures IsNearestSelection(points, at, sel)
  {
    var best: Option<nat> := None;
    var bestDist := IntMax;
    var i := 0;
    while i < |points|
      invariant 0 <= i <= |points|
      invariant best.None? ==> bestDist == IntMax && forall j :: 0 <= j < i ==> SquaredDistance(points[j], at) >= IntMax
      invariant best.Some? ==>
        && best.value < i
        && bestDist == SquaredDistance(points[best.value], at)
        && (forall j :: 0 <= j < i ==> bestDist <= SquaredDistance(points[j], at))
        && (forall j :: 0 <= j < best.value ==> bestDist < SquaredDistance(points[j], at))
    {
      var dist := SquaredDistance(points[i], at);
      if dist < bestDist {
        best := Some(i);
        bestDist := dist;
      }
      i := i + 1;
    }
    if best.Some? && bestDist <= PointRadius * PointRadius {
      sel := best;
    } else {
      sel := None;
    }
  }

  /** A click selects at most one thing: the selection is determined by the
      points and the click position. */
  lemma SelectionIsUnique(points: seq<Point>, at: Point, s: Option<nat>, t: Option<nat>)
    requires IsNearestSelection(points, at, s) && IsNearestSelection(points, at, t)
    ensures s == t
  {
  }

  /** After a double click adds a point, the same click selects a point at
      exactly the click position: the new one, or an earlier duplicate. */
  lemma {:induction false} AddedPointIsSelected(points: seq<Point>, at: Point, sel: Option<nat>)
    requires IsNearestSelection(points + [at], at, sel)
    ensures sel.Some? && (points + [at])[sel.value] == at
    ensures sel.value < |points| ==> points[sel.value] == at
  {
    var all := points + [at];
    assert SquaredDistance(all[|points|], at) == 0;
    assert sel.Some?;
    assert SquaredDistance(all[sel.value], at) <= 0;
  }

  /** The Start command's guard: refused when the list is empty or when the
      second element is the last one. So exactly two points are refused, and
      a single point is accepted. */
  function StartAccepted(points: seq<Point>): (ok: bool)
    ensures ok <==> |points| != 0 && |points| != 2
  {
    !(|points| == 0 || 1 == |points| - 1)
  }

  class Editor {
    /** The data points in insertion order, in logical coordinates. */
    var points: seq<Point>
    /** Index of the selected data point, if any. */
    var selected: Option<nat>
    /** Whether the search is running. */
    var started: bool
    const engine: Engine

    ghost predicate Valid()
      reads this, engine
    {
      engine.Valid() && (selected.Some? ==> selected.value < |points|)
    }

    constructor ()
      ensures Valid() && fresh(engine)
      ensures points == [] && selected == None && !started
      ensures engine.generation == 0
    {
      points := [];
      selected := None;
      started := false;
      engine := new Engine();
    }

    /** A left click at a client position while the search is stopped: a
        double click first appends the clicked point, then the click selects
        the nearest point within the radius (or clears the selection). While
        the search runs, nothing changes. */
    method LButtonDown(doubleClick: bool, client: Point)
      requires Valid()
      modifies this`points, this`selected
      ensures Valid()
      ensures old(started) ==> points == old(points) && selected == old(selected)
      ensures !old(started) ==>
        && points == old(points) + (if doubleClick then [ClientToLogical(client)] else [])
        && IsNearestSelection(points, ClientToLogical(client), selected)
    {
      if !started {
        var logical := ClientToLogical(client);
        if doubleClick {
          points := points + [logical];
        }
        selected := SelectNearest(points, logical);
      }
    }

    /** The Start command: refused by the guard, otherwise clears the
        selection, marks the search running and randomizes the engine. */
    method CommandStart(units: seq<real>) returns (accepted: bool)
      requires Valid() && StartUnitsOk(units)
      modifies this`selected, this`started, engine`generation, engine.current
      ensures Valid()
      ensures accepted <==> |points| != 0 && |points| != 2
      ensures accepted ==>
        && selected == None && started
        && engine.generation == 0 && engine.current[..] == Randomized(units)
        && engine.newGen[..] == old(engine.newGen[..])
      ensures !accepted ==>
        && selected == old(selected) && started == old(started)
        && engine.generation == old(engine.generation) && engine.current[..] == old(engine.current[..])
    {
      accepted := StartAccepted(points);
      if accepted {
        selected := None;
        started := true;
        engine.Start(units);
      }
    }

    /** The Stop command: the search stops; the population is kept. */
    method CommandStop()
      modifies this`started
      ensures !started
    {
      started := false;
    }

    /** The Restart command: the population is redrawn and the counter reset,
        with no guard on the points. */
    method CommandRestart(units: seq<real>)
      requires Valid() && StartUnitsOk(units)
      modifies engine`generation, engine.current
      ensures Valid()
      ensures engine.generation == 0 && engine.current[..] == Randomized(units)
      ensures engine.newGen[..] == old(engine.newGen[..])
    {
      engine.Start(units);
    }
  }
}
