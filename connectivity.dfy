/** What a cube's connection list is, as a value: the registered cubes whose
    stored projection equals the projection of one of the cube's four
    same-height neighbour offsets, direction by direction (CubeScript.cs). */
module Connectivity {
  import opened Wrappers
  import opened Direction

  /** The screen position checked in cardinal direction d: the projection of
      the same-height neighbour offset of pos. */
  function NeighbourProjection(pos: Position3, perspective: CamPerspective, d: int): (r: Position2)
    requires 0 <= d < 4
    ensures r == Position2(Project(pos, perspective).x + CardinalOffset(d).x,
                           Project(pos, perspective).z + CardinalOffset(d).z)
  {
    PlaneDirectionsTable(d);
    var offset := PlaneDirections[d].pos.value;
    ProjectTranslates(pos, perspective, offset.x, offset.z);
    Project(Position3(pos.x + offset.x, pos.y, pos.z + offset.z), perspective)
  }

  /** The cell UpdateConnectivity computes from the direction table is the
      neighbour projection of direction d. */
  lemma CheckedCellIsNeighbourProjection(pos: Position3, perspective: CamPerspective, d: int)
    requires 0 <= d < |PlaneDirections|
    ensures PlaneDirections[d].pos.Some?
    ensures var offset := PlaneDirections[d].pos.value;
            Project(Position3(pos.x + offset.x, pos.y, pos.z + offset.z), perspective) == NeighbourProjection(pos, perspective, d)
  {
    PlaneDirectionsTable(d);
  }

  /** The indices of the stored projections equal to target, in list order. */
  function Matches(target: Position2, projections: seq<Option<Position2>>): (r: seq<nat>)
    ensures forall t: nat {:trigger t in r} :: t in r <==> t < |projections| && projections[t] == Some(target)
  {
    if |projections| == 0 then []
    else
      var last := |projections| - 1;
      Matches(target, projections[..last]) + (if target.Equals(projections[last]) then [last] else [])
  }

  /** The matches come in increasing list order. */
  lemma {:induction false} MatchesIncreasing(target: Position2, projections: seq<Option<Position2>>)
    ensures forall a, b :: 0 <= a < b < |Matches(target, projections)| ==>
              Matches(target, projections)[a] < Matches(target, projections)[b]
  {
    if |projections| > 0 {
      var last := |projections| - 1;
      var prefix := projections[..last];
      MatchesIncreasing(target, prefix);
      var front := Matches(target, prefix);
      forall a | 0 <= a < |front|
        ensures front[a] < last
      {
        assert front[a] in front;
      }
      var r := Matches(target, projections);
      assert r == front + (if target.Equals(projections[last]) then [last] else []);
      forall a, b | 0 <= a < b < |r|
        ensures r[a] < r[b]
      {
        if b < |front| {
          assert r[a] == front[a] && r[b] == front[b];
        } else {
          assert r[a] == front[a] && r[b] == last;
        }
      }
    }
  }

  /** The connections a cube at pos finds in direction d. */
  function ConnectionsVia(pos: Position3, perspective: CamPerspective, projections: seq<Option<Position2>>, d: int): seq<nat>
    requires 0 <= d < 4
  {
    Matches(NeighbourProjection(pos, perspective, d), projections)
  }

  /** The connections found in the first d directions, in direction order. */
  function ConnectionsUpTo(pos: Position3, perspective: CamPerspective, projections: seq<Option<Position2>>, d: int): seq<nat>
    requires 0 <= d <= 4
  {
    if d == 0 then []
    else ConnectionsUpTo(pos, perspective, projections, d - 1) + ConnectionsVia(pos, perspective, projections, d - 1)
  }

  /** The connection list of a cube at pos: directions N, E, S, W in turn,
      and within a direction the matching cubes in list order. */
  function ExpectedConnections(pos: Position3, perspective: CamPerspective, projections: seq<Option<Position2>>): seq<nat>
  {
    ConnectionsUpTo(pos, perspective, projections, 4)
  }

  /** The projections every cube stores once all are up to date. */
  function CurrentProjections(positions: seq<Position3>, perspective: CamPerspective): (r: seq<Option<Position2>>)
    ensures |r| == |positions|
    ensures forall t :: 0 <= t < |r| ==> r[t] == Some(Project(positions[t], perspective))
  {
    seq(|positions|, t requires 0 <= t < |positions| => Some(Project(positions[t], perspective)))
  }

  /** A cube is in the list exactly when its stored projection is one of the
      four neighbour projections. */
  lemma {:induction false} ConnectionsUpToMembership(pos: Position3, perspective: CamPerspective,
                                                     projections: seq<Option<Position2>>, d: int, t: nat)
    requires 0 <= d <= 4
    ensures t in ConnectionsUpTo(pos, perspective, projections, d)
            <==> t < |projections|
                 && exists e :: 0 <= e < d && projections[t] == Some(NeighbourProjection(pos, perspective, e))
  {
    if d > 0 {
      ConnectionsUpToMembership(pos, perspective, projections, d - 1, t);
    }
  }

  /** With projections up to date, a cube is connected to another exactly
      when the other stands, at its own height, on the screen cell of one of
      the cube's four same-height neighbours. */
  lemma ConnectedIffShiftOfNeighbour(positions: seq<Position3>, perspective: CamPerspective, i: nat, t: nat, d: int)
    requires i < |positions| && t < |positions| && 0 <= d < 4
    ensures var a := positions[i];
            t in ConnectionsVia(a, perspective, CurrentProjections(positions, perspective), d)
            <==> positions[t] == GetShiftToHeigh(Position3(a.x + CardinalOffset(d).x, a.y, a.z + CardinalOffset(d).z),
                                                 perspective, positions[t].y)
  {
    var a := positions[i];
    var ps := CurrentProjections(positions, perspective);
    var n := Position3(a.x + CardinalOffset(d).x, a.y, a.z + CardinalOffset(d).z);
    ProjectTranslates(a, perspective, CardinalOffset(d).x, CardinalOffset(d).z);
    assert NeighbourProjection(a, perspective, d) == Project(n, perspective);
    assert t in ConnectionsVia(a, perspective, ps, d) <==> Project(positions[t], perspective) == Project(n, perspective);
    SameProjectionIsShift(positions[t], n, perspective);
  }

  /** With projections up to date, no cube is connected to itself. */
  lemma NoSelfConnection(positions: seq<Position3>, perspective: CamPerspective, i: nat)
    requires i < |positions|
    ensures i !in ExpectedConnections(positions[i], perspective, CurrentProjections(positions, perspective))
  {
    var ps := CurrentProjections(positions, perspective);
    ConnectionsUpToMembership(positions[i], perspective, ps, 4, i);
    if e :| 0 <= e < 4 && ps[i] == Some(NeighbourProjection(positions[i], perspective, e)) {
      PlaneDirectionsTable(e);
      assert false;
    }
  }

  /** The same stored projection cannot match two different directions. */
  lemma DirectionsMatchDisjointly(pos: Position3, perspective: CamPerspective,
                                  projections: seq<Option<Position2>>, d: int, e: int, t: nat)
    requires 0 <= d < 4 && 0 <= e < 4 && d != e
    ensures !(t in ConnectionsVia(pos, perspective, projections, d) && t in ConnectionsVia(pos, perspective, projections, e))
  {
    CardinalOffsetsDistinct(d, e);
  }

  /** No element occurs twice. */
  predicate NoDuplicates<T(==)>(s: seq<T>) {
    forall a, b :: 0 <= a < b < |s| ==> s[a] != s[b]
  }

  /** Two duplicate-free sequences with no element in common concatenate to
      a duplicate-free sequence. */
  lemma DisjointConcat(front: seq<nat>, back: seq<nat>)
    requires NoDuplicates(front) && NoDuplicates(back)
    requires forall a, b :: 0 <= a < |front| && 0 <= b < |back| ==> front[a] != back[b]
    ensures NoDuplicates(front + back)
  {
    var r := front + back;
    forall a, b | 0 <= a < b < |r|
      ensures r[a] != r[b]
    {
      if b < |front| {
        assert r[a] == front[a] && r[b] == front[b];
      } else if a >= |front| {
        assert r[a] == back[a - |front|] && r[b] == back[b - |front|];
      } else {
        assert r[a] == front[a] && r[b] == back[b - |front|];
      }
    }
  }

  /** Every cube appears at most once in a connection list (whether or not
      the projections are up to date). */
  lemma {:induction false} ConnectionsUpToDistinct(pos: Position3, perspective: CamPerspective,
                                                   projections: seq<Option<Position2>>, d: int)
    requires 0 <= d <= 4
    ensures NoDuplicates(ConnectionsUpTo(pos, perspective, projections, d))
  {
    if d > 0 {
      ConnectionsUpToDistinct(pos, perspective, projections, d - 1);
      var front := ConnectionsUpTo(pos, perspective, projections, d - 1);
      var back := ConnectionsVia(pos, perspective, projections, d - 1);
      MatchesIncreasing(NeighbourProjection(pos, perspective, d - 1), projections);
      assert NoDuplicates(back);
      forall a, b | 0 <= a < |front| && 0 <= b < |back|
        ensures front[a] != back[b]
      {
        ConnectionsUpToMembership(pos, perspective, projections, d - 1, front[a]);
        var e :| 0 <= e < d - 1 && projections[front[a]] == Some(NeighbourProjection(pos, perspective, e));
        DirectionsMatchDisjointly(pos, perspective, projections, e, d - 1, front[a]);
      }
      DisjointConcat(front, back);
    }
  }

  /** With projections up to date, connections are symmetric: if B is
      connected to A in direction d, A is connected to B in the opposite
      direction. */
  lemma ConnectionSymmetric(positions: seq<Position3>, perspective: CamPerspective, i: nat, t: nat, d: int)
    requires i < |positions| && t < |positions| && 0 <= d < 4
    requires t in ConnectionsVia(positions[i], perspective, CurrentProjections(positions, perspective), d)
    ensures i in ConnectionsVia(positions[t], perspective, CurrentProjections(positions, perspective), Opposite(d))
  {
    OppositeOffsetsCancel(d);
  }

  /** Why a lookup on the current cube fails: the current cube is unset
      (null), or a list position past the end of its connections is read. */
  datatype LookupFault = NullCurrentCube | IndexOutOfRange

  /** The lookup of IsConnectedToCurrentCube as written, from direction d on:
      for each direction of N, E, S, W, the entry of the connection list at
      the position given by the direction's id is compared with the target;
      reading past the end of the list faults. */
  function LookupByListPosition<T(==)>(connections: seq<T>, target: T, d: nat): (r: Result<Option<PlaneDirection>, LookupFault>)
    requires d <= 4
    ensures r.Ok? && r.value.Some? ==>
              exists e :: d <= e < 4 && e < |connections| && connections[e] == target && r.value.value == PlaneDirections[e]
                          && forall f :: d <= f < e ==> connections[f] != target
    ensures r.Ok? && r.value.None? ==> (d < 4 ==> |connections| >= 4) && forall e :: d <= e < 4 ==> connections[e] != target
    ensures r.Fault? ==> r.error == IndexOutOfRange && |connections| < 4
                         && forall e :: d <= e < |connections| ==> connections[e] != target
    decreases 4 - d
  {
    if d == 4 then Ok(None)
    else if d >= |connections| then Fault(IndexOutOfRange)
    else if connections[d] == target then Ok(Some(PlaneDirections[d]))
    else LookupByListPosition(connections, target, d + 1)
  }

  /** A cube matched in direction d is matched in no other direction, and
      the directions' table entries differ. */
  lemma MatchesOneDirectionOnly(pos: Position3, perspective: CamPerspective, projections: seq<Option<Position2>>,
                                target: nat, d: int)
    requires 0 <= d < 4 && target in ConnectionsVia(pos, perspective, projections, d)
    ensures forall e :: 0 <= e < 4 && e != d ==>
              target !in ConnectionsVia(pos, perspective, projections, e) && PlaneDirections[e] != PlaneDirections[d]
  {
    forall e | 0 <= e < 4 && e != d
      ensures target !in ConnectionsVia(pos, perspective, projections, e) && PlaneDirections[e] != PlaneDirections[d]
    {
      DirectionsMatchDisjointly(pos, perspective, projections, d, e, target);
      PlaneDirectionsTable(d);
      PlaneDirectionsTable(e);
    }
  }

  /** The direction, among N, E, S, W from d on, in which target is
      connected to a cube at pos. */
  function DirectionFrom(pos: Position3, perspective: CamPerspective, projections: seq<Option<Position2>>,
                         target: nat, d: nat): (r: Option<PlaneDirection>)
    requires d <= 4
    ensures forall e :: d <= e < 4 ==>
              (r == Some(PlaneDirections[e]) <==> target in ConnectionsVia(pos, perspective, projections, e))
    ensures r.None? <==> forall e :: d <= e < 4 ==> target !in ConnectionsVia(pos, perspective, projections, e)
    ensures r.Some? ==> exists e :: d <= e < 4 && r == Some(PlaneDirections[e])
    decreases 4 - d
  {
    if d == 4 then None
    else if target in ConnectionsVia(pos, perspective, projections, d) then
      MatchesOneDirectionOnly(pos, perspective, projections, target, d);
      Some(PlaneDirections[d])
    else
      DirectionFrom(pos, perspective, projections, target, d + 1)
  }

  /** The direction in which target is connected to a cube at pos, found by
      direction rather than by list position: the one of N, E, S, W whose
      matches contain it, or None when target is not connected. */
  function ConnectedDirection(pos: Position3, perspective: CamPerspective, projections: seq<Option<Position2>>,
                              target: nat): (r: Option<PlaneDirection>)
    ensures forall d :: 0 <= d < 4 ==>
              (r == Some(PlaneDirections[d]) <==> target in ConnectionsVia(pos, perspective, projections, d))
    ensures r.None? <==> target !in ExpectedConnections(pos, perspective, projections)
  {
    ConnectionsUpToMembership(pos, perspective, projections, 4, target);
    DirectionFrom(pos, perspective, projections, target, 0)
  }

  /** With projections up to date, the direction from A to B is the
      opposite of the direction from B to A. */
  lemma ConnectedDirectionSymmetric(positions: seq<Position3>, perspective: CamPerspective, i: nat, t: nat, d: int)
    requires i < |positions| && t < |positions| && 0 <= d < 4
    requires ConnectedDirection(positions[i], perspective, CurrentProjections(positions, perspective), t) == Some(PlaneDirections[d])
    ensures ConnectedDirection(positions[t], perspective, CurrentProjections(positions, perspective), i)
            == Some(PlaneDirections[Opposite(d)])
  {
    ConnectionSymmetric(positions, perspective, i, t, d);
  }

  /** The stored projections of the example below: cubes at (0, 0, 0) and
      (1, 0, 0). */
  const ExampleProjections: seq<Option<Position2>> := [Some(Position2(0, 0)), Some(Position2(1, 0))]

  /** In the example below, direction E alone finds the second cube. */
  lemma ExampleConnectionsVia(perspective: CamPerspective, d: int)
    requires perspective.id == PerspectiveNorthEast && 0 <= d < 4
    ensures ConnectionsVia(Position3(0, 0, 0), perspective, ExampleProjections, d)
            == if d == DirectionEast then [1] else []
  {
    var ps := ExampleProjections;
    PlaneDirectionsTable(d);
    var target := NeighbourProjection(Position3(0, 0, 0), perspective, d);
    assert ps[..1] == [Some(Position2(0, 0))] && ps[..1][..0] == [];
    assert Matches(target, ps[..1][..0]) == [];
    assert Matches(target, ps[..1]) == [];
  }

  /** A connection list found by direction E alone is what E finds. */
  lemma OnlyEastConnects(pos: Position3, perspective: CamPerspective, projections: seq<Option<Position2>>)
    requires forall d :: 0 <= d < 4 && d != DirectionEast ==> ConnectionsVia(pos, perspective, projections, d) == []
    ensures ExpectedConnections(pos, perspective, projections) == ConnectionsVia(pos, perspective, projections, DirectionEast)
  {
    var east := ConnectionsVia(pos, perspective, projections, DirectionEast);
    assert ConnectionsVia(pos, perspective, projections, DirectionNorth) == [];
    assert ConnectionsVia(pos, perspective, projections, DirectionSouth) == [];
    assert ConnectionsVia(pos, perspective, projections, DirectionWest) == [];
    assert ConnectionsUpTo(pos, perspective, projections, 1) == [];
    assert ConnectionsUpTo(pos, perspective, projections, 2) == east;
    assert ConnectionsUpTo(pos, perspective, projections, 3) == east;
  }

  /** In the example below, the first cube's connection list is [1]. */
  lemma ExampleConnections(perspective: CamPerspective)
    requires perspective.id == PerspectiveNorthEast
    ensures ExpectedConnections(Position3(0, 0, 0), perspective, ExampleProjections) == [1]
  {
    forall d | 0 <= d < 4
      ensures ConnectionsVia(Position3(0, 0, 0), perspective, ExampleProjections, d)
              == if d == DirectionEast then [1] else []
    {
      ExampleConnectionsVia(perspective, d);
    }
    OnlyEastConnects(Position3(0, 0, 0), perspective, ExampleProjections);
  }

  /** The example's projections are the current ones seen from NE. */
  lemma ExampleProjectionsAreCurrent(perspective: CamPerspective)
    requires perspective.id == PerspectiveNorthEast
    ensures CurrentProjections([Position3(0, 0, 0), Position3(1, 0, 0)], perspective) == ExampleProjections
  {
    var ps := CurrentProjections([Position3(0, 0, 0), Position3(1, 0, 0)], perspective);
    assert ps[0] == Some(Position2(0, 0));
    assert ps[1] == Some(Position2(1, 0));
  }

  /** In the example below, the direction in which each cube is connected
      to the first: E for the second cube, none for the first itself. */
  lemma ExampleLookups(perspective: CamPerspective)
    requires perspective.id == PerspectiveNorthEast
    ensures var ps := ExampleProjections;
            && ConnectedDirection(Position3(0, 0, 0), perspective, ps, 1) == Some(PlaneDirections[DirectionEast])
            && ConnectedDirection(Position3(0, 0, 0), perspective, ps, 0) == None
  {
    ExampleConnections(perspective);
    ExampleConnectionsVia(perspective, DirectionEast);
  }

  /** In the example below, the lookups by list position in the first
      cube's connection list [1]. */
  lemma ExampleLookupsByListPosition()
    ensures LookupByListPosition<nat>([1], 1, 0) == Ok(Some(PlaneDirections[DirectionNorth]))
    ensures LookupByListPosition<nat>([1], 0, 0) == Fault(IndexOutOfRange)
  {
  }

  /** Two cubes side by side at (0, 0, 0) and (1, 0, 0), seen from the NE
      perspective: the second is connected to the first in direction E and is entry 0 of its
      list, so the lookup by list position answers N; and looking up a cube
      that is not connected reads past the end of the one-entry list. */
  lemma ListPositionIsNotDirection(perspective: CamPerspective)
    requires perspective.id == PerspectiveNorthEast
    ensures CurrentProjections([Position3(0, 0, 0), Position3(1, 0, 0)], perspective) == ExampleProjections
    ensures ExpectedConnections(Position3(0, 0, 0), perspective, ExampleProjections) == [1]
    ensures ConnectedDirection(Position3(0, 0, 0), perspective, ExampleProjections, 1) == Some(PlaneDirections[DirectionEast])
    ensures LookupByListPosition<nat>([1], 1, 0) == Ok(Some(PlaneDirections[DirectionNorth]))
    ensures ConnectedDirection(Position3(0, 0, 0), perspective, ExampleProjections, 0) == None
    ensures LookupByListPosition<nat>([1], 0, 0) == Fault(IndexOutOfRange)
  {
    ExampleProjectionsAreCurrent(perspective);
    ExampleConnections(perspective);
    ExampleLookups(perspective);
    ExampleLookupsByListPosition();
  }
}
