/** The scene objects: the grid that registers cubes (GridScript.cs) and the
    cubes themselves (CubeScript.cs), whose projections and connection lists
    are recomputed whenever the camera perspective changes. */
module Scene {
  import opened Wrappers
  import opened Direction
  import opened Connectivity

  /** The grid holds 9 cells along each axis. */
  const GridSize := 9

  predicate InGrid(pos: Position3) {
    0 <= pos.x < GridSize && 0 <= pos.y < GridSize && 0 <= pos.z < GridSize
  }

  /** Every index is below n. */
  predicate IndicesBelow(indices: seq<nat>, n: nat) {
    forall k :: 0 <= k < |indices| ==> indices[k] < n
  }

  /** The cubes at the given list indices, in index order. */
  function Select<T>(items: seq<T>, indices: seq<nat>): (r: seq<T>)
    requires IndicesBelow(indices, |items|)
    ensures |r| == |indices|
    ensures forall k :: 0 <= k < |r| ==> r[k] == items[indices[k]]
  {
    seq(|indices|, k requires 0 <= k < |indices| => items[indices[k]])
  }

  /** Selecting the indices of a concatenation is concatenating the selections. */
  lemma SelectAppend<T>(items: seq<T>, a: seq<nat>, b: seq<nat>)
    requires IndicesBelow(a, |items|) && IndicesBelow(b, |items|)
    ensures Select(items, a + b) == Select(items, a) + Select(items, b)
  {
  }

  /** Among distinct items, the item at t is selected exactly when t is one
      of the indices. */
  lemma SelectDistinctMembership<T>(items: seq<T>, indices: seq<nat>, t: nat)
    requires IndicesBelow(indices, |items|)
    requires NoDuplicates(items)
    requires t < |items|
    ensures items[t] in Select(items, indices) <==> t in indices
  {
    var r := Select(items, indices);
    if items[t] in r {
      var k :| 0 <= k < |r| && r[k] == items[t];
      assert indices[k] == t;
    }
    if t in indices {
      var k :| 0 <= k < |indices| && indices[k] == t;
      assert r[k] == items[t];
    }
  }

  /** Distinct indices into distinct items select distinct items. */
  lemma SelectNoDuplicates<T>(items: seq<T>, indices: seq<nat>)
    requires IndicesBelow(indices, |items|) && NoDuplicates(items) && NoDuplicates(indices)
    ensures NoDuplicates(Select(items, indices))
  {
    var r := Select(items, indices);
    forall a, b | 0 <= a < b < |r|
      ensures r[a] != r[b]
    {
      assert indices[a] != indices[b];
    }
  }

  /** Every index in a connection list points into the cube list. */
  lemma ConnectionsInRange(pos: Position3, perspective: CamPerspective, projections: seq<Option<Position2>>, d: int)
    requires 0 <= d <= 4
    ensures IndicesBelow(ConnectionsUpTo(pos, perspective, projections, d), |projections|)
  {
    var r := ConnectionsUpTo(pos, perspective, projections, d);
    forall k | 0 <= k < |r|
      ensures r[k] < |projections|
    {
      ConnectionsUpToMembership(pos, perspective, projections, d, r[k]);
    }
  }

  /** The items (cubes, in list order) connected to a cube at pos, given the
      projections the items hold. */
  function ConnectedItems<T>(items: seq<T>, pos: Position3, perspective: CamPerspective,
                             projections: seq<Option<Position2>>): seq<T>
    requires |projections| == |items|
  {
    ConnectionsInRange(pos, perspective, projections, 4);
    Select(items, ExpectedConnections(pos, perspective, projections))
  }

  /** With projections up to date, an item among distinct items is in the
      connection list of the item at i exactly when its own position is one
      of the neighbours' screen cells. */
  lemma ConnectedItemsMembership<T>(items: seq<T>, positions: seq<Position3>, perspective: CamPerspective, i: nat, t: nat)
    requires |positions| == |items| && i < |items| && t < |items|
    requires NoDuplicates(items)
    ensures var ps := CurrentProjections(positions, perspective);
            items[t] in ConnectedItems(items, positions[i], perspective, ps)
            <==> exists d :: 0 <= d < 4 && t in ConnectionsVia(positions[i], perspective, ps, d)
  {
    var ps := CurrentProjections(positions, perspective);
    var indices := ExpectedConnections(positions[i], perspective, ps);
    ConnectionsInRange(positions[i], perspective, ps, 4);
    SelectDistinctMembership(items, indices, t);
    ConnectionsUpToMembership(positions[i], perspective, ps, 4, t);
    if e :| 0 <= e < 4 && t in ConnectionsVia(positions[i], perspective, ps, e) {
      assert ps[t] == Some(NeighbourProjection(positions[i], perspective, e));
    }
    if e :| 0 <= e < 4 && ps[t] == Some(NeighbourProjection(positions[i], perspective, e)) {
      assert t in ConnectionsVia(positions[i], perspective, ps, e);
    }
  }

  /** With projections up to date, no item is in its own connection list. */
  lemma ConnectedItemsExcludeSelf<T>(items: seq<T>, positions: seq<Position3>, perspective: CamPerspective, t: nat)
    requires |positions| == |items| && t < |items|
    requires NoDuplicates(items)
    ensures items[t] !in ConnectedItems(items, positions[t], perspective, CurrentProjections(positions, perspective))
  {
    var ps := CurrentProjections(positions, perspective);
    ConnectionsInRange(positions[t], perspective, ps, 4);
    SelectDistinctMembership(items, ExpectedConnections(positions[t], perspective, ps), t);
    NoSelfConnection(positions, perspective, t);
  }

  /** With projections up to date, connection lists are symmetric. */
  lemma ConnectedItemsSymmetric<T>(items: seq<T>, positions: seq<Position3>, perspective: CamPerspective, i: nat, t: nat)
    requires |positions| == |items| && i < |items| && t < |items|
    requires NoDuplicates(items)
    requires items[t] in ConnectedItems(items, positions[i], perspective, CurrentProjections(positions, perspective))
    ensures items[i] in ConnectedItems(items, positions[t], perspective, CurrentProjections(positions, perspective))
  {
    var ps := CurrentProjections(positions, perspective);
    ConnectedItemsMembership(items, positions, perspective, i, t);
    var d :| 0 <= d < 4 && t in ConnectionsVia(positions[i], perspective, ps, d);
    ConnectionSymmetric(positions, perspective, i, t, d);
    ConnectedItemsMembership(items, positions, perspective, t, i);
  }

  /** Among distinct items, a connection list holds each item at most once,
      whether or not the projections are up to date. */
  lemma ConnectedItemsNoDuplicates<T>(items: seq<T>, pos: Position3, perspective: CamPerspective,
                                      projections: seq<Option<Position2>>)
    requires |projections| == |items| && NoDuplicates(items)
    ensures NoDuplicates(ConnectedItems(items, pos, perspective, projections))
  {
    ConnectionsInRange(pos, perspective, projections, 4);
    ConnectionsUpToDistinct(pos, perspective, projections, 4);
    SelectNoDuplicates(items, ExpectedConnections(pos, perspective, projections));
  }

  /** With projections up to date, among distinct items no connection list
      holds its own item or any item twice, and connection lists are
      symmetric. */
  lemma ConnectionListsSound<T>(items: seq<T>, positions: seq<Position3>, perspective: CamPerspective)
    requires |positions| == |items|
    requires NoDuplicates(items)
    ensures var ps := CurrentProjections(positions, perspective);
            forall t :: 0 <= t < |items| ==> items[t] !in ConnectedItems(items, positions[t], perspective, ps)
    ensures var ps := CurrentProjections(positions, perspective);
            forall i, t :: 0 <= i < |items| && 0 <= t < |items| && items[t] in ConnectedItems(items, positions[i], perspective, ps)
              ==> items[i] in ConnectedItems(items, positions[t], perspective, ps)
    ensures var ps := CurrentProjections(positions, perspective);
            forall t :: 0 <= t < |items| ==> NoDuplicates(ConnectedItems(items, positions[t], perspective, ps))
  {
    var ps := CurrentProjections(positions, perspective);
    forall t | 0 <= t < |items|
      ensures items[t] !in ConnectedItems(items, positions[t], perspective, ps)
    {
      ConnectedItemsExcludeSelf(items, positions, perspective, t);
    }
    forall t | 0 <= t < |items|
      ensures NoDuplicates(ConnectedItems(items, positions[t], perspective, ps))
    {
      ConnectedItemsNoDuplicates(items, positions[t], perspective, ps);
    }
    forall i, t | 0 <= i < |items| && 0 <= t < |items| && items[t] in ConnectedItems(items, positions[i], perspective, CurrentProjections(positions, perspective))
    {
      ConnectedItemsSymmetric(items, positions, perspective, i, t);
    }
  }

  /** One more stored projection extends the matches by its index when it
      equals the target. */
  lemma MatchesStep(target: Position2, projections: seq<Option<Position2>>, t: nat)
    requires t < |projections|
    ensures Matches(target, projections[..t + 1])
            == Matches(target, projections[..t]) + (if projections[t] == Some(target) then [t] else [])
  {
    assert projections[..t + 1][..t] == projections[..t];
  }

  /** Scanning one more stored projection appends its index, and the item
      there, exactly when the projection is the target. */
  lemma ScanStep<T>(items: seq<T>, projections: seq<Option<Position2>>, target: Position2, t: nat, found: seq<nat>)
    requires |projections| == |items| && t < |items|
    requires found == Matches(target, projections[..t]) && IndicesBelow(found, |items|)
    ensures projections[t] == Some(target) ==>
              && Matches(target, projections[..t + 1]) == found + [t]
              && IndicesBelow(found + [t], |items|)
              && Select(items, found + [t]) == Select(items, found) + [items[t]]
    ensures projections[t] != Some(target) ==> Matches(target, projections[..t + 1]) == found
  {
    MatchesStep(target, projections, t);
    if projections[t] == Some(target) {
      SelectAppend(items, found, [t]);
    }
  }

  /** Scanning the whole list for direction d's screen cell extends the
      connections of the directions before d by those of d. */
  lemma NextDirection<T>(items: seq<T>, pos: Position3, perspective: CamPerspective, projections: seq<Option<Position2>>,
                         d: int, front: seq<nat>, matched: seq<nat>)
    requires 0 <= d < 4 && |projections| == |items| && front == ConnectionsUpTo(pos, perspective, projections, d)
    requires IndicesBelow(front, |items|) && IndicesBelow(matched, |items|)
    requires matched == ConnectionsVia(pos, perspective, projections, d)
    ensures front + matched == ConnectionsUpTo(pos, perspective, projections, d + 1)
    ensures IndicesBelow(front + matched, |items|)
    ensures Select(items, front) + Select(items, matched) == Select(items, front + matched)
  {
    SelectAppend(items, front, matched);
  }

  class Grid {
    /** The cube the player stands on; null until set by the game. */
    var currentCube: Cube?
    /** Which cells of the 9 x 9 x 9 grid hold a cube. */
    var cubeArray: array3<bool>
    /** The registered cubes, in registration order. */
    var cubeList: seq<Cube>

    /** The registry is consistent: the occupancy array has the grid's size,
        every cube is registered once and belongs to this grid, and a cell is
        marked exactly when a registered cube stands in it. */
    ghost predicate Valid()
      reads this, cubeArray
    {
      && cubeArray.Length0 == GridSize && cubeArray.Length1 == GridSize && cubeArray.Length2 == GridSize
      && ListValid()
      && (forall x, y, z :: 0 <= x < GridSize && 0 <= y < GridSize && 0 <= z < GridSize ==>
            (cubeArray[x, y, z] <==> exists k :: 0 <= k < |cubeList| && cubeList[k].pos == Position3(x, y, z)))
    }

    /** The list part of Valid: every cube is registered once, belongs to
        this grid and stands inside it. */
    ghost predicate ListValid()
      reads this
    {
      && NoDuplicates(cubeList)
      && (forall k :: 0 <= k < |cubeList| ==> cubeList[k].grid == this && InGrid(cubeList[k].pos))
    }

    /** An empty grid: no cube registered, no cell marked, no current cube. */
    constructor ()
      ensures Valid()
      ensures fresh(cubeArray)
      ensures cubeList == [] && currentCube == null
    {
      currentCube := null;
      cubeArray := new bool[GridSize, GridSize, GridSize]((x, y, z) => false);
      cubeList := [];
    }

    /** The positions of the registered cubes, in list order. */
    function Positions(): (r: seq<Position3>)
      reads this
      ensures |r| == |cubeList|
      ensures forall t :: 0 <= t < |r| ==> r[t] == cubeList[t].pos
    {
      seq(|cubeList|, t requires 0 <= t < |cubeList| reads this => cubeList[t].pos)
    }

    /** The projections the registered cubes hold, in list order. */
    function Projections(): (r: seq<Option<Position2>>)
      reads this, cubeList
      ensures |r| == |cubeList|
      ensures forall t :: 0 <= t < |r| ==> r[t] == cubeList[t].projection
    {
      seq(|cubeList|, t requires 0 <= t < |cubeList| reads this, cubeList => cubeList[t].projection)
    }

    /** Recomputes every cube's projection, then every cube's connections,
        for a new camera perspective. Afterwards each cube's connections are
        the cubes standing on the screen cells of its four same-height
        neighbours; no cube is connected to itself, and connection is
        symmetric. */
    method UpdateConnectivityForAllCubes(perspective: CamPerspective)
      requires Valid()
      modifies cubeList
      ensures Valid() && unchanged(this, cubeArray)
      ensures Projections() == CurrentProjections(Positions(), perspective)
      ensures forall t :: 0 <= t < |cubeList| ==>
                cubeList[t].connections == ConnectedItems(cubeList, cubeList[t].pos, perspective, Projections())
      ensures forall t :: 0 <= t < |cubeList| ==>
                cubeList[t].connected == (old(cubeList[t].connected) || |cubeList[t].connections| > 0)
      ensures ConnectionsSound()
    {
      UpdateAllProjections(perspective);
      ghost var ps := Projections();
      UpdateAllConnectivities(perspective);
      assert Projections() == ps;
      SoundWhenCurrent(perspective);
    }

    /** No cube is connected to itself or listed twice by another cube, and
        connection is symmetric. */
    ghost predicate ConnectionsSound()
      reads this, cubeList
    {
      && (forall t :: 0 <= t < |cubeList| ==> cubeList[t] !in cubeList[t].connections)
      && (forall t :: 0 <= t < |cubeList| ==> NoDuplicates(cubeList[t].connections))
      && (forall i, t :: 0 <= i < |cubeList| && 0 <= t < |cubeList| && cubeList[t] in cubeList[i].connections ==>
            cubeList[i] in cubeList[t].connections)
    }

    /** Connection lists computed from up-to-date projections are sound. */
    lemma SoundWhenCurrent(perspective: CamPerspective)
      requires ListValid()
      requires Projections() == CurrentProjections(Positions(), perspective)
      requires forall t :: 0 <= t < |cubeList| ==>
                 cubeList[t].connections == ConnectedItems(cubeList, cubeList[t].pos, perspective, Projections())
      ensures ConnectionsSound()
    {
      ConnectionListsSound(cubeList, Positions(), perspective);
    }

    /** The first pass of UpdateConnectivityForAllCubes: every cube stores its
        projection under the new perspective. */
    method UpdateAllProjections(perspective: CamPerspective)
      requires ListValid()
      modifies cubeList
      ensures Projections() == CurrentProjections(Positions(), perspective)
      ensures forall t :: 0 <= t < |cubeList| ==>
                cubeList[t].connected == old(cubeList[t].connected) && cubeList[t].connections == old(cubeList[t].connections)
    {
      for k := 0 to |cubeList|
        invariant forall t :: 0 <= t < k ==> cubeList[t].projection == Some(Project(cubeList[t].pos, perspective))
        invariant forall t :: 0 <= t < |cubeList| ==>
                    cubeList[t].connected == old(cubeList[t].connected) && cubeList[t].connections == old(cubeList[t].connections)
      {
        cubeList[k].UpdateProjection(perspective);
      }
    }

    /** The second pass of UpdateConnectivityForAllCubes: every cube rebuilds
        its connections from the projections now stored. */
    method UpdateAllConnectivities(perspective: CamPerspective)
      requires ListValid()
      modifies cubeList
      ensures Projections() == old(Projections())
      ensures forall t :: 0 <= t < |cubeList| ==>
                cubeList[t].connections == ConnectedItems(cubeList, cubeList[t].pos, perspective, Projections())
      ensures forall t :: 0 <= t < |cubeList| ==>
                cubeList[t].connected == (old(cubeList[t].connected) || |cubeList[t].connections| > 0)
    {
      ghost var ps := Projections();
      for k := 0 to |cubeList|
        invariant forall t :: 0 <= t < |cubeList| ==> cubeList[t].projection == ps[t]
        invariant forall t :: 0 <= t < k ==>
                    && cubeList[t].connections == ConnectedItems(cubeList, cubeList[t].pos, perspective, ps)
                    && cubeList[t].connected == (old(cubeList[t].connected) || |cubeList[t].connections| > 0)
        invariant forall t :: k <= t < |cubeList| ==> cubeList[t].connected == old(cubeList[t].connected)
      {
        var cube := cubeList[k];
        assert forall t :: 0 <= t < |cubeList| && t != k ==> cubeList[t] != cube;
        assert cube.grid == this;
        assert Projections() == ps;
        cube.UpdateConnectivity(perspective);
        assert Projections() == ps;
      }
      assert Projections() == ps;
    }

    /** The lookup as written: the entries of the current cube's connection
        list at positions 0 to 3 are taken to be the neighbours in directions
        N, E, S, W. Fails when there is no current cube, or when the list has
        fewer entries than the directions tried. */
    method IsConnectedToCurrentCube(target: Cube) returns (r: Result<Option<PlaneDirection>, LookupFault>)
      ensures currentCube == null ==> r == Fault(NullCurrentCube)
      ensures currentCube != null ==> r == LookupByListPosition(currentCube.connections, target, 0)
    {
      if currentCube == null {
        return Fault(NullCurrentCube);
      }
      var connections := currentCube.connections;
      for d := 0 to |PlaneDirections|
        invariant LookupByListPosition(connections, target, d) == LookupByListPosition(connections, target, 0)
      {
        if d >= |connections| {
          return Fault(IndexOutOfRange);
        }
        if connections[d] == target {
          return Ok(Some(PlaneDirections[d]));
        }
      }
      return Ok(None);
    }

    /** The lookup as intended: for each direction N, E, S, W in turn, checks
        whether the target stands on the screen cell of the current cube's
        same-height neighbour in that direction, and answers the first such
        direction, or None. For a registered target this is the direction in
        which it is connected to the current cube. */
    method ConnectedDirectionToCurrentCube(perspective: CamPerspective, target: Cube)
      returns (r: Result<Option<PlaneDirection>, LookupFault>)
      ensures currentCube == null ==> r == Fault(NullCurrentCube)
      ensures currentCube != null ==> r.Ok?
      ensures currentCube != null ==> forall t :: 0 <= t < |cubeList| && cubeList[t] == target ==>
                r.value == ConnectedDirection(currentCube.pos, perspective, Projections(), t)
    {
      if currentCube == null {
        return Fault(NullCurrentCube);
      }
      var pos := currentCube.pos;
      for d := 0 to |PlaneDirections|
        invariant forall e :: 0 <= e < d ==> target.projection != Some(NeighbourProjection(pos, perspective, e))
      {
        CheckedCellIsNeighbourProjection(pos, perspective, d);
        var offset := PlaneDirections[d].pos.value;
        var projectionToCheck := Project(Position3(pos.x + offset.x, pos.y, pos.z + offset.z), perspective);
        if projectionToCheck.Equals(target.projection) {
          DirectionOfRegistered(perspective, target, d);
          return Ok(Some(PlaneDirections[d]));
        }
      }
      NoDirectionOfRegistered(perspective, target);
      return Ok(None);
    }

    /** A registered target standing on the cell of direction d is connected
        to the current cube via d. */
    lemma DirectionOfRegistered(perspective: CamPerspective, target: Cube, d: int)
      requires currentCube != null && 0 <= d < 4
      requires target.projection == Some(NeighbourProjection(currentCube.pos, perspective, d))
      ensures forall t :: 0 <= t < |cubeList| && cubeList[t] == target ==>
                ConnectedDirection(currentCube.pos, perspective, Projections(), t) == Some(PlaneDirections[d])
    {
      forall t | 0 <= t < |cubeList| && cubeList[t] == target
        ensures ConnectedDirection(currentCube.pos, perspective, Projections(), t) == Some(PlaneDirections[d])
      {
        assert t in ConnectionsVia(currentCube.pos, perspective, Projections(), d);
      }
    }

    /** A registered target standing on none of the four cells is not
        connected to the current cube. */
    lemma NoDirectionOfRegistered(perspective: CamPerspective, target: Cube)
      requires currentCube != null
      requires forall e :: 0 <= e < 4 ==> target.projection != Some(NeighbourProjection(currentCube.pos, perspective, e))
      ensures forall t :: 0 <= t < |cubeList| && cubeList[t] == target ==>
                ConnectedDirection(currentCube.pos, perspective, Projections(), t) == None
    {
      forall t | 0 <= t < |cubeList| && cubeList[t] == target
        ensures ConnectedDirection(currentCube.pos, perspective, Projections(), t) == None
      {
        ConnectionsUpToMembership(currentCube.pos, perspective, Projections(), 4, t);
      }
    }
  }

  class Cube {
    /** The grid the cube is registered with. */
    const grid: Grid
    /** The cube's cell. */
    const pos: Position3
    /** The screen position under the last perspective; None until the
        first update. */
    var projection: Option<Position2>
    /** Set once the cube has found a connection, and never reset. */
    var connected: bool
    /** The connected cubes, direction by direction (N, E, S, W), each
        direction's cubes in list order. */
    var connections: seq<Cube>

    /** Registers a cube placed at pos with its grid: marks the cell and
        appends the cube to the list. */
    constructor Awake(grid: Grid, pos: Position3)
      requires grid.Valid() && InGrid(pos)
      modifies grid, grid.cubeArray
      ensures this.grid == grid && this.pos == pos
      ensures projection == None && !connected && connections == []
      ensures grid.Valid()
      ensures grid.cubeList == old(grid.cubeList) + [this]
      ensures grid.cubeArray == old(grid.cubeArray) && grid.currentCube == old(grid.currentCube)
      ensures forall x, y, z :: 0 <= x < GridSize && 0 <= y < GridSize && 0 <= z < GridSize ==>
                grid.cubeArray[x, y, z] == (old(grid.cubeArray[x, y, z]) || Position3(x, y, z) == pos)
    {
      this.grid := grid;
      this.pos := pos;
      projection := None;
      connected := false;
      connections := [];
      new;
      ghost var before := grid.cubeList;
      grid.cubeArray[pos.x, pos.y, pos.z] := true;
      grid.cubeList := grid.cubeList + [this];
      forall x, y, z | 0 <= x < GridSize && 0 <= y < GridSize && 0 <= z < GridSize
        ensures grid.cubeArray[x, y, z] <==> exists k :: 0 <= k < |grid.cubeList| && grid.cubeList[k].pos == Position3(x, y, z)
      {
        if Position3(x, y, z) == pos {
          assert grid.cubeList[|before|].pos == pos;
        } else if k :| 0 <= k < |before| && before[k].pos == Position3(x, y, z) {
          assert grid.cubeList[k] == before[k];
        }
      }
    }

    /** Stores the cube's screen position under the given perspective. */
    method UpdateProjection(perspective: CamPerspective)
      modifies this`projection
      ensures projection == Some(Project(pos, perspective))
    {
      projection := Some(Project(pos, perspective));
    }

    /** Rebuilds the connection list from the projections the grid's cubes
        hold: for each direction N, E, S, W, every cube whose projection is
        the screen cell of the same-height neighbour in that direction. */
    method UpdateConnectivity(perspective: CamPerspective)
      modifies this`connections, this`connected
      ensures connections == ConnectedItems(grid.cubeList, pos, perspective, grid.Projections())
      ensures connected == (old(connected) || |connections| > 0)
    {
      ghost var ps := grid.Projections();
      var cubes := grid.cubeList;
      ghost var found: seq<nat> := [];
      connections := [];
      for d := 0 to |PlaneDirections|
        invariant forall t :: 0 <= t < |cubes| ==> cubes[t].projection == ps[t]
        invariant found == ConnectionsUpTo(pos, perspective, ps, d)
        invariant IndicesBelow(found, |cubes|) && connections == Select(cubes, found)
        invariant connected == (old(connected) || |found| > 0)
      {
        ConnectDirection(perspective, d, cubes, ps);
        NextDirection(cubes, pos, perspective, ps, d, found, ConnectionsVia(pos, perspective, ps, d));
        found := found + ConnectionsVia(pos, perspective, ps, d);
      }
      assert found == ExpectedConnections(pos, perspective, ps);
      assert grid.Projections() == ps;
    }

    /** The body of UpdateConnectivity's loop for direction d: computes the
        screen cell of the same-height neighbour in that direction and
        appends the cubes standing on it. */
    method ConnectDirection(perspective: CamPerspective, d: int, cubes: seq<Cube>, ghost ps: seq<Option<Position2>>)
      requires 0 <= d < |PlaneDirections|
      requires |ps| == |cubes| && forall t :: 0 <= t < |cubes| ==> cubes[t].projection == ps[t]
      modifies this`connections, this`connected
      ensures IndicesBelow(ConnectionsVia(pos, perspective, ps, d), |cubes|)
      ensures connections == old(connections) + Select(cubes, ConnectionsVia(pos, perspective, ps, d))
      ensures connected == (old(connected) || |ConnectionsVia(pos, perspective, ps, d)| > 0)
    {
      CheckedCellIsNeighbourProjection(pos, perspective, d);
      var offset := PlaneDirections[d].pos.value;
      var projectionToCheck := Project(Position3(pos.x + offset.x, pos.y, pos.z + offset.z), perspective);
      ConnectCubesProjectingOn(projectionToCheck, cubes, ps);
    }

    /** One pass over the cube list: appends, in list order, every cube whose
        stored projection is projectionToCheck, and marks the cube connected
        when one is found. */
    method ConnectCubesProjectingOn(projectionToCheck: Position2, cubes: seq<Cube>, ghost ps: seq<Option<Position2>>)
      requires |ps| == |cubes| && forall t :: 0 <= t < |cubes| ==> cubes[t].projection == ps[t]
      modifies this`connections, this`connected
      ensures IndicesBelow(Matches(projectionToCheck, ps), |cubes|)
      ensures connections == old(connections) + Select(cubes, Matches(projectionToCheck, ps))
      ensures connected == (old(connected) || |Matches(projectionToCheck, ps)| > 0)
    {
      ghost var found: seq<nat> := [];
      for t := 0 to |cubes|
        invariant found == Matches(projectionToCheck, ps[..t]) && IndicesBelow(found, |cubes|)
        invariant connections == old(connections) + Select(cubes, found)
        invariant connected == (old(connected) || |found| > 0)
      {
        var cube := cubes[t];
        ScanStep(cubes, ps, projectionToCheck, t, found);
        if projectionToCheck.Equals(cube.projection) {
          connections := connections + [cube];
          connected := true;
          found := found + [t];
        }
      }
      assert ps[..|cubes|] == ps;
    }
  }

}
