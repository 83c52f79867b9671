/** Isometric geometry of the puzzle grid: grid and screen positions, the
    four camera perspectives, the plane directions, the projection of a grid
    cell onto the screen and its inverse at a chosen height, and the fixed
    occlusion table (Direction.cs). */
module Direction {
  import opened Wrappers

  /** A screen position: the (x, z) footprint a cell projects to. */
  datatype Position2 = Position2(x: int, z: int) {

    /** Value equality; a missing (null) position is never equal. */
    function Equals(other: Option<Position2>): (r: bool)
      ensures r <==> other == Some(this)
    {
      other.Some? && x == other.value.x && z == other.value.z
    }
  }

  /** A grid position; y is the height axis. */
  datatype Position3 = Position3(x: int, y: int, z: int) {

    /** Value equality on all three coordinates; null is never equal. */
    function Equals(other: Option<Position3>): (r: bool)
      ensures r <==> other == Some(this)
    {
      other.Some? && x == other.value.x && y == other.value.y && z == other.value.z
    }
  }

  // Perspective ids (CamPerspective constants).
  const PerspectiveSouthEast: int := 0
  const PerspectiveSouthWest: int := 1
  const PerspectiveNorthWest: int := 2
  const PerspectiveNorthEast: int := 3

  // Plane direction ids (PlaneDirection constants): cardinals first, then diagonals.
  const DirectionNorth: int := 0
  const DirectionEast: int := 1
  const DirectionSouth: int := 2
  const DirectionWest: int := 3
  const DirectionSouthEast: int := 4
  const DirectionSouthWest: int := 5
  const DirectionNorthWest: int := 6
  const DirectionNorthEast: int := 7

  /** A direction in the (x, z) plane with its unit offset; an id outside
      0..7 leaves the offset unset (null). */
  datatype PlaneDirection = PlaneDirection(id: int, pos: Option<Position2>)

  /** The PlaneDirection constructor: the offset table for the eight ids. */
  function NewPlaneDirection(id: int): (d: PlaneDirection)
    ensures d.id == id
    ensures d.pos.Some? <==> 0 <= id < 8
    ensures d.pos.Some? ==> -1 <= d.pos.value.x <= 1 && -1 <= d.pos.value.z <= 1
    ensures d.pos.Some? ==> d.pos.value != Position2(0, 0)
    // the four cardinal directions move along exactly one axis, the diagonals along both
    ensures d.pos.Some? ==> (id < 4 <==> d.pos.value.x == 0 || d.pos.value.z == 0)
  {
    var offset :=
      if id == DirectionNorth then Some(Position2(0, 1))
      else if id == DirectionNorthEast then Some(Position2(1, 1))
      else if id == DirectionEast then Some(Position2(1, 0))
      else if id == DirectionSouthEast then Some(Position2(1, -1))
      else if id == DirectionSouth then Some(Position2(0, -1))
      else if id == DirectionSouthWest then Some(Position2(-1, -1))
      else if id == DirectionWest then Some(Position2(-1, 0))
      else if id == DirectionNorthWest then Some(Position2(-1, 1))
      else None;
    PlaneDirection(id, offset)
  }

  /** The four cardinal directions, in the order N, E, S, W. */
  const PlaneDirections: seq<PlaneDirection> :=
    [NewPlaneDirection(DirectionNorth), NewPlaneDirection(DirectionEast),
     NewPlaneDirection(DirectionSouth), NewPlaneDirection(DirectionWest)]

  /** The cardinal offset at position d of PlaneDirections. */
  function CardinalOffset(d: int): Position2
    requires 0 <= d < 4
  {
    NewPlaneDirection(d).pos.value
  }

  /** The cardinal direction opposite to d (N-S, E-W). */
  function Opposite(d: int): (e: int)
    requires 0 <= d < 4
    ensures 0 <= e < 4 && e != d
  {
    (d + 2) % 4
  }

  /** A camera perspective: its id, its yaw angle in degrees and the plane
      direction the camera looks along. */
  datatype CamPerspective = CamPerspective(id: int, angle: int, viewDirection: Option<PlaneDirection>)

  /** The CamPerspective constructor: ids 0..3 get angle 45 + 90 * id and look
      towards the opposite diagonal; any other id keeps C#'s default field
      values (angle 0, no view direction). */
  function NewCamPerspective(id: int): (p: CamPerspective)
    ensures p.id == id
    ensures 0 <= id < 4 ==> p.angle == 45 + 90 * id
    ensures 0 <= id < 4 ==> p.viewDirection == Some(NewPlaneDirection(DirectionSouthEast + (id + 2) % 4))
    ensures !(0 <= id < 4) ==> p.angle == 0 && p.viewDirection == None
  {
    if id == PerspectiveSouthEast then CamPerspective(id, 45, Some(NewPlaneDirection(DirectionNorthWest)))
    else if id == PerspectiveSouthWest then CamPerspective(id, 135, Some(NewPlaneDirection(DirectionNorthEast)))
    else if id == PerspectiveNorthWest then CamPerspective(id, 225, Some(NewPlaneDirection(DirectionSouthEast)))
    else if id == PerspectiveNorthEast then CamPerspective(id, 315, Some(NewPlaneDirection(DirectionSouthWest)))
    else CamPerspective(id, 0, None)
  }

  /** The four perspectives, in the order SE, SW, NW, NE. */
  const PerspectiveDirections: seq<CamPerspective> :=
    [NewCamPerspective(PerspectiveSouthEast), NewCamPerspective(PerspectiveSouthWest),
     NewCamPerspective(PerspectiveNorthWest), NewCamPerspective(PerspectiveNorthEast)]

  /** The view offset of perspective k of PerspectiveDirections. */
  function ViewOffset(k: int): Position2
    requires 0 <= k < 4
  {
    PerspectiveDirections[k].viewDirection.value.pos.value
  }

  /** The screen position of a grid position: the height shears the (x, z)
      footprint. Only the perspective id is read; any id other than SE, SW
      and NW is treated as NE. */
  function Project(pos: Position3, perspective: CamPerspective): (r: Position2)
    // the ground layer is drawn at its own footprint
    ensures pos.y == 0 ==> r == Position2(pos.x, pos.z)
    // each screen coordinate is displaced from the footprint by the height
    ensures r.x - pos.x == pos.y || r.x - pos.x == -pos.y
    ensures r.z - pos.z == pos.y || r.z - pos.z == -pos.y
  {
    match perspective.id
    case 0 => Position2(pos.x - pos.y, pos.z + pos.y)
    case 1 => Position2(pos.x + pos.y, pos.z + pos.y)
    case 2 => Position2(pos.x + pos.y, pos.z - pos.y)
    case _ => Position2(pos.x - pos.y, pos.z - pos.y)
  }

  /** The position at height y that projects to the same screen position as
      pos: the shear of the height difference is undone. */
  function GetShiftToHeigh(pos: Position3, perspective: CamPerspective, y: int): (r: Position3)
    ensures r.y == y
    ensures Project(r, perspective) == Project(pos, perspective)
    ensures y == pos.y ==> r == pos
  {
    var diff := pos.y - y;
    match perspective.id
    case 0 => Position3(pos.x - diff, y, pos.z + diff)
    case 1 => Position3(pos.x + diff, y, pos.z + diff)
    case 2 => Position3(pos.x + diff, y, pos.z - diff)
    case _ => Position3(pos.x - diff, y, pos.z - diff)
  }

  /** All shifts of pos to the heights fromY, fromY + 1, ..., toY - 1, in
      that order. */
  method GetAllShiftsToHeigh(pos: Position3, perspective: CamPerspective, fromY: int, toY: int)
    returns (shifts: seq<Position3>)
    ensures |shifts| == if toY <= fromY then 0 else toY - fromY
    ensures forall i :: 0 <= i < |shifts| ==> shifts[i] == GetShiftToHeigh(pos, perspective, fromY + i)
    ensures forall i :: 0 <= i < |shifts| ==> shifts[i].y == fromY + i
    // exactly the positions in the height range that share pos's screen position
    ensures forall q :: q in shifts <==> fromY <= q.y < toY && Project(q, perspective) == Project(pos, perspective)
  {
    shifts := [];
    var y := fromY;
    while y < toY
      invariant fromY <= y && (y <= toY || y == fromY)
      invariant |shifts| == y - fromY
      invariant forall i :: 0 <= i < |shifts| ==> shifts[i] == GetShiftToHeigh(pos, perspective, fromY + i)
    {
      shifts := shifts + [GetShiftToHeigh(pos, perspective, y)];
      y := y + 1;
    }
    forall q
      ensures q in shifts <==> fromY <= q.y < toY && Project(q, perspective) == Project(pos, perspective)
    {
      if fromY <= q.y < toY && Project(q, perspective) == Project(pos, perspective) {
        SameProjectionIsShift(q, pos, perspective);
        assert shifts[q.y - fromY] == q;
      }
    }
  }

  /** Two positions share a screen position exactly when one is the shift of
      the other to its height. */
  lemma SameProjectionIsShift(a: Position3, b: Position3, perspective: CamPerspective)
    ensures Project(a, perspective) == Project(b, perspective) <==> a == GetShiftToHeigh(b, perspective, a.y)
  {
  }

  /** Moving a position within its own height moves its projection by the
      same offset, under every perspective. */
  lemma ProjectTranslates(pos: Position3, perspective: CamPerspective, dx: int, dz: int)
    ensures Project(Position3(pos.x + dx, pos.y, pos.z + dz), perspective)
            == Position2(Project(pos, perspective).x + dx, Project(pos, perspective).z + dz)
  {
  }

  /** At one height the projection is injective. */
  lemma ProjectInjectiveAtHeight(a: Position3, b: Position3, perspective: CamPerspective)
    requires a.y == b.y
    ensures Project(a, perspective) == Project(b, perspective) <==> a == b
  {
  }

  /** For the four perspectives of the table, the projection shears the
      footprint by the height along the perspective's view direction. */
  lemma ProjectAlongViewDirection(pos: Position3, k: int)
    requires 0 <= k < 4
    ensures Project(pos, PerspectiveDirections[k])
            == Position2(pos.x + pos.y * ViewOffset(k).x, pos.z + pos.y * ViewOffset(k).z)
  {
  }

  /** Every perspective id outside SE, SW, NW projects and shifts as NE does. */
  lemma UnknownPerspectiveActsAsNorthEast(pos: Position3, perspective: CamPerspective, y: int)
    requires perspective.id !in {PerspectiveSouthEast, PerspectiveSouthWest, PerspectiveNorthWest}
    ensures Project(pos, perspective) == Project(pos, NewCamPerspective(PerspectiveNorthEast))
    ensures GetShiftToHeigh(pos, perspective, y) == GetShiftToHeigh(pos, NewCamPerspective(PerspectiveNorthEast), y)
  {
  }

  /** The cardinal table holds N, E, S, W in that order, each at the
      position given by its id, with offsets (0, 1), (1, 0), (0, -1), (-1, 0). */
  lemma PlaneDirectionsTable(d: int)
    requires 0 <= d < |PlaneDirections|
    ensures PlaneDirections[d].id == d && PlaneDirections[d].pos == Some(CardinalOffset(d))
    ensures CardinalOffset(d) == [Position2(0, 1), Position2(1, 0), Position2(0, -1), Position2(-1, 0)][d]
  {
  }

  /** Opposite cardinal offsets cancel. */
  lemma OppositeOffsetsCancel(d: int)
    requires 0 <= d < 4
    ensures CardinalOffset(d).x + CardinalOffset(Opposite(d)).x == 0
    ensures CardinalOffset(d).z + CardinalOffset(Opposite(d)).z == 0
  {
  }

  /** Distinct cardinal directions have distinct offsets. */
  lemma CardinalOffsetsDistinct(d: int, e: int)
    requires 0 <= d < 4 && 0 <= e < 4
    ensures CardinalOffset(d) == CardinalOffset(e) <==> d == e
  {
  }

  /** Each diagonal offset is the sum of the offsets of its two cardinal
      components (SE = S + E, SW = S + W, NW = N + W, NE = N + E). */
  lemma DiagonalIsSumOfCardinals()
    ensures NewPlaneDirection(DirectionSouthEast).pos
            == Some(Position2(CardinalOffset(DirectionSouth).x + CardinalOffset(DirectionEast).x,
                              CardinalOffset(DirectionSouth).z + CardinalOffset(DirectionEast).z))
    ensures NewPlaneDirection(DirectionSouthWest).pos
            == Some(Position2(CardinalOffset(DirectionSouth).x + CardinalOffset(DirectionWest).x,
                              CardinalOffset(DirectionSouth).z + CardinalOffset(DirectionWest).z))
    ensures NewPlaneDirection(DirectionNorthWest).pos
            == Some(Position2(CardinalOffset(DirectionNorth).x + CardinalOffset(DirectionWest).x,
                              CardinalOffset(DirectionNorth).z + CardinalOffset(DirectionWest).z))
    ensures NewPlaneDirection(DirectionNorthEast).pos
            == Some(Position2(CardinalOffset(DirectionNorth).x + CardinalOffset(DirectionEast).x,
                              CardinalOffset(DirectionNorth).z + CardinalOffset(DirectionEast).z))
  {
  }

  /** The perspective table holds SE, SW, NW, NE at the position given by
      their id, with angles 45, 135, 225, 315, each looking along the
      diagonal opposite to the corner it stands at: SE looks NW, SW looks NE,
      NW looks SE, NE looks SW. */
  lemma PerspectiveDirectionsTable(k: int)
    requires 0 <= k < |PerspectiveDirections|
    ensures PerspectiveDirections[k].id == k
    ensures PerspectiveDirections[k].angle == [45, 135, 225, 315][k]
    ensures PerspectiveDirections[k].viewDirection.Some?
    ensures PerspectiveDirections[k].viewDirection.value.id
            == [DirectionNorthWest, DirectionNorthEast, DirectionSouthEast, DirectionSouthWest][k]
    ensures var corner := NewPlaneDirection(DirectionSouthEast + k).pos.value;
            ViewOffset(k) == Position2(-corner.x, -corner.z)
  {
  }

  /** OccludedWhenHeigher[perspective][direction], perspectives in the order
      SE, SW, NW, NE and directions in the order N, E, S, W: whether a
      neighbour candidate in that direction is hidden when it is higher than
      the cell (true) or when it is lower (false). */
  const OccludedWhenHeigher: seq<seq<bool>> :=
    [[true, false, false, true],
     [true, true, false, false],
     [false, true, true, false],
     [false, false, true, true]]

  /** The occlusion table is total over the 4 x 4 combinations, and an entry
      is true exactly when the direction has a component along the
      perspective's view direction. */
  lemma OcclusionFollowsViewDirection(k: int, d: int)
    requires 0 <= k < 4 && 0 <= d < 4
    ensures |OccludedWhenHeigher| == 4 && |OccludedWhenHeigher[k]| == 4
    ensures OccludedWhenHeigher[k][d]
            <==> ViewOffset(k).x * CardinalOffset(d).x + ViewOffset(k).z * CardinalOffset(d).z > 0
  {
  }

  /** In every row, opposite directions have opposite entries. */
  lemma {:induction false} OcclusionOppositeDirections(k: int, d: int)
    requires 0 <= k < 4 && 0 <= d < 4
    ensures OccludedWhenHeigher[k][d] != OccludedWhenHeigher[k][Opposite(d)]
  {
    OcclusionFollowsViewDirection(k, d);
    OcclusionFollowsViewDirection(k, Opposite(d));
    OppositeOffsetsCancel(d);
  }

  /** The distance between the angle of a perspective and an angle, in
      degrees, without wrap-around at 360. */
  function AngleDistance(perspective: CamPerspective, angle: int): (r: nat)
    ensures r == 0 <==> perspective.angle == angle
  {
    if perspective.angle >= angle then perspective.angle - angle else angle - perspective.angle
  }

  /** The id of the closest perspective to an angle, by ranges: the
      boundaries 90, 180 and 270 fall to the earlier perspective. */
  function ClosestPerspectiveId(angle: int): (k: int)
    ensures 0 <= k < 4
  {
    if angle <= 90 then PerspectiveSouthEast
    else if angle <= 180 then PerspectiveSouthWest
    else if angle <= 270 then PerspectiveNorthWest
    else PerspectiveNorthEast
  }

  /** The range definition picks the first perspective of minimal distance. */
  lemma ClosestPerspectiveIdIsFirstMinimum(angle: int)
    ensures forall k :: 0 <= k < 4 ==>
              AngleDistance(PerspectiveDirections[ClosestPerspectiveId(angle)], angle)
              <= AngleDistance(PerspectiveDirections[k], angle)
    ensures forall k :: 0 <= k < ClosestPerspectiveId(angle) ==>
              AngleDistance(PerspectiveDirections[ClosestPerspectiveId(angle)], angle)
              < AngleDistance(PerspectiveDirections[k], angle)
  {
    forall k | 0 <= k < 4
      ensures PerspectiveDirections[k].angle == 45 + 90 * k
    {
      PerspectiveDirectionsTable(k);
    }
  }

  /** The perspective whose angle is closest to the (already truncated)
      camera angle; on a tie the earlier one in SE, SW, NW, NE order wins. */
  method GetClosestPerspective(angle: int) returns (best: CamPerspective)
    ensures best.id == ClosestPerspectiveId(angle) && best == PerspectiveDirections[best.id]
    ensures forall k :: 0 <= k < |PerspectiveDirections| ==>
              AngleDistance(best, angle) <= AngleDistance(PerspectiveDirections[k], angle)
    ensures forall k :: 0 <= k < best.id ==>
              AngleDistance(best, angle) < AngleDistance(PerspectiveDirections[k], angle)
  {
    // None stands for the initial float.MaxValue, which exceeds every distance
    var bestPers: Option<CamPerspective> := None;
    var bestDist: int := 0;
    var bestIndex: int := 0;
    for i := 0 to |PerspectiveDirections|
      invariant bestPers.None? <==> i == 0
      invariant 0 <= bestIndex <= i
      invariant bestPers.Some? ==> bestIndex < i && bestPers.value == PerspectiveDirections[bestIndex]
      invariant bestPers.Some? ==> bestDist == AngleDistance(bestPers.value, angle)
      invariant forall k :: 0 <= k < i ==> bestDist <= AngleDistance(PerspectiveDirections[k], angle)
      invariant forall k :: 0 <= k < bestIndex ==> bestDist < AngleDistance(PerspectiveDirections[k], angle)
    {
      var pers := PerspectiveDirections[i];
      if bestPers.None? || AngleDistance(pers, angle) < bestDist {
        bestDist := AngleDistance(pers, angle);
        bestPers := Some(pers);
        bestIndex := i;
      }
    }
    best := bestPers.value;
    PerspectiveDirectionsTable(bestIndex);
    ClosestPerspectiveIdIsFirstMinimum(angle);
  }
}
