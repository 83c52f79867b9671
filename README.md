# Isometric connectivity and pathfinding, in Dafny

This project models the logical core of an isometric puzzle game. The game
shows a 9 x 9 x 9 voxel grid through one of four fixed camera perspectives
(SE, SW, NW, NE). Two cubes are connected when the screen cell of one cube's
same-height neighbour is where the other cube is drawn. Rotating the camera
therefore changes which cubes are connected. The model covers:

- `Direction` (`direction.dfy`, Direction.cs): screen and grid positions and
  their equality, the projection of a grid position to the screen, the shift
  of a position to another height that keeps its screen position, the
  perspective and plane-direction tables, the occlusion table, and the choice
  of the perspective closest to a camera angle.
- `Pathfinding` (`pathfinding.dfy`, Pathfinding.cs): Floyd-Warshall with
  successors over the grid's adjacency matrix. It is specified by the
  relaxation recurrence (`Dist`, `Succ`). The model proves that the costs are
  shortest walk lengths, and that following successors walks a shortest path.
- `Connectivity` (`connectivity.dfy`): what a cube's connection list is, as a
  value, and its properties when all projections are current:
  - no cube is connected to itself;
  - no index is listed twice;
  - connection is symmetric;
  - the lookup of the direction in which a cube is connected.
- `Scene` (`scene.dfy`, CubeScript.cs and GridScript.cs): the `Grid` class
  (current cube, occupancy array, cube list) and the `Cube` class (position,
  projection, connected flag, connection list). Their methods update these
  fields in place, as the scripts do.
- `Wrappers` (`wrappers.dfy`): `Option` and `Result`. C#'s `null` is `None`,
  and an exception is a `Fault`.

Several source loops are split into helper methods so that each proof stays
small. Each helper keeps the source's loop:
- `Grid.UpdateAllProjections` and `Grid.UpdateAllConnectivities` are the two
  loops of `UpdateConnectivityForAllCubes`.
- `Cube.ConnectDirection` and `Cube.ConnectCubesProjectingOn` are the body of
  `UpdateConnectivity`'s direction loop and its inner loop over the cube list.
- `InitializeCostsAndSuccessors`, `RelaxThroughNode` and `RelaxRow` are the
  initialisation loops and the `k` and `i` loops of `FloydWarshallSuccessors`.

What `UpdateConnectivity` computes, as these scripts write it:
- It considers only the perspective passed in.
- It keeps every match of a direction, not one neighbour per direction.
- It stores one flat list, ordered by direction and then by cube-list
  order.
- Nothing in these scripts reads `OccludedWhenHeigher`, so the model keeps
  that table as data and proves its geometric meaning.

## Model

| member | source | states |
|---|---|---|
| Direction.Position2.Equals | Project/Assets/Scripts/Direction.cs:62-69 | equal exactly to a present position with the same x and z; null is never equal |
| Direction.Position3.Equals | Project/Assets/Scripts/Direction.cs:21-37 | equal exactly to a present position with the same x, y and z; null is never equal |
| Direction.NewPlaneDirection | Project/Assets/Scripts/Direction.cs:220-251 | ids 0..7 get a non-zero unit offset, cardinals along one axis and diagonals along both; other ids keep the offset unset |
| Direction.PlaneDirectionsTable | Project/Assets/Scripts/Direction.cs:196-202 | the cardinal table is N, E, S, W at the index given by their id, with offsets (0,1), (1,0), (0,-1), (-1,0) |
| Direction.OppositeOffsetsCancel | Project/Assets/Scripts/Direction.cs:220-251 | offsets of opposite cardinal directions sum to (0, 0) |
| Direction.CardinalOffsetsDistinct | Project/Assets/Scripts/Direction.cs:220-251 | two cardinal directions have the same offset only if they are the same direction |
| Direction.DiagonalIsSumOfCardinals | Project/Assets/Scripts/Direction.cs:220-251 | each diagonal offset is the sum of its two cardinal components |
| Direction.NewCamPerspective | Project/Assets/Scripts/Direction.cs:171-193 | ids 0..3 get angle 45 + 90 * id and look along the opposite diagonal; other ids keep angle 0 and no view direction |
| Direction.PerspectiveDirectionsTable | Project/Assets/Scripts/Direction.cs:135-141 | the perspective table is SE, SW, NW, NE at the index given by their id, with angles 45/135/225/315 and view directions NW/NE/SE/SW, each opposite its corner |
| Direction.Project | Project/Assets/Scripts/Direction.cs:74-88 | the ground layer projects to its own footprint, and each screen coordinate is displaced from the footprint by exactly the height, one way or the other (the direction of the shear per perspective is stated by ProjectAlongViewDirection) |
| Direction.ProjectTranslates | Project/Assets/Scripts/Direction.cs:74-88 | moving a position within its height moves its projection by the same (dx, dz), under every perspective |
| Direction.ProjectInjectiveAtHeight | Project/Assets/Scripts/Direction.cs:74-88 | at one height, two positions share a projection only if they are equal |
| Direction.ProjectAlongViewDirection | Project/Assets/Scripts/Direction.cs:74-88 | each table perspective shears the footprint by the height along its view direction |
| Direction.UnknownPerspectiveActsAsNorthEast | Project/Assets/Scripts/Direction.cs:74-105 | any id other than SE, SW, NW projects and shifts exactly as NE (the default branch) |
| Direction.GetShiftToHeigh | Project/Assets/Scripts/Direction.cs:90-105 | the shift is at the target height, projects where the original does, and is the original when the height is its own |
| Direction.SameProjectionIsShift | Project/Assets/Scripts/Direction.cs:74-105 | two positions share a projection if and only if one is the shift of the other to its height |
| Direction.GetAllShiftsToHeigh | Project/Assets/Scripts/Direction.cs:107-114 | max(0, toY - fromY) entries; entry i is the shift to height fromY + i; the list holds exactly the positions in the height range that project where pos does |
| Direction.OcclusionFollowsViewDirection | Project/Assets/Scripts/Direction.cs:117-132 | the 4 x 4 table is true exactly where the direction has a positive component along the perspective's view direction |
| Direction.OcclusionOppositeDirections | Project/Assets/Scripts/Direction.cs:128-132 | in every row, N and S, and E and W, have opposite entries |
| Direction.AngleDistance | Project/Assets/Scripts/Direction.cs:149 | the distance between a perspective's angle and the angle is zero exactly when they are equal |
| Direction.ClosestPerspectiveIdIsFirstMinimum | Project/Assets/Scripts/Direction.cs:143-157 | the range definition picks a perspective of minimal distance, strictly closer than every earlier one |
| Direction.GetClosestPerspective | Project/Assets/Scripts/Direction.cs:143-157 | never null; returns the table entry at minimal distance, the first in SE, SW, NW, NE order on a tie, with no wrap-around at 360 |
| Pathfinding.Wrap32 | Project/Assets/Scripts/Pathfinding.cs:55 | the result is a 32-bit value and equals the input whenever the input fits |
| Pathfinding.AddCosts | Project/Assets/Scripts/Pathfinding.cs:51-56 | MaxInt if either cost is MaxInt, otherwise the sum when it fits in 32 bits |
| Pathfinding.Dist | Project/Assets/Scripts/Pathfinding.cs:24-47 | every cost after k rounds lies in 0..MaxInt, and the diagonal costs 0 |
| Pathfinding.RoundKeepsPivotRowAndColumn | Project/Assets/Scripts/Pathfinding.cs:37-47 | round k never improves row k or column k, so their costs and successors stay as they are |
| Pathfinding.RelaxationNeverRaisesCost | Project/Assets/Scripts/Pathfinding.cs:40-44 | costs never increase, and a successor changes only with a strict drop of its cost |
| Pathfinding.DiagonalUnchanged | Project/Assets/Scripts/Pathfinding.cs:24-47 | the diagonal keeps cost 0 and its input successor through every round |
| Pathfinding.UnreachableKeepsInput | Project/Assets/Scripts/Pathfinding.cs:29-44 | a pair left at MaxInt keeps its input successor, which is -1 |
| Pathfinding.DistLowerBound | Project/Assets/Scripts/Pathfinding.cs:37-47 | after k rounds a cost is at most the length of any walk whose inner nodes are below k |
| Pathfinding.DistWitness | Project/Assets/Scripts/Pathfinding.cs:37-47 | every finite cost after k rounds is the length of a walk whose inner nodes are below k |
| Pathfinding.DistBounded | Project/Assets/Scripts/Pathfinding.cs:40 | every finite cost is below the number of nodes, so addCosts never wraps |
| Pathfinding.CostIsShortestPath | Project/Assets/Scripts/Pathfinding.cs:37-47 | the final cost is the number of edges of a shortest walk, and MaxInt exactly when there is no walk |
| Pathfinding.SuccessorStep | Project/Assets/Scripts/Pathfinding.cs:43 | for grid-shaped input, the successor of a reachable pair is a direct neighbour with a walk to the goal one edge shorter |
| Pathfinding.SuccessorOnShortestPath | Project/Assets/Scripts/Pathfinding.cs:43 | the final successor s of a reachable pair (i, j), i != j, is an edge i -> s, and the cost from s is one less |
| Pathfinding.SuccessorWalk | Project/Assets/Scripts/Pathfinding.cs:37-47 | repeatedly following successors towards j yields a walk to j of exactly the shortest length |
| Pathfinding.RelaxStep | Project/Assets/Scripts/Pathfinding.cs:40-44 | one step as the engine computes it: the pair takes the addCosts sum and the successor towards k exactly on a strict improvement |
| Pathfinding.InitializeCostsAndSuccessors | Project/Assets/Scripts/Pathfinding.cs:24-36 | successors copied from the input; costs 0 on the diagonal, 1 for an edge, MaxInt otherwise |
| Pathfinding.RelaxThroughNode | Project/Assets/Scripts/Pathfinding.cs:38-46 | after round k every entry is the recurrence's value after k + 1 rounds |
| Pathfinding.RelaxRow | Project/Assets/Scripts/Pathfinding.cs:39-45 | row i takes its value after round k, and the other rows are unchanged |
| Pathfinding.FloydWarshallSuccessors | Project/Assets/Scripts/Pathfinding.cs:19-49 | new n x n matrices, input unchanged; every cost is the shortest walk length (MaxInt when none), every successor the recurrence's |
| Pathfinding.ChainExample | Project/Assets/Scripts/Pathfinding.cs:19-49 | on edges 0 -> 1 -> 2 with node 3 isolated: successor(0,2) = 1 at cost 2; successor(0,3) = -1 at cost MaxInt |
| Connectivity.NeighbourProjection | Project/Assets/Scripts/CubeScript.cs:59-62 | the cell checked in direction d is the cube's own projection moved by d's offset |
| Connectivity.CheckedCellIsNeighbourProjection | Project/Assets/Scripts/CubeScript.cs:59-62 | the cell computed from the direction table is the neighbour projection of that direction |
| Connectivity.Matches | Project/Assets/Scripts/CubeScript.cs:64-69 | an index is matched exactly when the projection stored there equals the target |
| Connectivity.MatchesIncreasing | Project/Assets/Scripts/CubeScript.cs:64-68 | matches come in strictly increasing list order |
| Connectivity.ConnectionsUpToMembership | Project/Assets/Scripts/CubeScript.cs:56-78 | an index is in the list exactly when its stored projection is the neighbour projection of one of the directions scanned |
| Connectivity.ConnectedIffShiftOfNeighbour | Project/Assets/Scripts/CubeScript.cs:59-66 | with current projections, a cube is connected via d exactly when it is the shift, to its own height, of the same-height neighbour in d |
| Connectivity.NoSelfConnection | Project/Assets/Scripts/CubeScript.cs:56-78 | with current projections, no cube is in its own connection list |
| Connectivity.DirectionsMatchDisjointly | Project/Assets/Scripts/CubeScript.cs:59-68 | a stored projection never matches two different directions |
| Connectivity.ConnectionsUpToDistinct | Project/Assets/Scripts/CubeScript.cs:56-78 | a connection list never holds the same index twice |
| Connectivity.ConnectionSymmetric | Project/Assets/Scripts/CubeScript.cs:59-68 | with current projections, if B is connected to A via d then A is connected to B via the opposite of d |
| Connectivity.LookupByListPosition | Project/Assets/Scripts/GridScript.cs:26-36 | the lookup as written: the first of positions 0..3 of the list holding the target, labelled with the direction of that id; None if none does; IndexOutOfRange once a position past a list shorter than 4 is reached |
| Connectivity.DirectionFrom | Project/Assets/Scripts/GridScript.cs:26-36 | the answer is direction e exactly when the target is matched via e, and None exactly when it is matched via none |
| Connectivity.ConnectedDirection | Project/Assets/Scripts/GridScript.cs:26-36 | the intended lookup: direction d exactly when the target is connected via d, None exactly when it is not connected |
| Connectivity.ConnectedDirectionSymmetric | Project/Assets/Scripts/GridScript.cs:26-36 | with current projections, the direction from B to A is the opposite of the direction from A to B |
| Connectivity.ExampleConnections | Project/Assets/Scripts/CubeScript.cs:56-78 | cubes at (0,0,0) and (1,0,0) seen from NE: the first cube's list is [the second cube] |
| Connectivity.ListPositionIsNotDirection | Project/Assets/Scripts/GridScript.cs:26-36 | for that example, the lookup as written answers N for the cube connected via E, and faults for a cube that is not connected |
| Scene.SelectNoDuplicates | Project/Assets/Scripts/CubeScript.cs:64-68 | distinct list positions of distinct cubes select distinct cubes |
| Scene.ConnectedItemsMembership | Project/Assets/Scripts/CubeScript.cs:56-78 | with current projections, a registered cube is in another's list exactly when it is matched via some direction |
| Scene.ConnectedItemsExcludeSelf | Project/Assets/Scripts/CubeScript.cs:56-78 | with current projections, no cube is in its own list |
| Scene.ConnectedItemsSymmetric | Project/Assets/Scripts/CubeScript.cs:59-68 | with current projections, B in A's list implies A in B's list |
| Scene.ConnectedItemsNoDuplicates | Project/Assets/Scripts/CubeScript.cs:56-78 | a cube's list holds every cube at most once |
| Scene.ConnectionListsSound | Project/Assets/Scripts/GridScript.cs:13-22 | with current projections, all lists together: no self-connection, no duplicate, symmetry |
| Scene.Grid.constructor | Project/Assets/Scripts/GridScript.cs:9-11 | an empty registry: a fresh all-false 9 x 9 x 9 array, an empty list and no current cube |
| Scene.Grid.UpdateConnectivityForAllCubes | Project/Assets/Scripts/GridScript.cs:13-24 | projections refreshed first; then every list is the specification's under the perspective; flags set when a match exists and never reset; grid fields unchanged; all lists sound |
| Scene.Grid.SoundWhenCurrent | Project/Assets/Scripts/GridScript.cs:13-22 | lists computed from up-to-date projections have no self-connection, no duplicate and are symmetric |
| Scene.Grid.UpdateAllProjections | Project/Assets/Scripts/GridScript.cs:15-18 | every cube stores its projection under the perspective; connections and flags untouched |
| Scene.Grid.UpdateAllConnectivities | Project/Assets/Scripts/GridScript.cs:19-22 | every cube's list is recomputed from the stored projections, which stay as they were |
| Scene.Grid.IsConnectedToCurrentCube | Project/Assets/Scripts/GridScript.cs:26-36 | a fault without a current cube; otherwise exactly the lookup by list position on the current cube's list |
| Scene.Grid.ConnectedDirectionToCurrentCube | Project/Assets/Scripts/GridScript.cs:26-36 | the corrected lookup: a fault without a current cube; otherwise, for a registered target, exactly the direction in which it is connected to the current cube, or None |
| Scene.Grid.DirectionOfRegistered | Project/Assets/Scripts/GridScript.cs:26-36 | a registered target on the cell of direction d is connected via d |
| Scene.Grid.NoDirectionOfRegistered | Project/Assets/Scripts/GridScript.cs:26-36 | a registered target on none of the four cells is not connected |
| Scene.Cube.Awake | Project/Assets/Scripts/CubeScript.cs:16-26 | a new cube with no projection, no connection and the flag clear; the cube is appended to the list and its cell marked, nothing else changes, and the registry stays consistent |
| Scene.Cube.UpdateProjection | Project/Assets/Scripts/CubeScript.cs:51-54 | the stored projection becomes the projection of the cube's position; nothing else changes |
| Scene.Cube.UpdateConnectivity | Project/Assets/Scripts/CubeScript.cs:56-78 | the list is replaced by the matches of N, E, S, W in turn, each in list order; the flag becomes set if anything matched and is never reset |
| Scene.Cube.ConnectDirection | Project/Assets/Scripts/CubeScript.cs:59-76 | for one direction, appends the cubes matched on that direction's neighbour cell |
| Scene.Cube.ConnectCubesProjectingOn | Project/Assets/Scripts/CubeScript.cs:64-76 | appends, in list order, exactly the cubes whose stored projection is the cell, and sets the flag when one is found |

## Left out

- Colouring and drawing are rendering only, with no state the core reads. This covers the call at GridScript.cs:23, `ColorCurrentCubeAndNeighbors` (GridScript.cs:38-50), the random colour at CubeScript.cs:70, `OnDrawGizmos`, and the empty `Start`/`Update`.
- Scene.Grid.UpdateConnectivityForAllCubes: the source ends with the colouring call, which dereferences `currentCube` and throws when no current cube is set. That happens after all connections are updated, so the model's final state is the same; the exception is not modelled.
- Scene.Cube.Awake: requires the position to lie inside the grid. The source would throw at the array store (CubeScript.cs:24) and leave the cube unregistered.
- Scene.Cube.Awake takes an integer position. The `(int)` truncation of the transform's float coordinates and the lookup of the parent's grid component are Unity calls, and become parameters.
- Direction.GetClosestPerspective: takes the angle already truncated to an integer. The `(int)` cast of the float camera angle and `Mathf.Abs` on floats are left out.
- Scene.Grid.IsConnectedToCurrentCube: GridScript.cs:30 calls `.gameObject` on an entry of `connections`, an `ArrayList` (CubeScript.cs:14) whose indexer returns `object`, so the method as written does not compile (CS1061). The model reads each entry as the cube it holds (the evident cast) and compares cube identity instead of the entries' `.gameObject`. It omits the null check on an entry, which cannot fail because connection lists never hold null. Reading past the list's `Count` throws `ArgumentOutOfRangeException` in .NET; the model returns a `Fault`.
- Pathfinding.FloydWarshallSuccessors: requires fewer than 2^30 nodes, so that two finite costs (each below n) add within 32 bits. .NET's array size limits keep real inputs far below this. It also requires at least n columns, where the source would throw on reading a missing column.
- Direction.Project, Direction.GetShiftToHeigh, Connectivity.NeighbourProjection and Direction.AngleDistance use unbounded integers where C# computes `pos.x - pos.y`, `pos.y - y`, `pos.x + planeDirection.pos.x` and `pers.angle - (int)angle` in unchecked 32-bit `int`. Grid coordinates lie in 0..8 and angles in 0..360, so no such expression comes near 2^31; and every geometric identity proved about projections and shifts is a ring identity that also holds modulo 2^32.
- Direction.Position3.Equals models the override at Direction.cs:21-37. A call `a.Equals(b)` where both are statically `Position3` resolves in C# to the inherited `Position2.Equals(Position2)` (Direction.cs:62-69), which ignores `y`; the override runs only when called through `object`. The model does not capture this overload choice.
- `GetHashCode` and `ToString` of the positions are not modelled. Neither is the run-time type test in `Position3.Equals` against other objects: the model compares only with positions of the same type.
- Unity's order of `Awake` calls is not modelled: the list order is whatever order the cubes registered in.
- `OccludedWhenHeigher` is read by none of these scripts, so no use of it is modelled.
- Camera, input, animation, movement, enemy, score and waypoint scripts are glue around the core. `PlayerController.cs` also reads grid members that do not exist in `GridScript.cs`. These files are not part of this model.
- A grid cell holding two cubes is not excluded: the source does not prevent it, and nothing proved here depends on it.

## Findings

| source | as written | input that shows it | evidently intended | confidence | as-written member | corrected member |
|---|---|---|---|---|---|---|
| Project/Assets/Scripts/GridScript.cs:26-36 | indexes the current cube's connection list, which holds the matched cubes in discovery order, by the direction's id | cubes at (0,0,0) and (1,0,0), perspective NE, current cube at (0,0,0): its list is [cube at (1,0,0)]; asking for that cube answers N although it is connected via E, and asking for a cube that is not connected reads position 1 of a one-entry `ArrayList` (`ArgumentOutOfRangeException`); as written, line 30 calls `.gameObject` on an `object` and does not compile (CS1061), so the model reads each entry as the cube it holds | the direction in which the cube is connected, or none when it is not connected (the movement code expects a table indexed by direction) | not executed | Connectivity.ListPositionIsNotDirection | Scene.Grid.ConnectedDirectionToCurrentCube |
