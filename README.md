# A verified model of the boids flocking simulation

This project models the simulation core of a small real-time boids program
in Dafny, together with the integer logic of its mesh generators and camera
callbacks.

The centre of the model is the creature agent (`Creature`): its fields
`position`, `direction`, `speed` and `maxTurn`; the constructor that places it
at random; `flock`, which accumulates separation, alignment and cohesion over
the neighbours within radius 5 and blends the heading towards the resulting
steer; `update`, which flocks, moves and then clamps and reflects at each wall
of the cube; and `reflect`. The class `Creatures.Creature` performs these
steps in place. `Update`, `Flock` and `BounceWall` are proved equal to the
functions `Flocking.Step`, `Flocking.Flock` and `Flocking.BounceAxis`;
`Reflect` to `normalize(Vectors.Reflect(...))`; the constructor to
`Spawning.Spawn`. These functions, together with `Flocking.StepFrom` and
`Flocking.Tick` for the frame loop, are the reference definitions the
methods are proved against, and the promised properties are lemmas about
them:

- which others are neighbours;
- that an isolated creature keeps its heading;
- that the sums (over the reals) do not depend on the order of the others;
- that every coordinate ends inside the cube;
- that a reflection about an axis negates exactly one component;
- that speed and turn rate never change.

The main loop's update half (`Simulation.StepAll`) calls `update` on each
creature in turn, in place. Creature `i` therefore sees the already updated
creatures before it and the not yet updated ones after it. The model follows
this code. It is not a frozen per-frame snapshot (a double-buffered update),
and `Flocking.TickSequential` states the difference. The later
version's OpenMP loop is left out, as below.

Beside the core:

- `Collider.SphereCollider` is the strict "inside the sphere" test.
- `ConeMesh` and `SphereMesh` are the cone and sphere generators. They are
  proved to emit exactly the specified vertex and index lists, with the
  counts stated and every index naming an emitted vertex.
- `BoxMesh` is the box's corner and line tables.
- `MeshGlobals.MeshCounts` holds the two global draw counts.
- `Camera.OrbitCamera` holds the mouse and scroll callbacks, which act on the
  camera globals.

Floats are modelled as reals. `glm::normalize`, the square root, `sin`,
`cos`, `acos` and `pi` are parameters about which nothing is assumed, unless
a lemma's `requires` says so (`Vectors.Pythagorean`). The random samples are
parameters of the constructor.

The constructor draws the azimuth as `theta = u * pi` with `u` in `[-1, 1)`,
so `theta` lies in `[-pi, pi)`. The comment beside that line says `[0, 2pi)`. `Spawning.SpawnSpec` states the range the code produces.

## Model

| member | source | states |
|---|---|---|
| Creatures.Creature.constructor | flocking_v1/src/Creature.cpp:14-32 | the new creature's state is `Spawn` of the three position samples, azimuth `u * pi` and polar angle `acos(u)` |
| Spawning.SpawnSpec | flocking_v1/src/Creature.cpp:14-31 | with `cubeSize >= 0` and samples in `[-1, 1]`, a new creature starts inside the cube with speed 0.03 and turn rate 0.1, and its azimuth lies in `[-pi, pi]` |
| Spawning.ScaledSampleInRange | flocking_v1/src/Creature.cpp:15-17 | a sample in `[-1, 1]` times `cubeSize >= 0` lies in `[-cubeSize, cubeSize]` |
| Spawning.SphericalHeadingUnit | flocking_v1/src/Creature.cpp:23-27 | where `sin^2 + cos^2 = 1`, the heading `(sin phi cos theta, cos phi, sin phi sin theta)` has unit length before it is normalised |
| Creatures.Creature.Update | flocking_v1/src/Creature.cpp:34-49 | the creature's new state is `Flocking.Step` of its old state against the old states of the others, the creature itself excluded by identity |
| Creatures.Creature.BounceWall | flocking_v1/src/Creature.cpp:41-48 | one axis's `if`/`else if` wall check has the effect of `Flocking.BounceAxis` |
| Creatures.Creature.Flock | flocking_v1/src/Creature.cpp:51-88 | the new state is `Flocking.Flock` of the old state against the others' states in vector order, self skipped by identity |
| Creatures.Creature.Reflect | flocking_v1/src/Creature.cpp:90-93 | the direction becomes `normalize(reflect(direction, normal))` and no other field changes |
| Vectors.ReflectAboutAxisNormal | flocking_v1/src/Creature.cpp:90-91 | reflecting about an axis-aligned unit normal of either sign negates exactly that component and keeps the other two |
| Vectors.DistSq | flocking_v1/src/Creature.cpp:62-63 | the squared distance is never negative and is zero between equal points |
| Flocking.Neighbours | flocking_v1/src/Creature.cpp:57-65 | a creature is among the neighbours exactly when it is among the others and `0.0001 < dSq < 25` |
| Flocking.NeighbourCount | flocking_v1/src/Creature.cpp:60-72 | the loop's `count` is the number of neighbours |
| Flocking.VisitNonNeighbour | flocking_v1/src/Creature.cpp:65 | a creature that is not a neighbour changes none of the sums |
| Flocking.AccumulateConcat | flocking_v1/src/Creature.cpp:60-72 | the sums over a concatenation combine the sums over its two parts |
| Flocking.AccumulatePermutation | flocking_v1/src/Creature.cpp:60-72 | over the reals, the sums and the count are the same for every ordering of the others |
| Flocking.FlockOrderIndependent | flocking_v1/src/Creature.cpp:60-87 | over the reals, the flocked state is the same for every ordering of the others |
| Flocking.FlockKeepsState | flocking_v1/src/Creature.cpp:51-88 | `flock` never changes position, speed or turn rate |
| Flocking.FlockIsolated | flocking_v1/src/Creature.cpp:74-87 | with no neighbour, `flock` leaves the creature exactly as it was |
| Flocking.FlockBlend | flocking_v1/src/Creature.cpp:74-86 | with at least one neighbour and turn rate 0.1, the new heading normalises `0.9 * direction + 0.1 * steer`, where steer weighs separation 250, alignment 3 and cohesion 10 |
| Flocking.BounceAxisSpec | flocking_v1/src/Creature.cpp:41-48 | one wall check ends inside the walls on its axis and touches no other axis. A coordinate past a wall is set to that wall, and the heading is reflected about the wall's inward normal. A coordinate already inside changes nothing. |
| Flocking.BouncePosition | flocking_v1/src/Creature.cpp:40-48 | after the three wall checks, the position is the per-axis clamp of the moved position, inside the cube, with speed and turn rate kept |
| Flocking.StepSpec | flocking_v1/src/Creature.cpp:34-49 | the moved position is the old position plus the flocked heading times speed. The result is that position clamped into the cube. Speed and turn rate are kept. If the move stays inside, nothing is reflected. |
| Flocking.IsolatedStep | flocking_v1/src/Creature.cpp:34-49 | an isolated creature whose move stays inside keeps its heading and moves by exactly `direction * speed` |
| Flocking.StepFromKeepsPrefix | flocking_v2/src/main.cpp:154-157 | the loop's remaining iterations leave the creatures already updated as they are |
| Flocking.StepFromSequential | flocking_v2/src/main.cpp:154-157 | each later creature is updated against the updated creatures before it and the original creatures after it |
| Flocking.TickSequential | flocking_v2/src/main.cpp:148-157 | in a frame, creature `i` is stepped against the already updated creatures `j < i` and the not yet updated creatures `j > i`, with no snapshot |
| Flocking.TickSpec | flocking_v2/src/main.cpp:148-157 | after a frame, with `cubeSize >= 0`, every creature is inside the cube and has kept its speed and turn rate |
| Simulation.StepAll | flocking_v2/src/main.cpp:148-157 | collecting the pointers and updating each creature in turn leaves the creatures in the states `Tick` gives |
| Simulation.UpdateAt | flocking_v2/src/main.cpp:156 | one `update` call changes only its own creature, to its step against everyone else's current state |
| Simulation.OthersWithout | flocking_v1/src/Creature.cpp:60-61 | for distinct creatures, skipping `other == this` leaves everyone but creature `i`, in order |
| Collider.SphereCollider.IsColliding | flocking_v4/src/Collider.h:14-18 | a colliding point has `radius > 0` and is nearer than the radius, and a point exactly on the surface does not collide |
| Collider.CollidingIffCloserThanRadius | flocking_v4/src/Collider.h:17 | for the distance `d >= 0` between the point and the centre, `isColliding` holds exactly when `d < radius` |
| Collider.CentreCollides | flocking_v4/src/Collider.h:17 | the centre itself collides exactly when the radius is positive |
| ConeMesh.GenerateConeData | flocking_v4/src/main.cpp:346-388 | the outputs are the cone's vertex and index lists: `3 * (radialSegments + 2)` floats and `6 * radialSegments` indices (none for a negative count), each index naming an emitted vertex |
| ConeMesh.AppendRim | flocking_v4/src/main.cpp:358-364 | the rim loop appends the rim points at angles `i / n * pi * 2`, three floats each |
| ConeMesh.AppendBaseFan | flocking_v4/src/main.cpp:373-378 | the base loop appends the base fan triangles |
| ConeMesh.AppendSideStrip | flocking_v4/src/main.cpp:381-387 | the side loop appends the side triangles up to the apex |
| ConeMesh.Rim | flocking_v4/src/main.cpp:358-364 | `k` rim points are `3 * k` floats |
| ConeMesh.ConeVertices | flocking_v4/src/main.cpp:353-369 | the vertex list is `3 * (n + 2)` floats: centre, rim, apex |
| ConeMesh.BaseFan | flocking_v4/src/main.cpp:373-378 | `k` base triangles are `3 * k` indices |
| ConeMesh.SideStrip | flocking_v4/src/main.cpp:382-387 | `k` side triangles are `3 * k` indices |
| ConeMesh.BaseFanInRange | flocking_v4/src/main.cpp:375-377 | every base index lies in `[0, n]` |
| ConeMesh.SideStripInRange | flocking_v4/src/main.cpp:384-386 | every side index lies in `[1, n + 1]` |
| ConeMesh.ConeIndicesInRange | flocking_v4/src/main.cpp:373-387 | there are `6 * n` indices, a multiple of three, each at most `n + 1` (the apex) |
| ConeMesh.NextRimWraps | flocking_v4/src/main.cpp:377 | `(i + 1) % n + 1` is `i + 2`, except that it wraps from `n` back to 1 |
| ConeMesh.BaseFanAt | flocking_v4/src/main.cpp:373-378 | base triangle `i` sits at positions `3i .. 3i + 3` of the fan |
| ConeMesh.SideStripAt | flocking_v4/src/main.cpp:382-387 | side triangle `i` sits at positions `3i .. 3i + 3` of the strip |
| ConeMesh.ConeTriangle | flocking_v4/src/main.cpp:373-387 | base triangle `i` is `[0, i + 1, next]` and side triangle `i` is `[n + 1, next, i + 1]`, where `next` wraps to 1 after `n` |
| MeshGlobals.MeshCounts.constructor | flocking_v2/src/main.cpp:47-51 | both counts start at zero |
| MeshGlobals.MeshCounts.GenerateConeData | flocking_v2/src/main.cpp:258-301 | the same cone data, with `creatureNumIndices` set to `indices.size()`, which is `6 * radialSegments`, and the box count unchanged |
| MeshGlobals.MeshCounts.SetupBoxMesh | flocking_v2/src/main.cpp:363-397 | the corner and line tables, with `boxNumVertices` set to 24, the number of line-table entries and not the number of corners, and the cone count unchanged |
| BoxMesh.BoxVertices | flocking_v2/src/main.cpp:366-376 | eight corners |
| BoxMesh.BoxCorners | flocking_v2/src/main.cpp:366-376 | every corner has each coordinate equal to 1 or -1 |
| BoxMesh.BoxIndices | flocking_v2/src/main.cpp:378-393 | 24 entries, twelve lines of two |
| BoxMesh.BoxIndicesInRange | flocking_v2/src/main.cpp:378-393 | every entry names one of the eight corners |
| BoxMesh.BoxLinesAreEdges | flocking_v2/src/main.cpp:378-393 | every line joins two corners that differ in exactly one coordinate, that is, an edge of the cube |
| BoxMesh.LineIsEdge | flocking_v2/src/main.cpp:378-393 | line `e` joins two corners that differ in exactly one coordinate |
| BoxMesh.LineNumberOfLine | flocking_v2/src/main.cpp:378-393 | each line is recovered from its two corners, given in either order |
| BoxMesh.BoxLinesDistinct | flocking_v2/src/main.cpp:378-393 | no line is drawn twice, in either direction |
| SphereMesh.GenerateSphereMesh | flocking_v4/src/main.cpp:574-624 | the outputs are the sphere's vertex and index lists. There are `(stackCount + 1) * (sectorCount + 1)` vertices of three floats each. For `stackCount >= 1` there are `6 * sectorCount * (stackCount - 1)` indices. Every index names an emitted vertex. |
| SphereMesh.GridVertices | flocking_v4/src/main.cpp:581-599 | the nested vertex loops emit the grid points row by row |
| SphereMesh.GridIndices | flocking_v4/src/main.cpp:602-623 | the nested index loops emit the stacks' quads in order |
| SphereMesh.AppendStack | flocking_v4/src/main.cpp:604-622 | one stack's inner loop appends its quads, with `k1` and `k2` stepping together one row apart |
| SphereMesh.Ring | flocking_v4/src/main.cpp:587-598 | one row of `m` points is `3 * m` floats |
| SphereMesh.Rings | flocking_v4/src/main.cpp:581-599 | `k` rows are `3 * k * (sectorCount + 1)` floats |
| SphereMesh.Quad | flocking_v4/src/main.cpp:609-621 | a quad emits three indices unless it is in the first stack, and three more unless it is in the last |
| SphereMesh.SphereVertexCount | flocking_v4/src/main.cpp:581-599 | the vertex list has `3 * (stackCount + 1) * (sectorCount + 1)` floats |
| SphereMesh.StackQuadsLength | flocking_v4/src/main.cpp:607-622 | `m` quads of stack `i` are `m` times its quad size |
| SphereMesh.StacksLength | flocking_v4/src/main.cpp:602-623 | the first `k` stacks emit `sectorCount` times the sum of their quad sizes |
| SphereMesh.QuadSizesSum | flocking_v4/src/main.cpp:609-621 | the first `k` quad sizes add up to `6k - 3`, less three more when `k` reaches the last stack |
| SphereMesh.SphereIndexCount | flocking_v4/src/main.cpp:602-623 | for `stackCount >= 1`, the index list has `6 * sectorCount * (stackCount - 1)` entries |
| SphereMesh.QuadInRange | flocking_v4/src/main.cpp:609-621 | every index of one quad lies below `(stackCount + 1) * (sectorCount + 1)` |
| SphereMesh.StackQuadsInRange | flocking_v4/src/main.cpp:604-622 | every index of one stack lies below the vertex count |
| SphereMesh.StacksInRange | flocking_v4/src/main.cpp:602-623 | every index of the first `k` stacks lies below the vertex count |
| SphereMesh.SphereIndicesInRange | flocking_v4/src/main.cpp:602-623 | every sphere index names an emitted vertex |
| Camera.ClampPitch | flocking_v4/src/main.cpp:312-315 | the pitch ends in `[-30, 30]`, unchanged inside it and set to the nearer limit outside |
| Camera.ClampZoom | flocking_v4/src/main.cpp:327-331 | the orbit radius ends in `[1, 100]`, unchanged inside it and set to the nearer limit outside |
| Camera.OrbitDistance | flocking_v4/src/main.cpp:279-284 | where `sin^2 + cos^2 = 1`, the camera sits exactly `orbitRadius` from its target whatever the yaw and pitch |
| Camera.OrbitPointDistance | flocking_v4/src/main.cpp:279-281 | the orbit point for unit (cos, sin) pairs is `radius` from the target |
| Camera.OrbitCamera.constructor | flocking_v4/src/main.cpp:33-44 | the globals start at yaw -90 and pitch 0, with the cursor at the window centre, no motion seen yet, and the orbit radius the starting distance |
| Camera.OrbitCamera.MouseCallback | flocking_v4/src/main.cpp:287-323 | after the call, `firstMouse` is false and `lastX`/`lastY` are the cursor. The yaw moves by 0.1 per unit of horizontal motion and is unchanged on the first call. The pitch moves by 0.1 per unit of vertical motion and is held to `[-30, 30]`. The radius and target are unchanged, and the camera sits on its orbit. |
| Camera.OrbitCamera.Zoom | flocking_v2/src/main.cpp:239-246 | the radius becomes `ClampZoom(radius - yoffset)`, in `[1, 100]`, and no other global changes |
| Camera.OrbitCamera.UpdateCameraPosition | flocking_v4/src/main.cpp:277-285 | the camera moves onto its orbit at the current yaw, pitch and radius, and nothing else changes |
| Camera.OrbitCamera.ScrollCallback | flocking_v4/src/main.cpp:325-334 | the radius becomes `ClampZoom(radius - yoffset)` and the camera moves onto the new orbit, with the angles and cursor unchanged |

## Left out

- Floating point: every float is a real, so single-precision rounding, the `double` to `float` casts of the cursor and scroll offsets, and the float cast of `count` are not modelled.
- `glm::normalize`, `glm::distance` (a square root), `sin`, `cos`, `acos` and `pi` are parameters about which nothing is assumed. Unit length is not proved for normalised vectors. A zero-length `steer` is passed to the abstract normaliser like any other vector.
- The random number generator is not modelled: the constructor takes the five samples as parameters. `std::uniform_real_distribution` draws from `[-1, 1)`, and the lemmas allow the closed interval.
- Creatures.Creature.constructor: the heading is stated as the normaliser applied to the spherical heading. Uniformity of the distribution on the sphere is a probabilistic claim and is not stated.
- The OpenMP parallel update loop of the later version, and its data race, are not modelled. The sequential loop of the earlier version is modelled.
- The obstacle response of the later version's `Creature::update` is not modelled; only `isColliding` is.
- OpenGL, GLFW and shaders are not modelled, as rendering and I/O: buffer uploads, draw calls, `renderCreature` and its quaternion orientation, `setupPlane`, and the cleanup calls.
- Per-species colours and meshes have no effect on the simulation and are not modelled.
- SphereMesh.GenerateSphereMesh: the vertex coordinates are given by a parameter `point(i, j)`, not computed with `cosf`/`sinf`. This also hides the float division by `stackCount` and `sectorCount` when either is zero. The counts and the index logic are modelled exactly.
- ConeMesh.GenerateConeData: the rim coordinates are stated through the abstract `cos`/`sin`. The loops are split into three helper methods with the same bodies.
- Camera.OrbitCamera.MouseCallback: the callback's three camera-position lines are the same as `updateCameraPosition`'s, and the model calls that method. The earlier version's callback (flocking_v2/src/main.cpp:201-237) is the same code and is modelled by the same method.
- 32-bit integer overflow in the index arithmetic, and the `unsigned int` conversion of the indices, are not modelled: the integers are unbounded.
- `glm::distance(cameraPos, cameraTarget)`, the initial orbit radius, is a constructor parameter.
