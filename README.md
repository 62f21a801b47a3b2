# Tetrahedral mesh motion: a Dafny model

This project models the mesh bookkeeping of `lab_1/1/main.cpp`, a program
that moves a tetrahedral mesh through a prescribed motion and writes one VTK
snapshot per time step. The motion is a spin about the z axis whose angular
rate grows with time, plus a vertical drift.

- `CalcNode` (one vertex) and `Element` (four node indices) are value records
  (`Records`).
- `CalcMesh` is a class owning two arrays (`Mesh`). Its constructor turns the
  flat coordinate array into one node per triple. It turns the flat one-based
  connectivity array into zero-based 4-index elements. `UpdateCoords` rewrites
  every node in place. `Snapshot` reads the state out. `Step` does one update
  and then one snapshot.
- The motion law, node by node and over many steps, is given by functions and
  lemmas in `Kinematics`.
- A snapshot is an abstract `Grid` record: the file name, the point
  coordinates, the "velocity" and "smth" point arrays, and the cells
  (`Snapshots`). The points go into a default `vtkPoints`, which stores
  single-precision values, so each coordinate is narrowed to a float. The
  "velocity" and "smth" arrays are `vtkDoubleArray`s and keep the doubles.
  `std::to_string` is modelled in `Decimal`.
- `main` is modelled from the point where gmsh has handed over its arrays
  (`Driver`). It searches for the tetrahedron block. It checks the node tags
  and the connectivity length. It builds the mesh, writes snapshot 0, and then
  runs 500 steps of `t += dt`, update, snapshot.

Numbers. Doubles are carried as `real`. Every floating-point operation of the
program (`+`, `*`, `/`, `sqrt`, `atan2`, `cos`, `sin`, and the narrowing of a
double to a float) is an abstract function held in a `FloatOps` record
(`Floats`) and passed as a parameter. So no law of real arithmetic is assumed, and each result holds whatever the rounding is. The
z drift is therefore stated as a left fold (`ZFold`) of the source's own
expression `z + 10*cos(5*t)*dt` over the update times. The times are
themselves the repeated rounded sums `t_k = t_{k-1} + dt` (`TimeAt`).

Integers (`Machine`). `size_t` and `unsigned long` are `UInt64`. `unsigned int` is
`UInt32`. The constructor's `tag - 1` is unsigned subtraction and is modelled
with its wrap-around (`SubU64`): a tag of 0 becomes 2^64 - 1. VTK stores cell
point ids as signed 64-bit values; that conversion is `ToIdType`.

Three behaviours of the code that a reader might expect to be otherwise, modelled as written:
- The constructor validates nothing. Trailing coordinates or tags beyond the
  last complete triple or quadruple are ignored, and out-of-range tags go
  through unchanged. The check that rejects bad input is the pair of
  `assert`s in `main` (`Driver.Run`, outcome `AssertionFailed`). Those check
  the node tags and the connectivity length only, not the range of the
  connectivity entries.
- Snapshot file names are `output/tetr3d-step-<n>.vtu` without zero padding.
  So they are not in lexicographic step order: `Snapshots.FileNamesNotLexicographic`
  shows the name for step 10 sorting before the name for step 9.
- The update times are accumulated sums, not `i * dt`.

## Model

| member | source | states |
|---|---|---|
| `Machine.SubU64` | lab_1/1/main.cpp:71-74 | unsigned `tag - 1` is the plain difference for tags of at least 1 and wraps to 2^64 - 1 for a tag of 0 |
| `Machine.ToIdType` | lab_1/1/main.cpp:137-140 | an `unsigned long` index below 2^63 keeps its value as a VTK id; a larger one u becomes u - 2^64, so a wrapped tag of 0 reaches VTK as id -1 |
| `Records.NewNode` | lab_1/1/main.cpp:31-32 | the seven-argument node constructor sets the reference position equal to the position and stores smth and the velocity as given |
| `Records.NodesOf` | lab_1/1/main.cpp:56-65 | one node per complete coordinate triple; node i sits at (coords[3i], coords[3i+1], coords[3i+2]), its reference position equals that position, smth is coords[3i], and its velocity is zero |
| `Records.ElementsOf` | lab_1/1/main.cpp:68-75 | one element per complete quadruple of tags; index j of element i is tags[4i+j] - 1 in unsigned arithmetic |
| `Records.TrailingCoordsIgnored` | lab_1/1/main.cpp:56 | appending fewer than three coordinates to a whole number of triples changes no node |
| `Records.TrailingTagsIgnored` | lab_1/1/main.cpp:68 | appending fewer than four tags to a whole number of quadruples changes no element |
| `Records.ShiftedTagInRange` | lab_1/1/main.cpp:71-74 | a shifted tag is a valid index below `count` exactly when the tag is in [1, count] |
| `Records.ElementIndicesInRange` | lab_1/1/main.cpp:68-75 | every element index is in [0, count) if and only if every tag the constructor reads is in [1, count] |
| `Kinematics.UpdateNode` | lab_1/1/main.cpp:89-106 | an update keeps the reference position and smth; sets the in-plane state to the motion law of the reference x, y and t; sets vz to the forcing term of t; and adds vz times dt to the old z |
| `Kinematics.UpdateAll` | lab_1/1/main.cpp:89-106 | the loop over all nodes keeps the node count, and node i of the result is `UpdateNode` of node i alone |
| `Kinematics.UpdateAllSplits` | lab_1/1/main.cpp:89-106 | updating a concatenation of node arrays equals updating each part, so nodes are independent of each other |
| `Kinematics.PlanarForgetsHistory` | lab_1/1/main.cpp:91-104 | two nodes with the same reference x and y, updated at the same t, get the same x, y, vx and vy whatever their previous state and dt |
| `Kinematics.TimeAtExact` | lab_1/1/main.cpp:253-256 | `TimeAt`, the time after k repetitions of `t += dt` from `t = 0.0`, equals k * dt when addition is exact; with rounded addition it stays the accumulated sum |
| `Kinematics.Times` | lab_1/1/main.cpp:253-256 | the update times in order: entry i is the time after i + 1 accumulated steps |
| `Kinematics.ZFoldSnoc` | lab_1/1/main.cpp:101 | folding one more time onto the drift sequence applies exactly one more `z += 10*cos(5t)*dt` |
| `Kinematics.ReferencesPreserved` | lab_1/1/main.cpp:89-106 | after any number of updates the node count, every reference position and every smth equal their values before the first update |
| `Kinematics.MotionAfter` | lab_1/1/main.cpp:87-105 | after k >= 1 updates, a node's x, y, vx, vy are the motion law at t_k of its original reference position, and vz is the forcing term at t_k |
| `Kinematics.ZDriftAfter` | lab_1/1/main.cpp:101 | after k updates, z is the starting z with the drift of t_1, ..., t_k folded on in step order |
| `Kinematics.ConstructedZDrift` | lab_1/1/main.cpp:61-64 | for a freshly built mesh, node i's z after k updates is coords[3i+2] with the drift of every update folded on, and initZ stays coords[3i+2] |
| `Decimal.ToDecimal` | lab_1/1/main.cpp:144 | `to_string` of an unsigned value has at least one digit, only digits, and a leading zero only for 0 |
| `Decimal.DecimalRoundTrip` | lab_1/1/main.cpp:144 | reading back the decimal spelling of n gives n |
| `Decimal.DecimalInjective` | lab_1/1/main.cpp:144 | equal decimal spellings come from equal numbers |
| `Snapshots.FileName` | lab_1/1/main.cpp:144 | the file name is the prefix `output/tetr3d-step-`, then the unpadded decimal step number, then the suffix `.vtu` |
| `Snapshots.FileNameInjective` | lab_1/1/main.cpp:144 | distinct step numbers give distinct file names |
| `Snapshots.FileNamesNotLexicographic` | lab_1/1/main.cpp:144 | the file names share the prefix and the name for step 10 sorts before the name for step 9 |
| `Snapshots.SnapshotOf` | lab_1/1/main.cpp:112-144 | points, velocities and smth hold one entry per node, index-aligned with the nodes; points are the positions narrowed to floats, while velocities and smth are the doubles; cells hold one entry per element with its four ids in order; the file name is the one for the step number |
| `Snapshots.CellsReferToPoints` | lab_1/1/main.cpp:134-142 | when every element index is below the node count, every cell id is a valid point index of the same snapshot |
| `Mesh.CalcMesh.constructor` | lab_1/1/main.cpp:52-76 | the node array equals `NodesOf(coords)` and the element array equals `ElementsOf(tags)`, both freshly allocated |
| `Mesh.CalcMesh.UpdateCoords` | lab_1/1/main.cpp:85-107 | the node array becomes `UpdateNode` applied to each old node at the same index; the element array is outside the frame and does not change |
| `Mesh.CalcMesh.Snapshot` | lab_1/1/main.cpp:110-149 | the loops build exactly `SnapshotOf` the current node and element arrays for the given step number, with the points narrowed to floats |
| `Mesh.CalcMesh.Step` | lab_1/1/main.cpp:78-83 | one update to time t, then the snapshot of the updated state numbered `step` |
| `Driver.FirstTetraBlock` | lab_1/1/main.cpp:213-221 | the chosen block is the first with type code 4; there is none exactly when no block has code 4 |
| `Driver.FindTetraBlock` | lab_1/1/main.cpp:213-221 | the early-exit scan returns exactly `FirstTetraBlock` |
| `Driver.TagsSequential` | lab_1/1/main.cpp:234-235 | the tags are 1, 2, ..., n; this implies the asserted unsigned `i == nodeTags[i] - 1` for every i, and follows from it when n < 2^64 |
| `Driver.InputAccepted` | lab_1/1/main.cpp:234-236 | both assertions hold: the tags are sequential and the connectivity length is a multiple of 4, so the constructor ignores no tag |
| `Driver.CheckNodeTags` | lab_1/1/main.cpp:234-235 | the unsigned `i == tag - 1` check passes exactly when the tags are 1, 2, ..., n in order |
| `Driver.Trace` | lab_1/1/main.cpp:250-259 | a k-step run has k + 1 snapshots; snapshot j is the state after j updates, under the name for step j, with one cell per element |
| `Driver.TraceExtend` | lab_1/1/main.cpp:254-259 | one more step of the loop appends exactly the snapshot of the state after that step |
| `Driver.TraceFiles` | lab_1/1/main.cpp:250-261 | a k-step run writes k + 1 files numbered 0 to k in order, with pairwise distinct names, each with one point per node and one cell per element |
| `Driver.SnapshotContents` | lab_1/1/main.cpp:250-259 | snapshot j of node i shows the float-narrowed input position and zero velocity at j = 0; afterwards it shows the float-narrowed motion law at t_j from the input x, y, the forcing term at t_j, and the float-narrowed input z with every drift folded on; smth stays the input x |
| `Driver.Simulate` | lab_1/1/main.cpp:250-259 | the loop leaves the nodes in the state after numSteps updates and returns exactly `Trace` of the initial state |
| `Driver.BuildAndSimulate` | lab_1/1/main.cpp:239-259 | building the mesh from the arrays and running the loop returns exactly `Trace` of the built nodes and elements |
| `Driver.Run` | lab_1/1/main.cpp:213-262 | no tetrahedron block gives exit -2 with no mesh built; otherwise a failed tag or length check aborts; otherwise the run returns the 501 snapshots of 500 steps of 4.0 / 500 on the mesh built from the arrays |

## Left out

- gmsh: loading the STL file (and its exit code -1), surface classification, volume meshing and node and element extraction. `Driver.Run` takes the extracted arrays as parameters.
- The VTK objects and the XML file written by `writer->Write()`. A snapshot is the `Grid` record of the arrays the writer receives, with the float narrowing of the points as an abstract function. Write failures are not modelled.
- Removing and recreating the `output` directory, and console output.
- The actual values of `sqrt`, `atan2`, `cos`, `sin` and of rounded double arithmetic. They are abstract parameters. So properties such as preservation of the in-plane radius, which are approximate in floating point, are not stated.
- Builds with `NDEBUG`, where the two input `assert`s are compiled out. The model treats a failed assertion as an abort.
- The unused `centerX`, `centerY`, `centerZ` fields.
- `Driver.Run` assumes gmsh's parallel arrays, so `elementNodeTags` has one entry per element type. The source indexes it at the found block without checking.
