/**
 * The program's `main` once the mesh arrays have been extracted: pick the
 * tetrahedron block, check the node tags, build the mesh, write the initial
 * snapshot, then advance and snapshot `NUM_STEPS` times.
 */
module Driver {
  import opened Machine
  import opened Floats
  import opened Records
  import opened Kinematics
  import opened Snapshots
  import opened Decimal
  import opened Mesh

  const TOTAL_TIME: real := 4.0
  const NUM_STEPS: nat := 500
  const GMSH_TETR_CODE: int := 4

  datatype Option<T> = None | Some(value: T)

  /** The first block whose element type is the tetrahedron code, if any. */
  function FirstTetraBlock(elementTypes: seq<int>): (r: Option<nat>)
    ensures r.Some? ==> r.value < |elementTypes| && elementTypes[r.value] == GMSH_TETR_CODE
    ensures r.Some? ==> forall j :: 0 <= j < r.value ==> elementTypes[j] != GMSH_TETR_CODE
    ensures r.None? <==> forall j :: 0 <= j < |elementTypes| ==> elementTypes[j] != GMSH_TETR_CODE
    decreases |elementTypes|
  {
    if elementTypes == [] then None
    else if elementTypes[0] == GMSH_TETR_CODE then Some(0)
    else match FirstTetraBlock(elementTypes[1..]) {
      case None => None
      case Some(i) => Some(i + 1)
    }
  }

  /** The scan over the element types that stops at the first tetrahedron block. */
  method FindTetraBlock(elementTypes: seq<int>) returns (r: Option<nat>)
    ensures r == FirstTetraBlock(elementTypes)
  {
    r := None;
    var i := 0;
    while i < |elementTypes|
      invariant 0 <= i <= |elementTypes|
      invariant forall j :: 0 <= j < i ==> elementTypes[j] != GMSH_TETR_CODE
    {
      if elementTypes[i] == GMSH_TETR_CODE {
        r := Some(i);
        break;
      }
      i := i + 1;
    }
    assert r.Some? ==> forall j :: 0 <= j < r.value ==> elementTypes[j] != GMSH_TETR_CODE;
    FirstTetraBlockUnique(elementTypes, r);
  }

  /** The three properties of `FirstTetraBlock` determine it. */
  lemma FirstTetraBlockUnique(elementTypes: seq<int>, r: Option<nat>)
    requires r.Some? ==> r.value < |elementTypes| && elementTypes[r.value] == GMSH_TETR_CODE
    requires r.Some? ==> forall j :: 0 <= j < r.value ==> elementTypes[j] != GMSH_TETR_CODE
    requires r.None? ==> forall j :: 0 <= j < |elementTypes| ==> elementTypes[j] != GMSH_TETR_CODE
    ensures r == FirstTetraBlock(elementTypes)
  {
  }

  /** gmsh numbered the nodes 1, 2, ..., in the order of the coordinate array. */
  predicate TagsSequential(nodeTags: seq<UInt64>)
    ensures TagsSequential(nodeTags) ==> forall i :: 0 <= i < |nodeTags| ==> SubU64(nodeTags[i], 1) == i
    ensures |nodeTags| < TWO_64 && (forall i :: 0 <= i < |nodeTags| ==> SubU64(nodeTags[i], 1) == i)
            ==> TagsSequential(nodeTags)
  {
    forall i :: 0 <= i < |nodeTags| ==> nodeTags[i] == i + 1
  }

  /**
   * The tag check, comparing each position with its tag minus one in
   * unsigned arithmetic; it fails at the first mismatch.
   */
  method CheckNodeTags(nodeTags: seq<UInt64>) returns (ok: bool)
    requires |nodeTags| < TWO_64
    ensures ok <==> TagsSequential(nodeTags)
  {
    var i := 0;
    while i < |nodeTags|
      invariant 0 <= i <= |nodeTags|
      invariant forall j :: 0 <= j < i ==> nodeTags[j] == j + 1
    {
      if i != SubU64(nodeTags[i], 1) {
        return false;
      }
      i := i + 1;
    }
    return true;
  }

  /** The two assertions `main` makes before building the mesh. */
  predicate InputAccepted(nodeTags: seq<UInt64>, tetraTags: seq<UInt64>)
    ensures InputAccepted(nodeTags, tetraTags) ==> 4 * |ElementsOf(tetraTags)| == |tetraTags|
  {
    TagsSequential(nodeTags) && |tetraTags| % 4 == 0
  }

  /**
   * The snapshots of a run of `k` steps: snapshot `j` is the state after `j`
   * updates, written under the name for step `j`.
   */
  function Trace(f: FloatOps, nodes0: seq<CalcNode>, elements: seq<Element>, dt: real, k: nat): (r: seq<Grid>)
    requires k < TWO_32
    ensures |r| == k + 1
    ensures forall j :: 0 <= j <= k ==> r[j].fileName == FileName(j) && |r[j].cells| == |elements|
  {
    seq(k + 1, j requires 0 <= j <= k => SnapshotOf(f, NodesAfter(f, nodes0, dt, j), elements, j))
  }

  /** One more step appends the snapshot of the state after that step. */
  lemma TraceExtend(f: FloatOps, nodes0: seq<CalcNode>, elements: seq<Element>, dt: real, k: nat)
    requires k + 1 < TWO_32
    ensures Trace(f, nodes0, elements, dt, k + 1)
         == Trace(f, nodes0, elements, dt, k) + [SnapshotOf(f, NodesAfter(f, nodes0, dt, k + 1), elements, k + 1)]
  {
  }

  /**
   * A run of `k` steps writes `k + 1` files, numbered 0 to `k` in order, no
   * two with the same name, each with one point per node and one cell per
   * element.
   */
  lemma TraceFiles(f: FloatOps, nodes0: seq<CalcNode>, elements: seq<Element>, dt: real, k: nat)
    requires k < TWO_32
    ensures |Trace(f, nodes0, elements, dt, k)| == k + 1
    ensures forall j :: 0 <= j <= k ==> Trace(f, nodes0, elements, dt, k)[j].fileName == FileName(j)
    ensures forall i, j :: 0 <= i < j <= k ==>
      Trace(f, nodes0, elements, dt, k)[i].fileName != Trace(f, nodes0, elements, dt, k)[j].fileName
    ensures forall j :: 0 <= j <= k ==>
      |Trace(f, nodes0, elements, dt, k)[j].points| == |nodes0| &&
      |Trace(f, nodes0, elements, dt, k)[j].cells| == |elements|
  {
    var r := Trace(f, nodes0, elements, dt, k);
    forall i, j | 0 <= i < j <= k
      ensures r[i].fileName != r[j].fileName
    {
      FileNameInjective(i, j);
    }
    forall j | 0 <= j <= k
      ensures |r[j].points| == |nodes0|
    {
      ReferencesPreserved(f, nodes0, dt, j);
    }
  }

  /**
   * What snapshot `j` of a run on a freshly built mesh shows for node `i`:
   * the input coordinates and zero velocity at step 0; afterwards the
   * in-plane motion law at `t_j` from the input x and y, the vertical
   * velocity at `t_j`, and the input z with every drift so far folded on.
   * The scalar field stays the input x throughout.
   */
  lemma SnapshotContents(f: FloatOps, coords: seq<real>, elements: seq<Element>, dt: real, k: nat, j: nat, i: nat)
    requires k < TWO_32 && j <= k && i < |coords| / 3
    ensures var g := Trace(f, NodesOf(coords), elements, dt, k)[j];
      i < |g.points| && i < |g.velocity| && i < |g.smth| &&
      g.smth[i] == coords[3 * i] &&
      g.points[i].z == f.toFloat(ZFold(f, dt, coords[3 * i + 2], Times(f, dt, j))) &&
      (j == 0 ==> g.points[i] == Vec3(f.toFloat(coords[3 * i]), f.toFloat(coords[3 * i + 1]), f.toFloat(coords[3 * i + 2])) &&
                  g.velocity[i] == Vec3(0.0, 0.0, 0.0)) &&
      (j >= 1 ==> var p := PlanarMotion(f, coords[3 * i], coords[3 * i + 1], TimeAt(f, dt, j));
                  g.points[i].x == f.toFloat(p.x) && g.points[i].y == f.toFloat(p.y) &&
                  g.velocity[i] == Vec3(p.vx, p.vy, Forcing(f, TimeAt(f, dt, j))))
  {
    var nodes0 := NodesOf(coords);
    ReferencesPreserved(f, nodes0, dt, j);
    ConstructedZDrift(f, coords, dt, j, i);
    if j >= 1 {
      MotionAfter(f, nodes0, dt, j, i);
    }
  }

  /**
   * The step loop: snapshot 0 of the initial state, then for each step
   * `t += dt`, update to `t`, snapshot under the step's number.
   */
  method Simulate(f: FloatOps, mesh: CalcMesh, dt: real, numSteps: nat) returns (snaps: seq<Grid>)
    requires numSteps < TWO_32
    modifies mesh.nodes
    ensures mesh.nodes[..] == NodesAfter(f, old(mesh.nodes[..]), dt, numSteps)
    ensures snaps == Trace(f, old(mesh.nodes[..]), mesh.elements[..], dt, numSteps)
  {
    ghost var nodes0 := mesh.nodes[..];
    var s := mesh.Snapshot(f, 0);
    snaps := [s];
    var t := 0.0;
    for step := 1 to numSteps + 1
      invariant t == TimeAt(f, dt, step - 1)
      invariant mesh.nodes[..] == NodesAfter(f, nodes0, dt, step - 1)
      invariant snaps == Trace(f, nodes0, mesh.elements[..], dt, step - 1)
    {
      t := f.add(t, dt);
      s := mesh.Step(f, t, dt, step);
      TraceExtend(f, nodes0, mesh.elements[..], dt, step - 1);
      snaps := snaps + [s];
    }
  }

  /**
   * The part of `main` after the checks: build the mesh from the arrays,
   * then run `numSteps` steps of `dt`.
   */
  method BuildAndSimulate(f: FloatOps, nodesCoord: seq<real>, tetrNodesTags: seq<UInt64>,
                          dt: real, numSteps: nat) returns (snaps: seq<Grid>)
    requires numSteps < TWO_32
    ensures snaps == Trace(f, NodesOf(nodesCoord), ElementsOf(tetrNodesTags), dt, numSteps)
  {
    var mesh := new CalcMesh(nodesCoord, tetrNodesTags);
    ghost var nodes0, elements := mesh.nodes[..], mesh.elements[..];
    assert nodes0 == NodesOf(nodesCoord) && elements == ElementsOf(tetrNodesTags);
    snaps := Simulate(f, mesh, dt, numSteps);
    assert mesh.elements[..] == elements;
  }

  /** How `main` ends. */
  datatype Outcome =
    | NoTetrahedra               // returns -2 before building a mesh
    | AssertionFailed            // one of the input assertions aborts the process
    | Completed(snapshots: seq<Grid>)  // returns 0 after writing every snapshot

  /**
   * `main` from the extracted arrays on: the tetrahedron block is searched
   * first, the input assertions are checked next, and only an accepted
   * input is turned into a mesh and run for `NUM_STEPS` steps of
   * `TOTAL_TIME / NUM_STEPS`.
   */
  method Run(f: FloatOps, nodeTags: seq<UInt64>, nodesCoord: seq<real>,
             elementTypes: seq<int>, elementNodeTags: seq<seq<UInt64>>) returns (o: Outcome)
    requires |elementNodeTags| == |elementTypes|
    requires |nodeTags| < TWO_64
    ensures o.NoTetrahedra? <==> FirstTetraBlock(elementTypes).None?
    ensures o.AssertionFailed? <==>
      FirstTetraBlock(elementTypes).Some? &&
      !InputAccepted(nodeTags, elementNodeTags[FirstTetraBlock(elementTypes).value])
    ensures o.Completed? ==>
      FirstTetraBlock(elementTypes).Some? &&
      o.snapshots == Trace(f, NodesOf(nodesCoord),
                           ElementsOf(elementNodeTags[FirstTetraBlock(elementTypes).value]),
                           f.div(TOTAL_TIME, NUM_STEPS as real), NUM_STEPS)
  {
    var block := FindTetraBlock(elementTypes);
    if block.None? {
      return NoTetrahedra;
    }
    var tetrNodesTags := elementNodeTags[block.value];
    var tagsOk := CheckNodeTags(nodeTags);
    var accepted := tagsOk && |tetrNodesTags| % 4 == 0;
    assert accepted == InputAccepted(nodeTags, tetrNodesTags);
    if !accepted {
      return AssertionFailed;
    }
    var dt := f.div(TOTAL_TIME, NUM_STEPS as real);
    var snaps := BuildAndSimulate(f, nodesCoord, tetrNodesTags, dt, NUM_STEPS);
    return Completed(snaps);
  }
}
