/**
 * What `snapshot` hands to the VTK writer, as an abstract record: the file
 * name, the point coordinates, the "velocity" and "smth" point arrays, and
 * the tetrahedral cells. The VTK objects and the XML file itself are not
 * modelled.
 */
module Snapshots {
  import opened Machine
  import opened Floats
  import opened Records
  import opened Decimal

  const FILE_PREFIX: string := "output/tetr3d-step-"
  const FILE_SUFFIX: string := ".vtu"

  /**
   * `"output/tetr3d-step-" + std::to_string(n) + ".vtu"`: the fixed prefix,
   * the unpadded decimal step number, the fixed suffix.
   */
  function FileName(n: UInt32): (s: string)
    ensures |s| == |FILE_PREFIX| + |ToDecimal(n)| + |FILE_SUFFIX|
    ensures s[..|FILE_PREFIX|] == FILE_PREFIX
    ensures s[|FILE_PREFIX|..|s| - |FILE_SUFFIX|] == ToDecimal(n)
    ensures s[|s| - |FILE_SUFFIX|..] == FILE_SUFFIX
  {
    FILE_PREFIX + ToDecimal(n) + FILE_SUFFIX
  }

  /** The step number can be read back from the file name, so distinct steps never share a file. */
  lemma FileNameInjective(m: UInt32, n: UInt32)
    requires m != n
    ensures FileName(m) != FileName(n)
  {
    if FileName(m) == FileName(n) {
      DecimalInjective(m, n);
    }
  }

  /**
   * The names are not zero-padded, so character-by-character order differs
   * from step order: the name of step 10 sorts before that of step 9.
   */
  lemma FileNamesNotLexicographic()
    ensures FileName(10)[..|FILE_PREFIX|] == FileName(9)[..|FILE_PREFIX|]
    ensures FileName(10)[|FILE_PREFIX|] < FileName(9)[|FILE_PREFIX|]
  {
  }

  datatype Vec3 = Vec3(x: real, y: real, z: real)

  /**
   * The content of one output file: point coordinates as stored by a
   * single-precision `vtkPoints`, the "velocity" and "smth" double arrays,
   * and the cells.
   */
  datatype Grid = Grid(
    fileName: string,
    points: seq<Vec3>,
    velocity: seq<Vec3>,
    smth: seq<real>,
    cells: seq<seq<int>>)

  /** A node's position as `InsertNextPoint` stores it: each coordinate narrowed to a float. */
  function PointOf(f: FloatOps, n: CalcNode): Vec3
  {
    Vec3(f.toFloat(n.x), f.toFloat(n.y), f.toFloat(n.z))
  }

  function VelocityOf(n: CalcNode): Vec3
  {
    Vec3(n.vx, n.vy, n.vz)
  }

  /** A tetrahedron's point ids as VTK stores them (signed 64-bit ids). */
  function CellOf(e: Element): seq<int>
  {
    [ToIdType(e.nodesIds[0]), ToIdType(e.nodesIds[1]), ToIdType(e.nodesIds[2]), ToIdType(e.nodesIds[3])]
  }

  /**
   * The snapshot of a mesh state: every point array index-aligned with the
   * node sequence (positions narrowed to floats, velocity and smth kept as
   * doubles), one cell per element in element order, and the file name for
   * step `n`.
   */
  function SnapshotOf(f: FloatOps, nodes: seq<CalcNode>, elements: seq<Element>, n: UInt32): (s: Grid)
    ensures |s.points| == |s.velocity| == |s.smth| == |nodes|
    ensures forall i :: 0 <= i < |nodes| ==>
      s.points[i] == Vec3(f.toFloat(nodes[i].x), f.toFloat(nodes[i].y), f.toFloat(nodes[i].z)) &&
      s.velocity[i] == Vec3(nodes[i].vx, nodes[i].vy, nodes[i].vz) &&
      s.smth[i] == nodes[i].smth
    ensures |s.cells| == |elements|
    ensures forall i, j :: 0 <= i < |elements| && 0 <= j < 4 ==>
      |s.cells[i]| == 4 && s.cells[i][j] == ToIdType(elements[i].nodesIds[j])
    ensures s.fileName == FileName(n)
  {
    Grid(FileName(n),
      seq(|nodes|, i requires 0 <= i < |nodes| => PointOf(f, nodes[i])),
      seq(|nodes|, i requires 0 <= i < |nodes| => VelocityOf(nodes[i])),
      seq(|nodes|, i requires 0 <= i < |nodes| => nodes[i].smth),
      seq(|elements|, i requires 0 <= i < |elements| => CellOf(elements[i])))
  }

  /**
   * When every element index is a valid node index, every cell of the
   * snapshot refers to a point of the same snapshot.
   */
  lemma CellsReferToPoints(f: FloatOps, nodes: seq<CalcNode>, elements: seq<Element>, n: UInt32)
    requires |nodes| <= TWO_63
    requires forall i, j :: 0 <= i < |elements| && 0 <= j < 4 ==> elements[i].nodesIds[j] < |nodes|
    ensures forall i, j :: 0 <= i < |elements| && 0 <= j < 4 ==>
      0 <= SnapshotOf(f, nodes, elements, n).cells[i][j] < |SnapshotOf(f, nodes, elements, n).points|
  {
  }
}
