/**
 * The mesh records `CalcNode` and `Element`, and the array-to-records
 * transformation performed by the `CalcMesh` constructor, as functions on
 * sequences.
 */
module Records {
  import opened Machine

  /**
   * One mesh vertex: current position, reference (construction-time)
   * position, the static scalar field `smth`, and the velocity.
   */
  datatype CalcNode = CalcNode(
    x: real, y: real, z: real,
    initX: real, initY: real, initZ: real,
    smth: real,
    vx: real, vy: real, vz: real)

  /** The default constructor: every field zero. */
  const ZeroNode: CalcNode := CalcNode(0.0, 0.0, 0.0, 0.0, 0.0, 0.0, 0.0, 0.0, 0.0, 0.0)

  /** The seven-argument constructor: the reference position copies the position. */
  function NewNode(x: real, y: real, z: real, smth: real, vx: real, vy: real, vz: real): (n: CalcNode)
    ensures n.x == n.initX == x && n.y == n.initY == y && n.z == n.initZ == z
    ensures n.smth == smth && n.vx == vx && n.vy == vy && n.vz == vz
  {
    CalcNode(x, y, z, x, y, z, smth, vx, vy, vz)
  }

  /** The four node indices of a tetrahedron (`unsigned long nodesIds[4]`). */
  type Tetra = s: seq<UInt64> | |s| == 4 witness [0, 0, 0, 0]

  datatype Element = Element(nodesIds: Tetra)

  /** A value-initialised element, as `resize` leaves it. */
  const ZeroElement: Element := Element([0, 0, 0, 0])

  /** Node `i` built from the flat coordinate array. */
  function NodeFrom(coords: seq<real>, i: nat): CalcNode
    requires i < |coords| / 3
  {
    var x := coords[3 * i];
    NewNode(x, coords[3 * i + 1], coords[3 * i + 2], x, 0.0, 0.0, 0.0)
  }

  /**
   * The nodes the constructor builds: one per complete triple of
   * coordinates, at rest, with the reference position equal to the position
   * and the scalar field equal to x.
   */
  function NodesOf(coords: seq<real>): (ns: seq<CalcNode>)
    ensures |ns| == |coords| / 3
    ensures forall i :: 0 <= i < |ns| ==>
      ns[i].x == ns[i].initX == ns[i].smth == coords[3 * i] &&
      ns[i].y == ns[i].initY == coords[3 * i + 1] &&
      ns[i].z == ns[i].initZ == coords[3 * i + 2] &&
      ns[i].vx == ns[i].vy == ns[i].vz == 0.0
  {
    seq(|coords| / 3, i requires 0 <= i < |coords| / 3 => NodeFrom(coords, i))
  }

  /** Element `i` built from the flat one-based connectivity array. */
  function ElementFrom(tags: seq<UInt64>, i: nat): Element
    requires i < |tags| / 4
  {
    Element([SubU64(tags[4 * i], 1), SubU64(tags[4 * i + 1], 1),
             SubU64(tags[4 * i + 2], 1), SubU64(tags[4 * i + 3], 1)])
  }

  /**
   * The elements the constructor builds: one per complete quadruple of tags,
   * each tag shifted from one-based to zero-based with unsigned subtraction.
   */
  function ElementsOf(tags: seq<UInt64>): (es: seq<Element>)
    ensures |es| == |tags| / 4
    ensures forall i, j :: 0 <= i < |es| && 0 <= j < 4 ==>
      es[i].nodesIds[j] == SubU64(tags[4 * i + j], 1)
  {
    seq(|tags| / 4, i requires 0 <= i < |tags| / 4 => ElementFrom(tags, i))
  }

  /** Coordinates left over after the last complete triple are ignored. */
  lemma TrailingCoordsIgnored(coords: seq<real>, extra: seq<real>)
    requires |coords| % 3 == 0 && |extra| < 3
    ensures NodesOf(coords + extra) == NodesOf(coords)
  {
  }

  /** Tags left over after the last complete quadruple are ignored. */
  lemma TrailingTagsIgnored(tags: seq<UInt64>, extra: seq<UInt64>)
    requires |tags| % 4 == 0 && |extra| < 4
    ensures ElementsOf(tags + extra) == ElementsOf(tags)
  {
  }

  /** A zero-based index is below `count` exactly when its one-based tag is in `[1, count]`. */
  lemma ShiftedTagInRange(tag: UInt64, count: nat)
    requires count < TWO_64
    ensures SubU64(tag, 1) < count <==> 1 <= tag <= count
  {
  }

  /**
   * Every element index lies in `[0, count)` exactly when every tag the
   * constructor reads lies in `[1, count]`; a tag of 0 wraps to 2^64 - 1.
   */
  lemma ElementIndicesInRange(tags: seq<UInt64>, count: nat)
    requires count < TWO_64
    ensures (forall i, j :: 0 <= i < |tags| / 4 && 0 <= j < 4 ==> ElementsOf(tags)[i].nodesIds[j] < count)
        <==> (forall k :: 0 <= k < |tags| / 4 * 4 ==> 1 <= tags[k] <= count)
  {
    var es := ElementsOf(tags);
    if forall i, j :: 0 <= i < |tags| / 4 && 0 <= j < 4 ==> es[i].nodesIds[j] < count {
      forall k | 0 <= k < |tags| / 4 * 4
        ensures 1 <= tags[k] <= count
      {
        var i, j := k / 4, k % 4;
        assert 4 * i + j == k;
        assert es[i].nodesIds[j] < count;
        ShiftedTagInRange(tags[k], count);
      }
    }
    if forall k :: 0 <= k < |tags| / 4 * 4 ==> 1 <= tags[k] <= count {
      forall i, j | 0 <= i < |tags| / 4 && 0 <= j < 4
        ensures es[i].nodesIds[j] < count
      {
        assert 4 * i + j < |tags| / 4 * 4;
        ShiftedTagInRange(tags[4 * i + j], count);
      }
    }
  }
}
