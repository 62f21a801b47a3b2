/**
 * `CalcMesh`: owns the node and element vectors. Construction fills them in
 * index loops; `UpdateCoords` rewrites each node in place; `Snapshot` reads
 * them out in order. The vectors are never resized after construction, so
 * they are constant references to arrays whose slots change.
 */
module Mesh {
  import opened Machine
  import opened Floats
  import opened Records
  import opened Kinematics
  import opened Snapshots

  class CalcMesh {
    const nodes: array<CalcNode>
    const elements: array<Element>

    /**
     * Builds one node per coordinate triple and one element per tag
     * quadruple; leftover entries are ignored and no input is rejected.
     */
    constructor (nodesCoords: seq<real>, tetrsPoints: seq<UInt64>)
      ensures fresh(nodes) && fresh(elements)
      ensures nodes[..] == NodesOf(nodesCoords)
      ensures elements[..] == ElementsOf(tetrsPoints)
    {
      var ns := new CalcNode[|nodesCoords| / 3](_ => ZeroNode);
      var i := 0;
      while i < ns.Length
        invariant 0 <= i <= ns.Length
        invariant forall k :: 0 <= k < i ==> ns[k] == NodeFrom(nodesCoords, k)
      {
        var x := nodesCoords[i * 3];
        var y := nodesCoords[i * 3 + 1];
        var z := nodesCoords[i * 3 + 2];
        var smth := x;
        ns[i] := NewNode(x, y, z, smth, 0.0, 0.0, 0.0);
        i := i + 1;
      }
      var es := new Element[|tetrsPoints| / 4](_ => ZeroElement);
      i := 0;
      while i < es.Length
        invariant 0 <= i <= es.Length
        invariant forall k :: 0 <= k < i ==> es[k] == ElementFrom(tetrsPoints, k)
        invariant forall k :: 0 <= k < ns.Length ==> ns[k] == NodeFrom(nodesCoords, k)
      {
        es[i] := Element([SubU64(tetrsPoints[i * 4], 1), SubU64(tetrsPoints[i * 4 + 1], 1),
                          SubU64(tetrsPoints[i * 4 + 2], 1), SubU64(tetrsPoints[i * 4 + 3], 1)]);
        i := i + 1;
      }
      nodes := ns;
      elements := es;
    }

    /**
     * Advances every node to time `t` with step `dt`: the in-plane state is
     * recomputed from the reference position, z is accumulated onto.
     * Elements are not in the frame, so they cannot change.
     */
    method UpdateCoords(f: FloatOps, t: real, dt: real)
      modifies nodes
      ensures nodes[..] == UpdateAll(f, old(nodes[..]), t, dt)
    {
      ghost var before := nodes[..];
      var omega := f.mul(f.mul(2.0, M_PI), t);
      var i := 0;
      while i < nodes.Length
        invariant 0 <= i <= nodes.Length
        invariant nodes[..i] == UpdateAll(f, before, t, dt)[..i]
        invariant nodes[i..] == before[i..]
      {
        var node := nodes[i];
        var rx0 := node.initX;
        var ry0 := node.initY;
        var r := f.sqrt(f.add(f.mul(rx0, rx0), f.mul(ry0, ry0)));
        var theta0 := f.atan2(ry0, rx0);
        var theta := f.add(theta0, f.mul(omega, t));
        var x := f.mul(r, f.cos(theta));
        var y := f.mul(r, f.sin(theta));
        var z := f.add(node.z, f.mul(f.mul(10.0, f.cos(f.mul(5.0, t))), dt));
        var vx := f.mul(f.mul(-omega, r), f.sin(theta));
        var vy := f.mul(f.mul(omega, r), f.cos(theta));
        var vz := f.mul(10.0, f.cos(f.mul(5.0, t)));
        UpdateNodeSpelledOut(f, node, t, dt, omega, r, theta);
        node := node.(x := x, y := y, z := z, vx := vx, vy := vy, vz := vz);
        nodes[i] := node;
        i := i + 1;
      }
      assert nodes[..] == nodes[..i];
    }

    /** Collects the current state, point by point and cell by cell, for step `snapNumber`. */
    method Snapshot(f: FloatOps, snapNumber: UInt32) returns (s: Grid)
      ensures s == SnapshotOf(f, nodes[..], elements[..], snapNumber)
    {
      var pts: seq<Vec3> := [];
      var vel: seq<Vec3> := [];
      var smth: seq<real> := [];
      var i := 0;
      while i < nodes.Length
        invariant 0 <= i <= nodes.Length
        invariant |pts| == |vel| == |smth| == i
        invariant forall k :: 0 <= k < i ==>
          pts[k] == PointOf(f, nodes[k]) && vel[k] == VelocityOf(nodes[k]) && smth[k] == nodes[k].smth
      {
        var node := nodes[i];
        pts := pts + [Vec3(f.toFloat(node.x), f.toFloat(node.y), f.toFloat(node.z))];
        vel := vel + [Vec3(node.vx, node.vy, node.vz)];
        smth := smth + [node.smth];
        i := i + 1;
      }
      var cells: seq<seq<int>> := [];
      i := 0;
      while i < elements.Length
        invariant 0 <= i <= elements.Length
        invariant |cells| == i
        invariant forall k :: 0 <= k < i ==> cells[k] == CellOf(elements[k])
      {
        var elem := elements[i];
        var tetra := [ToIdType(elem.nodesIds[0]), ToIdType(elem.nodesIds[1]),
                      ToIdType(elem.nodesIds[2]), ToIdType(elem.nodesIds[3])];
        cells := cells + [tetra];
        i := i + 1;
      }
      s := Grid(FileName(snapNumber), pts, vel, smth, cells);
    }

    /** One simulation step: update to time `t`, then the snapshot numbered `step`. */
    method Step(f: FloatOps, t: real, dt: real, step: UInt32) returns (s: Grid)
      modifies nodes
      ensures nodes[..] == UpdateAll(f, old(nodes[..]), t, dt)
      ensures s == SnapshotOf(f, nodes[..], elements[..], step)
    {
      UpdateCoords(f, t, dt);
      s := Snapshot(f, step);
    }
  }
}
