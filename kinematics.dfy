/**
 * The prescribed motion law of `updateCoords`: rotation about the z axis at
 * an angular rate that grows with time, plus a vertical drift accumulated
 * onto the current z. Trigonometric and arithmetic primitives are abstract
 * (`FloatOps`), so the results below hold for any rounding behaviour.
 */
module Kinematics {
  import opened Floats
  import opened Records

  /** `omega = 2.0 * M_PI * t`. */
  function Omega(f: FloatOps, t: real): real
  {
    f.mul(f.mul(2.0, M_PI), t)
  }

  /** The vertical forcing term `10 * cos(5 * t)`; it depends on `t` alone. */
  function Forcing(f: FloatOps, t: real): real
  {
    f.mul(10.0, f.cos(f.mul(5.0, t)))
  }

  /** The in-plane part of a node's state: position and velocity in x and y. */
  datatype Planar = Planar(x: real, y: real, vx: real, vy: real)

  /**
   * The in-plane state at time `t` of a node whose reference position is
   * `(x0, y0)`: radius and initial phase from the reference position, phase
   * advanced by `omega * t`.
   */
  function PlanarMotion(f: FloatOps, x0: real, y0: real, t: real): Planar
  {
    var omega := Omega(f, t);
    var r := f.sqrt(f.add(f.mul(x0, x0), f.mul(y0, y0)));
    var theta := f.add(f.atan2(y0, x0), f.mul(omega, t));
    Planar(f.mul(r, f.cos(theta)), f.mul(r, f.sin(theta)),
           f.mul(f.mul(-omega, r), f.sin(theta)), f.mul(f.mul(omega, r), f.cos(theta)))
  }

  /** The in-plane state currently stored in a node. */
  function PlanarOf(n: CalcNode): Planar
  {
    Planar(n.x, n.y, n.vx, n.vy)
  }

  /**
   * One node's update at time `t` with step `dt`. Only position and velocity
   * change; the reference position and the scalar field are kept; the new z
   * is the old z plus the new vertical velocity times `dt`.
   */
  function UpdateNode(f: FloatOps, n: CalcNode, t: real, dt: real): (m: CalcNode)
    ensures m.initX == n.initX && m.initY == n.initY && m.initZ == n.initZ && m.smth == n.smth
    ensures PlanarOf(m) == PlanarMotion(f, n.initX, n.initY, t)
    ensures m.vz == Forcing(f, t) && m.z == f.add(n.z, f.mul(m.vz, dt))
  {
    var p := PlanarMotion(f, n.initX, n.initY, t);
    var vz := Forcing(f, t);
    n.(x := p.x, y := p.y, z := f.add(n.z, f.mul(vz, dt)), vx := p.vx, vy := p.vy, vz := vz)
  }

  /** `UpdateNode` spelled out with the intermediate values the update loop names. */
  lemma UpdateNodeSpelledOut(f: FloatOps, n: CalcNode, t: real, dt: real, omega: real, r: real, theta: real)
    requires omega == f.mul(f.mul(2.0, M_PI), t)
    requires r == f.sqrt(f.add(f.mul(n.initX, n.initX), f.mul(n.initY, n.initY)))
    requires theta == f.add(f.atan2(n.initY, n.initX), f.mul(omega, t))
    ensures UpdateNode(f, n, t, dt) == n.(
              x := f.mul(r, f.cos(theta)),
              y := f.mul(r, f.sin(theta)),
              z := f.add(n.z, f.mul(f.mul(10.0, f.cos(f.mul(5.0, t))), dt)),
              vx := f.mul(f.mul(-omega, r), f.sin(theta)),
              vy := f.mul(f.mul(omega, r), f.cos(theta)),
              vz := f.mul(10.0, f.cos(f.mul(5.0, t))))
  {
  }

  /** Every node updated on its own: node `i` of the result depends on node `i` alone. */
  function UpdateAll(f: FloatOps, nodes: seq<CalcNode>, t: real, dt: real): (r: seq<CalcNode>)
    ensures |r| == |nodes|
    ensures forall i :: 0 <= i < |r| ==> r[i] == UpdateNode(f, nodes[i], t, dt)
  {
    seq(|nodes|, i requires 0 <= i < |nodes| => UpdateNode(f, nodes[i], t, dt))
  }

  /**
   * Nodes do not influence each other: updating a concatenation is updating
   * each part, so the nodes may be processed in any grouping or order.
   */
  lemma UpdateAllSplits(f: FloatOps, a: seq<CalcNode>, b: seq<CalcNode>, t: real, dt: real)
    ensures UpdateAll(f, a + b, t, dt) == UpdateAll(f, a, t, dt) + UpdateAll(f, b, t, dt)
  {
  }

  /**
   * The in-plane state after an update depends only on the reference
   * position and `t`, never on the node's previous position, velocity or z,
   * nor on `dt`.
   */
  lemma PlanarForgetsHistory(f: FloatOps, a: CalcNode, b: CalcNode, t: real, dtA: real, dtB: real)
    requires a.initX == b.initX && a.initY == b.initY
    ensures PlanarOf(UpdateNode(f, a, t, dtA)) == PlanarOf(UpdateNode(f, b, t, dtB))
  {
  }

  /** The time after `k` steps: `t += dt` repeated `k` times from 0, each sum rounded. */
  function TimeAt(f: FloatOps, dt: real, k: nat): real
  {
    if k == 0 then 0.0 else f.add(TimeAt(f, dt, k - 1), dt)
  }

  /**
   * Only with exact addition is the time after `k` steps `k * dt`; with
   * rounded addition it is the accumulated sum `TimeAt`.
   */
  lemma {:induction false} TimeAtExact(f: FloatOps, dt: real, k: nat)
    requires forall a, b :: f.add(a, b) == a + b
    ensures TimeAt(f, dt, k) == k as real * dt
  {
    if k > 0 {
      TimeAtExact(f, dt, k - 1);
    }
  }

  /** The update times `t_1, ..., t_k` in step order. */
  function Times(f: FloatOps, dt: real, k: nat): (ts: seq<real>)
    ensures |ts| == k
    ensures forall i :: 0 <= i < k ==> ts[i] == TimeAt(f, dt, i + 1)
  {
    if k == 0 then [] else Times(f, dt, k - 1) + [TimeAt(f, dt, k)]
  }

  /** The node array after `k` updates, the i-th at time `t_i`. */
  function NodesAfter(f: FloatOps, nodes0: seq<CalcNode>, dt: real, k: nat): seq<CalcNode>
  {
    if k == 0 then nodes0 else UpdateAll(f, NodesAfter(f, nodes0, dt, k - 1), TimeAt(f, dt, k), dt)
  }

  /** The vertical drift as a left fold: `z := z + 10 cos(5 t) * dt` for each `t` in order. */
  function ZFold(f: FloatOps, dt: real, z: real, ts: seq<real>): real
    decreases |ts|
  {
    if ts == [] then z else ZFold(f, dt, f.add(z, f.mul(Forcing(f, ts[0]), dt)), ts[1..])
  }

  /** Folding one more time onto the end is one more drift step. */
  lemma {:induction false} ZFoldSnoc(f: FloatOps, dt: real, z: real, ts: seq<real>, t: real)
    ensures ZFold(f, dt, z, ts + [t]) == f.add(ZFold(f, dt, z, ts), f.mul(Forcing(f, t), dt))
    decreases |ts|
  {
    if ts != [] {
      assert (ts + [t])[1..] == ts[1..] + [t];
      ZFoldSnoc(f, dt, f.add(z, f.mul(Forcing(f, ts[0]), dt)), ts[1..], t);
    }
  }

  /**
   * Updates never touch the node count, the reference positions or the
   * scalar field, however many steps are taken.
   */
  lemma {:induction false} ReferencesPreserved(f: FloatOps, nodes0: seq<CalcNode>, dt: real, k: nat)
    ensures |NodesAfter(f, nodes0, dt, k)| == |nodes0|
    ensures forall i :: 0 <= i < |nodes0| ==>
      var n := NodesAfter(f, nodes0, dt, k)[i];
      n.initX == nodes0[i].initX && n.initY == nodes0[i].initY &&
      n.initZ == nodes0[i].initZ && n.smth == nodes0[i].smth
  {
    if k > 0 {
      ReferencesPreserved(f, nodes0, dt, k - 1);
    }
  }

  /**
   * After at least one step, a node's in-plane state and vertical velocity
   * are those of the motion law at the latest time, computed from its
   * construction-time reference position.
   */
  lemma MotionAfter(f: FloatOps, nodes0: seq<CalcNode>, dt: real, k: nat, i: nat)
    requires 1 <= k && i < |nodes0|
    ensures i < |NodesAfter(f, nodes0, dt, k)|
    ensures PlanarOf(NodesAfter(f, nodes0, dt, k)[i])
         == PlanarMotion(f, nodes0[i].initX, nodes0[i].initY, TimeAt(f, dt, k))
    ensures NodesAfter(f, nodes0, dt, k)[i].vz == Forcing(f, TimeAt(f, dt, k))
  {
    ReferencesPreserved(f, nodes0, dt, k - 1);
  }

  /**
   * After `k` steps a node's z is its starting z with the drift of every
   * update time folded on in step order.
   */
  lemma {:induction false} ZDriftAfter(f: FloatOps, nodes0: seq<CalcNode>, dt: real, k: nat, i: nat)
    requires i < |nodes0|
    ensures i < |NodesAfter(f, nodes0, dt, k)|
    ensures NodesAfter(f, nodes0, dt, k)[i].z == ZFold(f, dt, nodes0[i].z, Times(f, dt, k))
  {
    ReferencesPreserved(f, nodes0, dt, k);
    if k > 0 {
      ZDriftAfter(f, nodes0, dt, k - 1, i);
      ZFoldSnoc(f, dt, nodes0[i].z, Times(f, dt, k - 1), TimeAt(f, dt, k));
    }
  }

  /**
   * For a freshly constructed mesh, node `i`'s z after `k` steps is its
   * input z coordinate with every step's drift folded on.
   */
  lemma ConstructedZDrift(f: FloatOps, coords: seq<real>, dt: real, k: nat, i: nat)
    requires i < |coords| / 3
    ensures i < |NodesAfter(f, NodesOf(coords), dt, k)|
    ensures NodesAfter(f, NodesOf(coords), dt, k)[i].z == ZFold(f, dt, coords[3 * i + 2], Times(f, dt, k))
    ensures NodesAfter(f, NodesOf(coords), dt, k)[i].initZ == coords[3 * i + 2]
  {
    ReferencesPreserved(f, NodesOf(coords), dt, k);
    ZDriftAfter(f, NodesOf(coords), dt, k, i);
  }
}
