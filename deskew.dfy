/**
  The backward deskew walk of IMUProcessor::undistort (imu_processor.cpp lines
  101-131): the compensation formula, the two-pointer walk as specification functions
  that also log every rewrite, the in-place method, and what the walk guarantees.
 */
module Deskew {
  import opened Geometry
  import opened Sensors

  /** The pose captured at line 102-105, after the final extrapolation step. */
  datatype RefPose = RefPose(rot: Mat3, pos: Vec3, rotExt: Mat3, posExt: Vec3)

  /** Line 122: the point's rotation, extrapolated at the tail's angular rate. */
  function PointRotation(head: IMUPose, tail: IMUPose, dt: real, so3Exp: Vec3 -> Mat3): Mat3
  {
    MatMul(head.rot, so3Exp(Scale(tail.gyro, dt)))
  }

  /** Line 123: the point's position, second-order extrapolation from the head. */
  function PointPosition(head: IMUPose, tail: IMUPose, dt: real): (r: Vec3)
    ensures head.vel == Zero() && tail.acc == Zero() ==> r == head.pos
  {
    Add(Add(head.pos, Scale(head.vel, dt)), Scale(tail.acc, 0.5 * dt * dt))
  }

  /** Where the sensor-frame point p lies in the world, seen from the given IMU pose. */
  function WorldPoint(p: Vec3, rot: Mat3, pos: Vec3, rotExt: Mat3, posExt: Vec3): Vec3
  {
    Add(MatVec(rot, Add(MatVec(rotExt, p), posExt)), pos)
  }

  /** Line 124: the point re-expressed in the reference pose's sensor frame. */
  function Compensate(p: Vec3, pointRot: Mat3, pointPos: Vec3, cur: RefPose): Vec3
  {
    MatVec(Transpose(cur.rotExt),
      Sub(MatVec(Transpose(cur.rot), Sub(WorldPoint(p, pointRot, pointPos, cur.rotExt, cur.posExt), cur.pos)), cur.posExt))
  }

  function Coordinates(p: Point): Vec3 { Vec3(p.x, p.y, p.z) }

  /** Lines 120-124: the compensated coordinates of p for the record pair (head, tail). */
  function Compensated(p: Point, head: IMUPose, tail: IMUPose, cur: RefPose, so3Exp: Vec3 -> Mat3): Vec3
  {
    var dt := Offset(p) - head.offset;
    Compensate(Coordinates(p), PointRotation(head, tail, dt, so3Exp), PointPosition(head, tail, dt), cur)
  }

  /**
    The per-point compensation as the walk sees it. The walk's bookkeeping does not
    depend on the arithmetic, so the walk is stated for any compensator.
   */
  type Compensator = (Point, IMUPose, IMUPose) -> Vec3

  /** The compensator of lines 120-124 for the reference pose cur. */
  function Compensation(cur: RefPose, so3Exp: Vec3 -> Mat3): Compensator
  {
    (p: Point, head: IMUPose, tail: IMUPose) => Compensated(p, head, tail, cur, so3Exp)
  }

  /** Lines 124-127: the point with its coordinates replaced; time and intensity stay. */
  function RewritePoint(p: Point, head: IMUPose, tail: IMUPose, comp: Compensator): Point
  {
    var c := comp(p, head, tail);
    p.(x := c.x, y := c.y, z := c.z)
  }

  /** One rewrite done by the walk: the point index, the tail record index and dt. */
  datatype Rewrite = Rewrite(index: nat, record: nat, dt: real)

  /** The walk's state: the points, the point pointer it_pcl and the rewrites so far. */
  datatype Walk = Walk(points: seq<Point>, it: nat, log: seq<Rewrite>)

  /**
    The inner loop of lines 118-130 for the record pair (poses[kp - 1], poses[kp]): it
    stops at the first point, going down, that is not later than the head, or right
    after rewriting point 0.
   */
  function InnerWalk(w: Walk, poses: seq<IMUPose>, kp: nat, comp: Compensator): (r: Walk)
    requires 1 <= kp < |poses| && w.it < |w.points|
    ensures |r.points| == |w.points| && r.it <= w.it
    ensures |w.log| <= |r.log|
    ensures Offset(r.points[r.it]) <= poses[kp - 1].offset
            || (r.it == 0 && |w.log| < |r.log| && r.log[|r.log| - 1].index == 0)
    decreases w.it
  {
    var head := poses[kp - 1];
    var p := w.points[w.it];
    if Offset(p) <= head.offset then w
    else
      var w' := Walk(w.points[w.it := RewritePoint(p, head, poses[kp], comp)], w.it,
                     w.log + [Rewrite(w.it, kp, Offset(p) - head.offset)]);
      if w.it == 0 then w' else InnerWalk(w'.(it := w.it - 1), poses, kp, comp)
  }

  /**
    The outer loop of lines 107-131 from record kp down to record 1; when it ran at
    least once it ends stopped against the leading record poses[0].
   */
  function OuterWalk(w: Walk, poses: seq<IMUPose>, kp: nat, comp: Compensator): (r: Walk)
    requires kp < |poses| && w.it < |w.points|
    ensures |r.points| == |w.points| && r.it < |w.points|
    ensures |w.log| <= |r.log|
    ensures kp >= 1 ==> Offset(r.points[r.it]) <= poses[0].offset
                        || (r.it == 0 && |w.log| < |r.log| && r.log[|r.log| - 1].index == 0)
    decreases kp
  {
    if kp == 0 then w else OuterWalk(InnerWalk(w, poses, kp, comp), poses, kp - 1, comp)
  }

  /** The whole walk: pointer at the last point, outer loop from the last record. */
  function DeskewWalk(pts: seq<Point>, poses: seq<IMUPose>, comp: Compensator): Walk
    requires |pts| > 0 && |poses| > 0
  {
    OuterWalk(Walk(pts, |pts| - 1, []), poses, |poses| - 1, comp)
  }

  /** Lines 118-130: the inner loop for the record pair (poses[kp - 1], poses[kp]). */
  method WalkPoints(cloud: array<Point>, start: nat, poses: seq<IMUPose>, kp: nat, comp: Compensator,
                    ghost log0: seq<Rewrite>) returns (it: nat, ghost log: seq<Rewrite>)
    requires 1 <= kp < |poses| && start < cloud.Length
    modifies cloud
    ensures Walk(cloud[..], it, log) == InnerWalk(Walk(old(cloud[..]), start, log0), poses, kp, comp)
  {
    ghost var inner := InnerWalk(Walk(cloud[..], start, log0), poses, kp, comp);
    var head, tail := poses[kp - 1], poses[kp];
    it, log := start, log0;
    while Offset(cloud[it]) > head.offset
      invariant it < cloud.Length
      invariant InnerWalk(Walk(cloud[..], it, log), poses, kp, comp) == inner
      decreases it
    {
      ghost var before := Walk(cloud[..], it, log);
      var dt := Offset(cloud[it]) - head.offset;
      cloud[it] := RewritePoint(cloud[it], head, tail, comp);
      log := log + [Rewrite(it, kp, dt)];
      assert cloud[..] == before.points[it := RewritePoint(before.points[it], head, tail, comp)];
      if it == 0 {
        assert Walk(cloud[..], it, log) == inner;
        return;
      }
      it := it - 1;
    }
  }

  /** Lines 106-131 on the cloud's point array. */
  method DeskewCloud(cloud: array<Point>, poses: seq<IMUPose>, comp: Compensator)
    requires cloud.Length > 0 && |poses| > 0
    modifies cloud
    ensures cloud[..] == DeskewWalk(old(cloud[..]), poses, comp).points
  {
    ghost var target := DeskewWalk(cloud[..], poses, comp);
    var it: nat := cloud.Length - 1;
    ghost var log: seq<Rewrite> := [];
    var kp: nat := |poses| - 1;
    while kp != 0
      invariant kp < |poses| && it < cloud.Length
      invariant OuterWalk(Walk(cloud[..], it, log), poses, kp, comp) == target
    {
      ghost var w := Walk(cloud[..], it, log);
      assert OuterWalk(w, poses, kp, comp) == OuterWalk(InnerWalk(w, poses, kp, comp), poses, kp - 1, comp);
      it, log := WalkPoints(cloud, it, poses, kp, comp, log);
      assert Walk(cloud[..], it, log) == InnerWalk(w, poses, kp, comp);
      kp := kp - 1;
    }
  }
}
