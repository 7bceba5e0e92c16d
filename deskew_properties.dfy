/**
  What the backward deskew walk guarantees, and what it does not: every rewrite uses a
  positive dt against its head record; the pointer only moves down, so each point
  other than the first is rewritten at most once, from its original coordinates; with
  sorted points each such rewrite brackets the point between its head and tail records
  and every point later than the leading record is rewritten; and the first point can
  be rewritten again against earlier records (RevisitOfFirstPoint).
 */
module DeskewProperties {
  import opened Geometry
  import opened Sensors
  import opened Deskew

  /** The indices of the points a log of rewrites has touched. */
  function Indices(log: seq<Rewrite>): set<nat>
  {
    if log == [] then {} else Indices(log[..|log| - 1]) + {log[|log| - 1].index}
  }

  lemma IndicesAppend(log: seq<Rewrite>, e: Rewrite)
    ensures Indices(log + [e]) == Indices(log) + {e.index}
  {
    assert (log + [e])[..|log|] == log;
  }

  /** i was rewritten exactly when some logged rewrite names it. */
  lemma {:induction false} IndicesMembership(log: seq<Rewrite>, i: nat)
    ensures i in Indices(log) <==> exists k :: 0 <= k < |log| && log[k].index == i
  {
    if log != [] {
      var init := log[..|log| - 1];
      IndicesMembership(init, i);
      if i in Indices(init) {
        var k :| 0 <= k < |init| && init[k].index == i;
        assert log[k].index == i;
      }
      if exists k :: 0 <= k < |log| && log[k].index == i {
        var k :| 0 <= k < |log| && log[k].index == i;
        if k < |init| {
          assert init[k].index == i;
        }
      }
    }
  }

  ghost predicate SameTimes(ps: seq<Point>, pts: seq<Point>)
  {
    |ps| == |pts| && forall i :: 0 <= i < |pts| ==> ps[i].curvature == pts[i].curvature
  }

  /** A rewrite of point e.index against head record e.record - 1, with a positive dt. */
  ghost predicate EntryOk(e: Rewrite, pts: seq<Point>, poses: seq<IMUPose>)
  {
    && e.index < |pts| && 1 <= e.record < |poses|
    && e.dt == Offset(pts[e.index]) - poses[e.record - 1].offset
    && e.dt > 0.0
  }

  ghost predicate LogOk(log: seq<Rewrite>, pts: seq<Point>, poses: seq<IMUPose>)
  {
    forall k :: 0 <= k < |log| ==> EntryOk(log[k], pts, poses)
  }

  /** Every rewrite so far is above the pointer, except rewrites of point 0 with the pointer at 0. */
  ghost predicate AbovePointer(log: seq<Rewrite>, it: nat)
  {
    forall k :: 0 <= k < |log| ==> log[k].index > it || (log[k].index == 0 && it == 0)
  }

  /** Rewrites go strictly downwards, except repeated rewrites of point 0. */
  ghost predicate Descending(log: seq<Rewrite>)
  {
    forall k, l :: 0 <= k < l < |log| ==> log[k].index > log[l].index || log[l].index == 0
  }

  ghost predicate Untouched(w: Walk, pts: seq<Point>)
  {
    |w.points| == |pts| && forall i :: 0 <= i < |pts| && i !in Indices(w.log) ==> w.points[i] == pts[i]
  }

  /** A point other than the first holds its one rewrite of its original coordinates. */
  ghost predicate RewrittenFromOriginal(w: Walk, pts: seq<Point>, poses: seq<IMUPose>, comp: Compensator)
    requires |w.points| == |pts| && LogOk(w.log, pts, poses)
  {
    forall k :: 0 <= k < |w.log| && w.log[k].index >= 1 ==>
      w.points[w.log[k].index] == RewritePoint(pts[w.log[k].index], poses[w.log[k].record - 1], poses[w.log[k].record], comp)
  }

  /** Every point above the pointer has been rewritten. */
  ghost predicate Covered(w: Walk, pts: seq<Point>)
  {
    forall i :: w.it < i < |pts| ==> i in Indices(w.log)
  }

  /** The walk's bookkeeping: times kept, log well-formed, pointer and coverage. */
  ghost predicate WalkShape(w: Walk, pts: seq<Point>, poses: seq<IMUPose>)
  {
    && SameTimes(w.points, pts) && w.it < |pts|
    && LogOk(w.log, pts, poses)
    && AbovePointer(w.log, w.it)
    && Descending(w.log)
    && Covered(w, pts)
  }

  ghost predicate WalkInv(w: Walk, pts: seq<Point>, poses: seq<IMUPose>, comp: Compensator)
  {
    && WalkShape(w, pts, poses)
    && Untouched(w, pts)
    && RewrittenFromOriginal(w, pts, poses, comp)
  }

  /** One rewrite of the point under the pointer, before the pointer moves. */
  function RewriteStep(w: Walk, poses: seq<IMUPose>, kp: nat, comp: Compensator): Walk
    requires 1 <= kp < |poses| && w.it < |w.points|
  {
    var p := w.points[w.it];
    Walk(w.points[w.it := RewritePoint(p, poses[kp - 1], poses[kp], comp)], w.it,
         w.log + [Rewrite(w.it, kp, Offset(p) - poses[kp - 1].offset)])
  }

  /** The pointer after a rewrite: one point down, or still at point 0. */
  function Next(it: nat): nat { if it == 0 then 0 else it - 1 }

  lemma StepKeepsShape(w: Walk, pts: seq<Point>, poses: seq<IMUPose>, kp: nat, comp: Compensator)
    requires 1 <= kp < |poses| && WalkShape(w, pts, poses)
    requires Offset(w.points[w.it]) > poses[kp - 1].offset
    ensures WalkShape(RewriteStep(w, poses, kp, comp).(it := Next(w.it)), pts, poses)
  {
    var s := RewriteStep(w, poses, kp, comp);
    var e := Rewrite(w.it, kp, Offset(w.points[w.it]) - poses[kp - 1].offset);
    var s' := s.(it := Next(w.it));
    assert s.log == w.log + [e];
    IndicesAppend(w.log, e);
    assert w.points[w.it].curvature == pts[w.it].curvature;
    assert forall k :: 0 <= k < |w.log| ==> s.log[k] == w.log[k];
    assert SameTimes(s'.points, pts);
    assert LogOk(s'.log, pts, poses);
    assert AbovePointer(s'.log, s'.it);
    assert Descending(s'.log);
    assert Covered(s', pts);
  }

  lemma StepKeepsUntouched(w: Walk, pts: seq<Point>, poses: seq<IMUPose>, kp: nat, comp: Compensator)
    requires 1 <= kp < |poses| && w.it < |w.points| && Untouched(w, pts)
    ensures Untouched(RewriteStep(w, poses, kp, comp).(it := Next(w.it)), pts)
  {
    var s := RewriteStep(w, poses, kp, comp);
    IndicesAppend(w.log, Rewrite(w.it, kp, Offset(w.points[w.it]) - poses[kp - 1].offset));
    forall i | 0 <= i < |pts| && i !in Indices(s.log)
      ensures s.points[i] == pts[i]
    {
      assert i != w.it && i !in Indices(w.log);
    }
  }

  lemma StepKeepsRewritten(w: Walk, pts: seq<Point>, poses: seq<IMUPose>, kp: nat, comp: Compensator)
    requires 1 <= kp < |poses| && w.it < |w.points| == |pts|
    requires Untouched(w, pts) && AbovePointer(w.log, w.it)
    requires LogOk(w.log, pts, poses) && RewrittenFromOriginal(w, pts, poses, comp)
    requires LogOk(RewriteStep(w, poses, kp, comp).log, pts, poses)
    ensures RewrittenFromOriginal(RewriteStep(w, poses, kp, comp).(it := Next(w.it)), pts, poses, comp)
  {
    var s := RewriteStep(w, poses, kp, comp);
    var e := Rewrite(w.it, kp, Offset(w.points[w.it]) - poses[kp - 1].offset);
    assert s.log == w.log + [e];
    if w.it >= 1 {
      IndicesMembership(w.log, w.it);
      assert w.points[w.it] == pts[w.it];
    }
    forall k | 0 <= k < |s.log| && s.log[k].index >= 1
      ensures s.points[s.log[k].index] == RewritePoint(pts[s.log[k].index], poses[s.log[k].record - 1], poses[s.log[k].record], comp)
    {
      if k < |w.log| {
        assert s.log[k] == w.log[k];
        assert s.log[k].index != w.it;
      }
    }
  }

  lemma {:induction false} InnerWalkKeeps(w: Walk, pts: seq<Point>, poses: seq<IMUPose>, kp: nat, comp: Compensator)
    requires 1 <= kp < |poses| && WalkInv(w, pts, poses, comp)
    ensures WalkInv(InnerWalk(w, poses, kp, comp), pts, poses, comp)
    decreases w.it
  {
    if Offset(w.points[w.it]) > poses[kp - 1].offset {
      StepKeepsShape(w, pts, poses, kp, comp);
      StepKeepsUntouched(w, pts, poses, kp, comp);
      StepKeepsRewritten(w, pts, poses, kp, comp);
      var s := RewriteStep(w, poses, kp, comp);
      if w.it != 0 {
        InnerWalkKeeps(s.(it := w.it - 1), pts, poses, kp, comp);
      }
    }
  }

  lemma {:induction false} OuterWalkKeeps(w: Walk, pts: seq<Point>, poses: seq<IMUPose>, kp: nat, comp: Compensator)
    requires kp < |poses| && WalkInv(w, pts, poses, comp)
    ensures WalkInv(OuterWalk(w, poses, kp, comp), pts, poses, comp)
    decreases kp
  {
    if kp != 0 {
      var r := InnerWalk(w, poses, kp, comp);
      InnerWalkKeeps(w, pts, poses, kp, comp);
      OuterWalkKeeps(r, pts, poses, kp - 1, comp);
      assert OuterWalk(w, poses, kp, comp) == OuterWalk(r, poses, kp - 1, comp);
    }
  }

  /**
    What the walk guarantees for any input: only coordinates change; every rewrite uses
    dt = offset - head offset > 0; the rewritten point indices never increase and every
    index other than 0 occurs at most once; a point never rewritten keeps its value; a
    point other than the first that was rewritten holds the compensation of its
    original coordinates against the logged record pair.
   */
  lemma DeskewGuarantees(pts: seq<Point>, poses: seq<IMUPose>, comp: Compensator)
    requires |pts| > 0 && |poses| > 0
    ensures var r := DeskewWalk(pts, poses, comp);
      && SameTimes(r.points, pts)
      && LogOk(r.log, pts, poses)
      && Descending(r.log)
      && Untouched(r, pts)
      && RewrittenFromOriginal(r, pts, poses, comp)
  {
    OuterWalkKeeps(Walk(pts, |pts| - 1, []), pts, poses, |poses| - 1, comp);
  }

  /** Every logged rewrite names a record pair of poses. */
  predicate RecordsInRange(log: seq<Rewrite>, poses: seq<IMUPose>)
  {
    forall k :: 0 <= k < |log| ==> 1 <= log[k].record < |poses|
  }

  /** The point p at index i after every logged rewrite of index i, applied in log order. */
  function Replay(p: Point, i: nat, log: seq<Rewrite>, poses: seq<IMUPose>, comp: Compensator): Point
    requires RecordsInRange(log, poses)
  {
    if log == [] then p
    else
      var q := Replay(p, i, log[..|log| - 1], poses, comp);
      var e := log[|log| - 1];
      if e.index == i then RewritePoint(q, poses[e.record - 1], poses[e.record], comp) else q
  }

  /** Every point of the walk is its original point with the log replayed over it. */
  ghost predicate Replayed(w: Walk, pts: seq<Point>, poses: seq<IMUPose>, comp: Compensator)
  {
    && |w.points| == |pts| && RecordsInRange(w.log, poses)
    && forall i :: 0 <= i < |pts| ==> w.points[i] == Replay(pts[i], i, w.log, poses, comp)
  }

  lemma StepReplays(w: Walk, pts: seq<Point>, poses: seq<IMUPose>, kp: nat, comp: Compensator)
    requires 1 <= kp < |poses| && w.it < |w.points| && Replayed(w, pts, poses, comp)
    ensures Replayed(RewriteStep(w, poses, kp, comp), pts, poses, comp)
  {
    var s := RewriteStep(w, poses, kp, comp);
    assert s.log[..|s.log| - 1] == w.log;
  }

  lemma {:induction false} InnerWalkReplays(w: Walk, pts: seq<Point>, poses: seq<IMUPose>, kp: nat, comp: Compensator)
    requires 1 <= kp < |poses| && w.it < |w.points| && Replayed(w, pts, poses, comp)
    ensures Replayed(InnerWalk(w, poses, kp, comp), pts, poses, comp)
    decreases w.it
  {
    if Offset(w.points[w.it]) > poses[kp - 1].offset {
      StepReplays(w, pts, poses, kp, comp);
      if w.it != 0 {
        InnerWalkReplays(RewriteStep(w, poses, kp, comp).(it := w.it - 1), pts, poses, kp, comp);
      }
    }
  }

  lemma {:induction false} OuterWalkReplays(w: Walk, pts: seq<Point>, poses: seq<IMUPose>, kp: nat, comp: Compensator)
    requires kp < |poses| && w.it < |w.points| && Replayed(w, pts, poses, comp)
    ensures Replayed(OuterWalk(w, poses, kp, comp), pts, poses, comp)
    decreases kp
  {
    if kp != 0 {
      var r := InnerWalk(w, poses, kp, comp);
      InnerWalkReplays(w, pts, poses, kp, comp);
      OuterWalkReplays(r, pts, poses, kp - 1, comp);
      assert OuterWalk(w, poses, kp, comp) == OuterWalk(r, poses, kp - 1, comp);
    }
  }

  /** The whole walk replays its log over the original points (PointReplays spells it out). */
  lemma DeskewReplays(pts: seq<Point>, poses: seq<IMUPose>, comp: Compensator)
    requires |pts| > 0 && |poses| > 0
    ensures Replayed(DeskewWalk(pts, poses, comp), pts, poses, comp)
  {
    var w0 := Walk(pts, |pts| - 1, []);
    assert Replayed(w0, pts, poses, comp);
    OuterWalkReplays(w0, pts, poses, |poses| - 1, comp);
  }

  /**
    Point i ends as its original value with every logged rewrite of index i applied in
    log order, each to the previous result. For i = 0 these are the revisits of lines
    118 and 128-129; for any other index there is at most one (DeskewGuarantees).
   */
  lemma PointReplays(pts: seq<Point>, poses: seq<IMUPose>, comp: Compensator, i: nat)
    requires |poses| > 0 && i < |pts|
    ensures var r := DeskewWalk(pts, poses, comp);
      RecordsInRange(r.log, poses) && r.points[i] == Replay(pts[i], i, r.log, poses, comp)
  {
    DeskewReplays(pts, poses, comp);
  }

  /** The scan end is a fixed point: compensation at the reference pose is the identity. */
  lemma CompensateAtReference(p: Vec3, cur: RefPose)
    requires Orthonormal(cur.rot) && Orthonormal(cur.rotExt)
    ensures Compensate(p, cur.rot, cur.pos, cur) == p
  {
    var u := Add(MatVec(cur.rotExt, p), cur.posExt);
    assert Sub(WorldPoint(p, cur.rot, cur.pos, cur.rotExt, cur.posExt), cur.pos) == MatVec(cur.rot, u);
    TransposeUndoes(cur.rot, u);
    assert Sub(u, cur.posExt) == MatVec(cur.rotExt, p);
    TransposeUndoes(cur.rotExt, p);
  }

  /**
    Compensation keeps the point where it was in the world: the rewritten point seen
    from the reference pose is the original point seen from the point's own pose.
   */
  lemma CompensateKeepsWorldPoint(p: Vec3, pointRot: Mat3, pointPos: Vec3, cur: RefPose)
    requires Orthonormal(Transpose(cur.rot)) && Orthonormal(Transpose(cur.rotExt))
    ensures WorldPoint(Compensate(p, pointRot, pointPos, cur), cur.rot, cur.pos, cur.rotExt, cur.posExt)
            == WorldPoint(p, pointRot, pointPos, cur.rotExt, cur.posExt)
  {
    var w := WorldPoint(p, pointRot, pointPos, cur.rotExt, cur.posExt);
    var d := Sub(w, cur.pos);
    var u := Sub(MatVec(Transpose(cur.rot), d), cur.posExt);
    RotationUndoesTranspose(cur.rotExt, u);
    assert Add(MatVec(cur.rotExt, Compensate(p, pointRot, pointPos, cur)), cur.posExt) == MatVec(Transpose(cur.rot), d);
    RotationUndoesTranspose(cur.rot, d);
  }

  /** A record with no motion: its rotation and position are the reference pose's, nothing moves. */
  predicate AtRest(pose: IMUPose, cur: RefPose)
  {
    pose.rot == cur.rot && pose.pos == cur.pos && pose.vel == Zero() && pose.acc == Zero() && pose.gyro == Zero()
  }

  ghost predicate Stationary(poses: seq<IMUPose>, cur: RefPose, so3Exp: Vec3 -> Mat3)
  {
    && Orthonormal(cur.rot) && Orthonormal(cur.rotExt) && so3Exp(Zero()) == Identity3()
    && forall j :: 0 <= j < |poses| ==> AtRest(poses[j], cur)
  }

  lemma CompensatedAtRest(p: Point, head: IMUPose, tail: IMUPose, cur: RefPose, so3Exp: Vec3 -> Mat3)
    requires AtRest(head, cur) && AtRest(tail, cur)
    requires Orthonormal(cur.rot) && Orthonormal(cur.rotExt) && so3Exp(Zero()) == Identity3()
    ensures Compensated(p, head, tail, cur, so3Exp) == Coordinates(p)
  {
    var dt := Offset(p) - head.offset;
    assert Scale(tail.gyro, dt) == Zero();
    MatMulIdentity(cur.rot);
    assert PointRotation(head, tail, dt, so3Exp) == cur.rot;
    assert PointPosition(head, tail, dt) == cur.pos;
    CompensateAtReference(Coordinates(p), cur);
  }

  /** A compensator that leaves every point where it is, for every consecutive record pair. */
  ghost predicate FixesPoints(comp: Compensator, poses: seq<IMUPose>)
  {
    forall p: Point, j :: 1 <= j < |poses| ==> comp(p, poses[j - 1], poses[j]) == Coordinates(p)
  }

  lemma {:induction false} InnerWalkFixed(w: Walk, poses: seq<IMUPose>, kp: nat, comp: Compensator)
    requires 1 <= kp < |poses| && w.it < |w.points| && FixesPoints(comp, poses)
    ensures InnerWalk(w, poses, kp, comp).points == w.points
    decreases w.it
  {
    if Offset(w.points[w.it]) > poses[kp - 1].offset {
      var s := RewriteStep(w, poses, kp, comp);
      var p := w.points[w.it];
      assert comp(p, poses[kp - 1], poses[kp]) == Coordinates(p);
      assert RewritePoint(p, poses[kp - 1], poses[kp], comp) == p;
      assert s.points == w.points;
      if w.it != 0 {
        InnerWalkFixed(s.(it := w.it - 1), poses, kp, comp);
      }
    }
  }

  lemma {:induction false} OuterWalkFixed(w: Walk, poses: seq<IMUPose>, kp: nat, comp: Compensator)
    requires kp < |poses| && w.it < |w.points| && FixesPoints(comp, poses)
    ensures OuterWalk(w, poses, kp, comp).points == w.points
    decreases kp
  {
    if kp != 0 {
      InnerWalkFixed(w, poses, kp, comp);
      OuterWalkFixed(InnerWalk(w, poses, kp, comp), poses, kp - 1, comp);
    }
  }

  /** Without motion during the scan the walk leaves every point as it was. */
  lemma DeskewAtRest(pts: seq<Point>, poses: seq<IMUPose>, cur: RefPose, so3Exp: Vec3 -> Mat3)
    requires |pts| > 0 && |poses| > 0 && Stationary(poses, cur, so3Exp)
    ensures DeskewWalk(pts, poses, Compensation(cur, so3Exp)).points == pts
  {
    var comp := Compensation(cur, so3Exp);
    forall p: Point, j | 1 <= j < |poses|
      ensures comp(p, poses[j - 1], poses[j]) == Coordinates(p)
    {
      CompensatedAtRest(p, poses[j - 1], poses[j], cur, so3Exp);
    }
    OuterWalkFixed(Walk(pts, |pts| - 1, []), poses, |poses| - 1, comp);
  }

  /** Every logged rewrite of a point other than the first lies no later than its tail record. */
  ghost predicate Bracketed(log: seq<Rewrite>, pts: seq<Point>, poses: seq<IMUPose>)
  {
    forall k :: 0 <= k < |log| && 1 <= log[k].index < |pts| && log[k].record + 1 < |poses| ==>
      Offset(pts[log[k].index]) <= poses[log[k].record].offset
  }

  /** Before the pass for tail record kp: the pointed point is not later than that record, unless it is the last record or point 0 is done. */
  ghost predicate Frontier(w: Walk, pts: seq<Point>, poses: seq<IMUPose>, kp: nat)
    requires w.it < |pts| && kp < |poses|
  {
    kp + 1 == |poses| || (w.it == 0 && 0 in Indices(w.log)) || Offset(pts[w.it]) <= poses[kp].offset
  }

  /** A rewrite at the frontier brackets the rewritten point below its tail record. */
  lemma StepKeepsBracketed(w: Walk, pts: seq<Point>, poses: seq<IMUPose>, kp: nat, comp: Compensator)
    requires 1 <= kp < |poses| && WalkShape(w, pts, poses) && Offset(w.points[w.it]) > poses[kp - 1].offset
    requires Frontier(w, pts, poses, kp) && Bracketed(w.log, pts, poses)
    ensures Bracketed(RewriteStep(w, poses, kp, comp).log, pts, poses)
  {
    var s := RewriteStep(w, poses, kp, comp);
    var e := Rewrite(w.it, kp, Offset(w.points[w.it]) - poses[kp - 1].offset);
    assert s.log == w.log + [e];
    forall k | 0 <= k < |s.log| && 1 <= s.log[k].index < |pts| && s.log[k].record + 1 < |poses|
      ensures Offset(pts[s.log[k].index]) <= poses[s.log[k].record].offset
    {
      if k < |w.log| {
        assert s.log[k] == w.log[k];
      }
    }
  }

  lemma {:induction false} InnerWalkBrackets(w: Walk, pts: seq<Point>, poses: seq<IMUPose>, kp: nat, comp: Compensator)
    requires 1 <= kp < |poses| && WalkShape(w, pts, poses) && SortedByOffset(pts)
    requires Frontier(w, pts, poses, kp) && Bracketed(w.log, pts, poses)
    ensures Bracketed(InnerWalk(w, poses, kp, comp).log, pts, poses)
    decreases w.it
  {
    if Offset(w.points[w.it]) > poses[kp - 1].offset {
      var s := RewriteStep(w, poses, kp, comp);
      StepKeepsBracketed(w, pts, poses, kp, comp);
      if w.it != 0 {
        StepKeepsShape(w, pts, poses, kp, comp);
        var s' := s.(it := w.it - 1);
        assert Frontier(s', pts, poses, kp);
        InnerWalkBrackets(s', pts, poses, kp, comp);
      }
    }
  }

  lemma {:induction false} InnerWalkKeepsShape(w: Walk, pts: seq<Point>, poses: seq<IMUPose>, kp: nat, comp: Compensator)
    requires 1 <= kp < |poses| && WalkShape(w, pts, poses)
    ensures WalkShape(InnerWalk(w, poses, kp, comp), pts, poses)
    decreases w.it
  {
    if Offset(w.points[w.it]) > poses[kp - 1].offset && w.it != 0 {
      StepKeepsShape(w, pts, poses, kp, comp);
      InnerWalkKeepsShape(RewriteStep(w, poses, kp, comp).(it := w.it - 1), pts, poses, kp, comp);
    } else if Offset(w.points[w.it]) > poses[kp - 1].offset {
      StepKeepsShape(w, pts, poses, kp, comp);
    }
  }

  /** Where an inner pass stops is the frontier for the next record pair down. */
  lemma StoppedAtFrontier(r: Walk, pts: seq<Point>, poses: seq<IMUPose>, kp: nat)
    requires 1 <= kp < |poses| && WalkShape(r, pts, poses)
    requires Offset(r.points[r.it]) <= poses[kp - 1].offset
             || (r.it == 0 && |r.log| > 0 && r.log[|r.log| - 1].index == 0)
    ensures Frontier(r, pts, poses, kp - 1)
  {
    if !(Offset(r.points[r.it]) <= poses[kp - 1].offset) {
      assert r.log == r.log[..|r.log| - 1] + [r.log[|r.log| - 1]];
      IndicesAppend(r.log[..|r.log| - 1], r.log[|r.log| - 1]);
    }
  }

  lemma {:induction false} OuterWalkBrackets(w: Walk, pts: seq<Point>, poses: seq<IMUPose>, kp: nat, comp: Compensator)
    requires kp < |poses| && WalkShape(w, pts, poses) && SortedByOffset(pts)
    requires Frontier(w, pts, poses, kp) && Bracketed(w.log, pts, poses)
    ensures Bracketed(OuterWalk(w, poses, kp, comp).log, pts, poses)
    decreases kp
  {
    if kp != 0 {
      var r := InnerWalk(w, poses, kp, comp);
      InnerWalkBrackets(w, pts, poses, kp, comp);
      InnerWalkKeepsShape(w, pts, poses, kp, comp);
      StoppedAtFrontier(r, pts, poses, kp);
      OuterWalkBrackets(r, pts, poses, kp - 1, comp);
    }
  }

  /**
    With the points sorted by time, every rewrite of a point other than the first
    brackets it between its head and tail records: head offset < point offset <= tail
    offset (the last record only bounds it from below).
   */
  lemma DeskewBrackets(pts: seq<Point>, poses: seq<IMUPose>, comp: Compensator)
    requires |pts| > 0 && |poses| > 0 && SortedByOffset(pts)
    ensures var r := DeskewWalk(pts, poses, comp);
      && LogOk(r.log, pts, poses)
      && forall k :: 0 <= k < |r.log| && r.log[k].index >= 1 ==>
           poses[r.log[k].record - 1].offset < Offset(pts[r.log[k].index])
           && (r.log[k].record + 1 < |poses| ==> Offset(pts[r.log[k].index]) <= poses[r.log[k].record].offset)
  {
    OuterWalkBrackets(Walk(pts, |pts| - 1, []), pts, poses, |poses| - 1, comp);
    OuterWalkKeeps(Walk(pts, |pts| - 1, []), pts, poses, |poses| - 1, comp);
  }

  /** With the points sorted by time, every point later than the leading record is rewritten. */
  lemma DeskewCovers(pts: seq<Point>, poses: seq<IMUPose>, comp: Compensator)
    requires |pts| > 0 && |poses| >= 2 && SortedByOffset(pts)
    ensures var r := DeskewWalk(pts, poses, comp);
      forall i :: 0 <= i < |pts| && Offset(pts[i]) > poses[0].offset ==> i in Indices(r.log)
  {
    var r := DeskewWalk(pts, poses, comp);
    OuterWalkKeeps(Walk(pts, |pts| - 1, []), pts, poses, |poses| - 1, comp);
    if !(Offset(r.points[r.it]) <= poses[0].offset) {
      assert r.log == r.log[..|r.log| - 1] + [r.log[|r.log| - 1]];
      IndicesAppend(r.log[..|r.log| - 1], r.log[|r.log| - 1]);
    }
    forall i | 0 <= i < |pts| && Offset(pts[i]) > poses[0].offset
      ensures i in Indices(r.log)
    {
      if i <= r.it {
        assert Offset(pts[i]) <= Offset(pts[r.it]);
      }
    }
  }

  /** When no record precedes the scan start, points at or before the scan start keep their values. */
  lemma DeskewKeepsEarlyPoints(pts: seq<Point>, poses: seq<IMUPose>, comp: Compensator)
    requires |pts| > 0 && |poses| > 0
    requires forall j :: 0 <= j < |poses| ==> poses[j].offset >= 0.0
    ensures var r := DeskewWalk(pts, poses, comp);
      forall i :: 0 <= i < |pts| && Offset(pts[i]) <= 0.0 ==> r.points[i] == pts[i] && i !in Indices(r.log)
  {
    var r := DeskewWalk(pts, poses, comp);
    DeskewGuarantees(pts, poses, comp);
    forall i | 0 <= i < |pts| && Offset(pts[i]) <= 0.0
      ensures i !in Indices(r.log)
    {
      IndicesMembership(r.log, i);
    }
  }

  /** The inner pass, one rewrite at a time. */
  lemma InnerWalkUnfolds(w: Walk, poses: seq<IMUPose>, kp: nat, comp: Compensator)
    requires 1 <= kp < |poses| && w.it < |w.points|
    ensures Offset(w.points[w.it]) <= poses[kp - 1].offset ==> InnerWalk(w, poses, kp, comp) == w
    ensures Offset(w.points[w.it]) > poses[kp - 1].offset && w.it == 0 ==>
              InnerWalk(w, poses, kp, comp) == RewriteStep(w, poses, kp, comp)
    ensures Offset(w.points[w.it]) > poses[kp - 1].offset && w.it > 0 ==>
              InnerWalk(w, poses, kp, comp) == InnerWalk(RewriteStep(w, poses, kp, comp).(it := w.it - 1), poses, kp, comp)
  {
  }

  /**
    The walk can rewrite the first point more than once: with two points, point 0
    between records 1 and 2 and point 1 after record 1, point 0 is rewritten against
    the pair (1, 2) and then once more, from its rewritten value, against the pair
    (0, 1), although it lies after record 1.
   */
  lemma RevisitOfFirstPoint(pts: seq<Point>, poses: seq<IMUPose>, comp: Compensator)
    requires |pts| == 2 && |poses| == 3
    requires poses[0].offset < poses[1].offset < Offset(pts[0]) <= Offset(pts[1])
    ensures var r := DeskewWalk(pts, poses, comp);
      && |r.log| == 3 && r.log[0].index == 1 && r.log[1].index == 0 && r.log[2].index == 0
      && r.log[1].record == 2 && r.log[2].record == 1
      && r.log[2].dt == Offset(pts[0]) - poses[0].offset > poses[1].offset - poses[0].offset
      && r.points[0] == RewritePoint(RewritePoint(pts[0], poses[1], poses[2], comp), poses[0], poses[1], comp)
  {
    var w0 := Walk(pts, 1, []);
    var s0 := RewriteStep(w0, poses, 2, comp);
    InnerWalkUnfolds(w0, poses, 2, comp);
    var w1 := s0.(it := 0);
    assert w1.points[0].curvature == pts[0].curvature;
    InnerWalkUnfolds(w1, poses, 2, comp);
    var w2 := RewriteStep(w1, poses, 2, comp);
    assert w2.points[0].curvature == pts[0].curvature;
    InnerWalkUnfolds(w2, poses, 1, comp);
    var w3 := RewriteStep(w2, poses, 1, comp);
    assert OuterWalk(w0, poses, 2, comp) == OuterWalk(w2, poses, 1, comp);
    assert OuterWalk(w2, poses, 1, comp) == OuterWalk(w3, poses, 0, comp);
  }
}
