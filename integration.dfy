/**
  The forward time-windowing loop of IMUProcessor::undistort (imu_processor.cpp lines
  56-99) as specification functions over the working sequence
  ws = [m_last_imu] ++ package.imus, and what that windowing guarantees: skipped and
  clipped pairs, the midpoint input, non-negative steps, telescoping step lengths (no
  instant integrated twice, none left out) and the offsets of the pose cache.
 */
module Integration {
  import opened Geometry
  import opened Covariance
  import opened Estimator
  import opened Sensors

  /** Line 77: the pair ending at `tail` was already integrated by the previous scan. */
  predicate Skipped(tail: IMUData, lastEnd: real)
  {
    tail.timestamp < lastEnd
  }

  /** Lines 79-80: the trapezoidal input of a pair. */
  function Midpoint(head: IMUData, tail: IMUData): Input
  {
    Input(Scale(Add(head.acc, tail.acc), 0.5), Scale(Add(head.gyro, tail.gyro), 0.5))
  }

  /** Lines 82-85: the step length of a pair, clipped at the previous integration end. */
  function StepDt(head: IMUData, tail: IMUData, lastEnd: real): real
  {
    if head.timestamp < lastEnd then tail.timestamp - lastEnd else tail.timestamp - head.timestamp
  }

  /** The predict call the loop makes for the pair (ws[i], ws[i + 1]). */
  function StepAt(ws: seq<IMUData>, i: nat, lastEnd: real): Step
    requires i + 1 < |ws|
  {
    Step(Midpoint(ws[i], ws[i + 1]), StepDt(ws[i], ws[i + 1], lastEnd))
  }

  /**
    The head indices of the pairs among ws[..n] that the loop does not skip, in
    increasing order: exactly the i with i + 1 < n and ws[i + 1] not skipped.
   */
  function Processed(ws: seq<IMUData>, n: nat, lastEnd: real): (idx: seq<nat>)
    requires n <= |ws|
    ensures forall k :: 0 <= k < |idx| ==> idx[k] + 1 < n && !Skipped(ws[idx[k] + 1], lastEnd)
    ensures forall i :: 0 <= i && i + 1 < n && !Skipped(ws[i + 1], lastEnd) ==> i in idx
    ensures forall k, l :: 0 <= k < l < |idx| ==> idx[k] < idx[l]
  {
    if n < 2 then []
    else if Skipped(ws[n - 1], lastEnd) then Processed(ws, n - 1, lastEnd)
    else Processed(ws, n - 1, lastEnd) + [n - 2]
  }

  lemma ProcessedUnfolds(ws: seq<IMUData>, n: nat, lastEnd: real)
    requires 2 <= n <= |ws|
    ensures Processed(ws, n, lastEnd)
            == if Skipped(ws[n - 1], lastEnd) then Processed(ws, n - 1, lastEnd) else Processed(ws, n - 1, lastEnd) + [n - 2]
  {
  }

  /** Lines 91-94: the record written after a predict, from the estimate it produced. */
  function CorrectedPose(e: Estimate, inp: Input, offset: real): IMUPose
  {
    IMUPose(offset, Add(MatVec(e.x.rot, Sub(inp.acc, e.x.ba)), e.x.g), Sub(inp.gyro, e.x.bg), e.x.vel, e.x.pos, e.x.rot)
  }

  /** Line 68: the leading record, at offset 0, from the carried-over state. */
  function LeadingPose(lastAcc: Vec3, lastGyro: Vec3, x: State): IMUPose
  {
    IMUPose(0.0, lastAcc, lastGyro, x.vel, x.pos, x.rot)
  }

  /** What the forward loop has produced: estimate, predict calls, records, carry-over. */
  datatype Forward = Forward(
    est: Estimate, steps: seq<Step>, poses: seq<IMUPose>,
    inp: Input, lastAcc: Vec3, lastGyro: Vec3)

  /** Lines 87-94: one predict call and the record written after it. */
  function Advance(m: FilterModel, q: Matrix, r: Forward, st: Step, offset: real): Forward
  {
    var e := m.propagate(r.est, st.input, st.dt, q);
    var pose := CorrectedPose(e, st.input, offset);
    Forward(e, r.steps + [st], r.poses + [pose], st.input, pose.acc, pose.gyro)
  }

  /**
    The forward loop run over the pairs of ws[..n], starting from estimate e0 and
    carried-over corrected readings acc0 and gyro0.
   */
  function ForwardPass(m: FilterModel, q: Matrix, ws: seq<IMUData>, n: nat, lastEnd: real,
                       cloudBegin: real, e0: Estimate, acc0: Vec3, gyro0: Vec3): Forward
    requires n <= |ws|
  {
    if n < 2 then Forward(e0, [], [], DefaultInput(), acc0, gyro0)
    else
      var r := ForwardPass(m, q, ws, n - 1, lastEnd, cloudBegin, e0, acc0, gyro0);
      if Skipped(ws[n - 1], lastEnd) then r
      else Advance(m, q, r, StepAt(ws, n - 2, lastEnd), ws[n - 1].timestamp - cloudBegin)
  }

  /** Line 96-97: the whole scan's predict calls, ending with the extrapolation step. */
  function ScanSteps(f: Forward, ws: seq<IMUData>, cloudEnd: real): seq<Step>
    requires |ws| > 0
  {
    f.steps + [Step(f.inp, cloudEnd - ws[|ws| - 1].timestamp)]
  }

  predicate NonDecreasing(ws: seq<IMUData>)
  {
    forall i, j :: 0 <= i <= j < |ws| ==> ws[i].timestamp <= ws[j].timestamp
  }

  function Max(a: real, b: real): real { if a < b then b else a }

  /** The total time integrated by a sequence of predict calls. */
  function TotalDt(steps: seq<Step>): real
  {
    if steps == [] then 0.0 else TotalDt(steps[..|steps| - 1]) + steps[|steps| - 1].dt
  }

  lemma {:induction false} TotalDtAppend(a: seq<Step>, s: Step)
    ensures TotalDt(a + [s]) == TotalDt(a) + s.dt
  {
    assert (a + [s])[..|a|] == a;
  }

  /** One iteration of the forward loop, as ForwardPass takes it. */
  lemma ForwardPassUnfolds(m: FilterModel, q: Matrix, ws: seq<IMUData>, n: nat, lastEnd: real,
                           cloudBegin: real, e0: Estimate, acc0: Vec3, gyro0: Vec3)
    requires 2 <= n <= |ws|
    ensures var r := ForwardPass(m, q, ws, n - 1, lastEnd, cloudBegin, e0, acc0, gyro0);
      ForwardPass(m, q, ws, n, lastEnd, cloudBegin, e0, acc0, gyro0)
      == if Skipped(ws[n - 1], lastEnd) then r
         else Advance(m, q, r, StepAt(ws, n - 2, lastEnd), ws[n - 1].timestamp - cloudBegin)
  {
  }

  /** The calls and record offsets so far line up with the processed pairs in idx. */
  ghost predicate CallsMatch(r: Forward, ws: seq<IMUData>, idx: seq<nat>, lastEnd: real, cloudBegin: real)
  {
    && |r.steps| == |idx| && |r.poses| == |idx|
    && (forall k :: 0 <= k < |idx| ==> idx[k] + 1 < |ws| && r.steps[k] == StepAt(ws, idx[k], lastEnd))
    && (forall k :: 0 <= k < |idx| ==> idx[k] + 1 < |ws| && r.poses[k].offset == ws[idx[k] + 1].timestamp - cloudBegin)
  }

  lemma AdvanceMatchesPair(m: FilterModel, q: Matrix, r: Forward, ws: seq<IMUData>, idx: seq<nat>, i: nat,
                           lastEnd: real, cloudBegin: real)
    requires i + 1 < |ws| && CallsMatch(r, ws, idx, lastEnd, cloudBegin)
    ensures CallsMatch(Advance(m, q, r, StepAt(ws, i, lastEnd), ws[i + 1].timestamp - cloudBegin), ws, idx + [i], lastEnd, cloudBegin)
  {
    var r' := Advance(m, q, r, StepAt(ws, i, lastEnd), ws[i + 1].timestamp - cloudBegin);
    var idx' := idx + [i];
    forall k | 0 <= k < |idx'|
      ensures idx'[k] + 1 < |ws| && r'.steps[k] == StepAt(ws, idx'[k], lastEnd)
      ensures r'.poses[k].offset == ws[idx'[k] + 1].timestamp - cloudBegin
    {
      if k < |idx| {
        assert idx'[k] == idx[k] && r'.steps[k] == r.steps[k] && r'.poses[k] == r.poses[k];
      }
    }
  }

  /**
    The forward loop makes one predict call per non-skipped pair, in order, with the
    pair's midpoint input and clipped step, and record k lies at the tail offset of the
    k-th processed pair.
   */
  lemma {:induction false} ForwardPassSteps(m: FilterModel, q: Matrix, ws: seq<IMUData>, n: nat, lastEnd: real,
                                            cloudBegin: real, e0: Estimate, acc0: Vec3, gyro0: Vec3)
    requires n <= |ws|
    ensures var r := ForwardPass(m, q, ws, n, lastEnd, cloudBegin, e0, acc0, gyro0);
      var idx := Processed(ws, n, lastEnd);
      && |r.steps| == |idx| && |r.poses| == |idx|
      && (forall k :: 0 <= k < |idx| ==> r.steps[k] == StepAt(ws, idx[k], lastEnd))
      && (forall k :: 0 <= k < |idx| ==> r.poses[k].offset == ws[idx[k] + 1].timestamp - cloudBegin)
  {
    ForwardPassMatches(m, q, ws, n, lastEnd, cloudBegin, e0, acc0, gyro0);
  }

  lemma {:induction false} ForwardPassMatches(m: FilterModel, q: Matrix, ws: seq<IMUData>, n: nat, lastEnd: real,
                                              cloudBegin: real, e0: Estimate, acc0: Vec3, gyro0: Vec3)
    requires n <= |ws|
    ensures CallsMatch(ForwardPass(m, q, ws, n, lastEnd, cloudBegin, e0, acc0, gyro0), ws, Processed(ws, n, lastEnd), lastEnd, cloudBegin)
  {
    if n >= 2 {
      var r := ForwardPass(m, q, ws, n - 1, lastEnd, cloudBegin, e0, acc0, gyro0);
      var idx := Processed(ws, n - 1, lastEnd);
      ForwardPassMatches(m, q, ws, n - 1, lastEnd, cloudBegin, e0, acc0, gyro0);
      ForwardPassUnfolds(m, q, ws, n, lastEnd, cloudBegin, e0, acc0, gyro0);
      ProcessedUnfolds(ws, n, lastEnd);
      if !Skipped(ws[n - 1], lastEnd) {
        AdvanceMatchesPair(m, q, r, ws, idx, n - 2, lastEnd, cloudBegin);
      }
    }
  }

  /** The estimate after the loop is the filter run over all its predict calls. */
  lemma {:induction false} ForwardPassRuns(m: FilterModel, q: Matrix, ws: seq<IMUData>, n: nat, lastEnd: real,
                                           cloudBegin: real, e0: Estimate, acc0: Vec3, gyro0: Vec3)
    requires n <= |ws|
    ensures var r := ForwardPass(m, q, ws, n, lastEnd, cloudBegin, e0, acc0, gyro0);
      |r.poses| == |r.steps| && r.est == Run(m, q, e0, r.steps)
  {
    if n >= 2 {
      ForwardPassRuns(m, q, ws, n - 1, lastEnd, cloudBegin, e0, acc0, gyro0);
      ForwardPassUnfolds(m, q, ws, n, lastEnd, cloudBegin, e0, acc0, gyro0);
      if !Skipped(ws[n - 1], lastEnd) {
        RunAppend(m, q, e0, ForwardPass(m, q, ws, n - 1, lastEnd, cloudBegin, e0, acc0, gyro0).steps, StepAt(ws, n - 2, lastEnd));
      }
    }
  }

  /** Record k was built from the estimate after the first k + 1 predict calls. */
  ghost predicate PosesFollowRun(m: FilterModel, q: Matrix, e0: Estimate, r: Forward)
  {
    |r.poses| == |r.steps|
    && forall k {:trigger r.poses[k]} :: 0 <= k < |r.steps| ==>
         r.poses[k] == CorrectedPose(Run(m, q, e0, r.steps[..k + 1]), r.steps[k].input, r.poses[k].offset)
  }

  lemma AdvanceFollowsRun(m: FilterModel, q: Matrix, e0: Estimate, r: Forward, st: Step, offset: real)
    requires r.est == Run(m, q, e0, r.steps) && PosesFollowRun(m, q, e0, r)
    ensures PosesFollowRun(m, q, e0, Advance(m, q, r, st, offset))
  {
    var r' := Advance(m, q, r, st, offset);
    var k0 := |r.steps|;
    assert r'.steps == r.steps + [st];
    RunAppend(m, q, e0, r.steps, st);
    assert r'.steps[..k0 + 1] == r'.steps;
    forall k | 0 <= k < k0 + 1
      ensures r'.poses[k] == CorrectedPose(Run(m, q, e0, r'.steps[..k + 1]), r'.steps[k].input, r'.poses[k].offset)
    {
      if k < k0 {
        assert r'.steps[..k + 1] == r.steps[..k + 1];
        assert r'.poses[k] == r.poses[k] && r'.steps[k] == r.steps[k];
      }
    }
  }

  /** One pair of the loop, skipped or processed, keeps the records in step with the run. */
  lemma PairFollowsRun(m: FilterModel, q: Matrix, e0: Estimate, r: Forward, f: Forward, skipped: bool, st: Step, offset: real)
    requires r.est == Run(m, q, e0, r.steps) && PosesFollowRun(m, q, e0, r)
    requires f == if skipped then r else Advance(m, q, r, st, offset)
    ensures PosesFollowRun(m, q, e0, f)
  {
    if !skipped {
      AdvanceFollowsRun(m, q, e0, r, st, offset);
    }
  }

  /** Record k is built from the estimate after the first k + 1 predict calls. */
  lemma {:induction false} ForwardPassPoses(m: FilterModel, q: Matrix, ws: seq<IMUData>, n: nat, lastEnd: real,
                                            cloudBegin: real, e0: Estimate, acc0: Vec3, gyro0: Vec3)
    requires n <= |ws|
    ensures PosesFollowRun(m, q, e0, ForwardPass(m, q, ws, n, lastEnd, cloudBegin, e0, acc0, gyro0))
  {
    if n >= 2 {
      ForwardPassPoses(m, q, ws, n - 1, lastEnd, cloudBegin, e0, acc0, gyro0);
      ForwardPassRuns(m, q, ws, n - 1, lastEnd, cloudBegin, e0, acc0, gyro0);
      ForwardPassUnfolds(m, q, ws, n, lastEnd, cloudBegin, e0, acc0, gyro0);
      PairFollowsRun(m, q, e0, ForwardPass(m, q, ws, n - 1, lastEnd, cloudBegin, e0, acc0, gyro0),
                     ForwardPass(m, q, ws, n, lastEnd, cloudBegin, e0, acc0, gyro0), Skipped(ws[n - 1], lastEnd),
                     StepAt(ws, n - 2, lastEnd), ws[n - 1].timestamp - cloudBegin);
    }
  }

  /**
    What the loop carries over: the last call's input and corrected readings, or the
    default input and the initial readings when no pair was processed.
   */
  lemma {:induction false} ForwardPassCarry(m: FilterModel, q: Matrix, ws: seq<IMUData>, n: nat, lastEnd: real,
                                            cloudBegin: real, e0: Estimate, acc0: Vec3, gyro0: Vec3)
    requires n <= |ws|
    ensures var r := ForwardPass(m, q, ws, n, lastEnd, cloudBegin, e0, acc0, gyro0);
      && |r.poses| == |r.steps|
      && (r.steps == [] ==> r.inp == DefaultInput() && r.lastAcc == acc0 && r.lastGyro == gyro0)
      && (r.steps != [] ==> r.inp == r.steps[|r.steps| - 1].input
                            && r.lastAcc == r.poses[|r.steps| - 1].acc && r.lastGyro == r.poses[|r.steps| - 1].gyro)
  {
    if n >= 2 {
      ForwardPassCarry(m, q, ws, n - 1, lastEnd, cloudBegin, e0, acc0, gyro0);
      ForwardPassUnfolds(m, q, ws, n, lastEnd, cloudBegin, e0, acc0, gyro0);
    }
  }

  /**
    No double integration inside a scan: over non-decreasing timestamps the loop's
    steps add up to the time from max(first sample, previous end) to
    max(last sample, previous end).
   */
  lemma {:induction false} StepsTelescope(m: FilterModel, q: Matrix, ws: seq<IMUData>, n: nat, lastEnd: real,
                                          cloudBegin: real, e0: Estimate, acc0: Vec3, gyro0: Vec3)
    requires 1 <= n <= |ws| && NonDecreasing(ws)
    ensures TotalDt(ForwardPass(m, q, ws, n, lastEnd, cloudBegin, e0, acc0, gyro0).steps)
            == Max(ws[n - 1].timestamp, lastEnd) - Max(ws[0].timestamp, lastEnd)
  {
    if n >= 2 {
      StepsTelescope(m, q, ws, n - 1, lastEnd, cloudBegin, e0, acc0, gyro0);
      assert ws[n - 2].timestamp <= ws[n - 1].timestamp;
      TelescopeStep(m, q, ws, n, lastEnd, cloudBegin, e0, acc0, gyro0);
    }
  }

  /** The pair ending at ws[n - 1] integrates the time from max(ws[n - 2], previous end) to max(ws[n - 1], previous end). */
  lemma TelescopeStep(m: FilterModel, q: Matrix, ws: seq<IMUData>, n: nat, lastEnd: real,
                      cloudBegin: real, e0: Estimate, acc0: Vec3, gyro0: Vec3)
    requires 2 <= n <= |ws| && ws[n - 2].timestamp <= ws[n - 1].timestamp
    ensures TotalDt(ForwardPass(m, q, ws, n, lastEnd, cloudBegin, e0, acc0, gyro0).steps)
            == TotalDt(ForwardPass(m, q, ws, n - 1, lastEnd, cloudBegin, e0, acc0, gyro0).steps)
               + (Max(ws[n - 1].timestamp, lastEnd) - Max(ws[n - 2].timestamp, lastEnd))
  {
    var r := ForwardPass(m, q, ws, n - 1, lastEnd, cloudBegin, e0, acc0, gyro0);
    if !Skipped(ws[n - 1], lastEnd) {
      TotalDtAppend(r.steps, StepAt(ws, n - 2, lastEnd));
    }
  }

  /** Over non-decreasing timestamps every step of the loop is non-negative. */
  lemma StepsNonNegative(m: FilterModel, q: Matrix, ws: seq<IMUData>, n: nat, lastEnd: real,
                         cloudBegin: real, e0: Estimate, acc0: Vec3, gyro0: Vec3)
    requires n <= |ws| && NonDecreasing(ws)
    ensures var r := ForwardPass(m, q, ws, n, lastEnd, cloudBegin, e0, acc0, gyro0);
      forall k :: 0 <= k < |r.steps| ==> r.steps[k].dt >= 0.0
  {
    ForwardPassSteps(m, q, ws, n, lastEnd, cloudBegin, e0, acc0, gyro0);
    var idx := Processed(ws, n, lastEnd);
    forall k | 0 <= k < |idx|
      ensures StepAt(ws, idx[k], lastEnd).dt >= 0.0
    {
      assert ws[idx[k]].timestamp <= ws[idx[k] + 1].timestamp;
    }
  }

  /** Over non-decreasing timestamps the processed pairs' tail times are non-decreasing and none lies before lastEnd. */
  lemma ProcessedTailsSorted(ws: seq<IMUData>, n: nat, lastEnd: real)
    requires n <= |ws| && NonDecreasing(ws)
    ensures var idx := Processed(ws, n, lastEnd);
      && (forall k :: 0 <= k < |idx| ==> ws[idx[k] + 1].timestamp >= lastEnd)
      && (forall k, l :: 0 <= k <= l < |idx| ==> ws[idx[k] + 1].timestamp <= ws[idx[l] + 1].timestamp)
  {
    var idx := Processed(ws, n, lastEnd);
    forall k, l | 0 <= k <= l < |idx|
      ensures ws[idx[k] + 1].timestamp <= ws[idx[l] + 1].timestamp
    {
      assert k < l ==> idx[k] < idx[l];
    }
  }

  /**
    Over non-decreasing timestamps the records' offsets are non-decreasing and none
    lies before the previous integration end.
   */
  lemma PoseOffsetsSorted(m: FilterModel, q: Matrix, ws: seq<IMUData>, n: nat, lastEnd: real,
                          cloudBegin: real, e0: Estimate, acc0: Vec3, gyro0: Vec3)
    requires n <= |ws| && NonDecreasing(ws)
    ensures var r := ForwardPass(m, q, ws, n, lastEnd, cloudBegin, e0, acc0, gyro0);
      && (forall k :: 0 <= k < |r.poses| ==> r.poses[k].offset >= lastEnd - cloudBegin)
      && (forall k, l :: 0 <= k <= l < |r.poses| ==> r.poses[k].offset <= r.poses[l].offset)
  {
    ForwardPassSteps(m, q, ws, n, lastEnd, cloudBegin, e0, acc0, gyro0);
    ProcessedTailsSorted(ws, n, lastEnd);
  }

  /**
    With the previous end no later than the last sample, the scan's predict calls
    (loop plus final extrapolation) cover exactly max(first sample, previous end) to
    the scan end.
   */
  lemma ScanIntegratesOnce(m: FilterModel, q: Matrix, ws: seq<IMUData>, lastEnd: real,
                           cloudBegin: real, cloudEnd: real, e0: Estimate, acc0: Vec3, gyro0: Vec3)
    requires |ws| > 0 && NonDecreasing(ws) && lastEnd <= ws[|ws| - 1].timestamp
    ensures var f := ForwardPass(m, q, ws, |ws|, lastEnd, cloudBegin, e0, acc0, gyro0);
      TotalDt(ScanSteps(f, ws, cloudEnd)) == cloudEnd - Max(ws[0].timestamp, lastEnd)
  {
    var f := ForwardPass(m, q, ws, |ws|, lastEnd, cloudBegin, e0, acc0, gyro0);
    StepsTelescope(m, q, ws, |ws|, lastEnd, cloudBegin, e0, acc0, gyro0);
    TotalDtAppend(f.steps, Step(f.inp, cloudEnd - ws[|ws| - 1].timestamp));
  }

  /**
    Two consecutive scans: the second starts from the first's carry-over (its last
    sample and its scan end). When the first batch ends no later than its scan end and
    the second batch reaches the first scan end, the two scans together integrate the
    time from max(first sample, initial end) to the second scan end exactly once.
   */
  lemma ConsecutiveScansIntegrateOnce(m: FilterModel, q: Matrix, ws1: seq<IMUData>, ws2: seq<IMUData>,
                                      lastEnd: real, begin1: real, end1: real, begin2: real, end2: real,
                                      e1: Estimate, acc1: Vec3, gyro1: Vec3, e2: Estimate, acc2: Vec3, gyro2: Vec3)
    requires |ws1| > 0 && NonDecreasing(ws1) && lastEnd <= ws1[|ws1| - 1].timestamp
    requires ws1[|ws1| - 1].timestamp <= end1
    requires |ws2| > 0 && ws2[0] == ws1[|ws1| - 1] && NonDecreasing(ws2) && end1 <= ws2[|ws2| - 1].timestamp
    ensures var f1 := ForwardPass(m, q, ws1, |ws1|, lastEnd, begin1, e1, acc1, gyro1);
      var f2 := ForwardPass(m, q, ws2, |ws2|, end1, begin2, e2, acc2, gyro2);
      TotalDt(ScanSteps(f1, ws1, end1)) + TotalDt(ScanSteps(f2, ws2, end2)) == end2 - Max(ws1[0].timestamp, lastEnd)
  {
    ScanIntegratesOnce(m, q, ws1, lastEnd, begin1, end1, e1, acc1, gyro1);
    ScanIntegratesOnce(m, q, ws2, end1, begin2, end2, e2, acc2, gyro2);
  }

  /** The estimate after the final extrapolation is the filter run over all the scan's predict calls. */
  lemma ScanEndsRun(m: FilterModel, q: Matrix, ws: seq<IMUData>, lastEnd: real,
                    cloudBegin: real, cloudEnd: real, e0: Estimate, acc0: Vec3, gyro0: Vec3)
    requires |ws| > 0
    ensures var f := ForwardPass(m, q, ws, |ws|, lastEnd, cloudBegin, e0, acc0, gyro0);
      m.propagate(f.est, f.inp, cloudEnd - ws[|ws| - 1].timestamp, q) == Run(m, q, e0, ScanSteps(f, ws, cloudEnd))
  {
    var f := ForwardPass(m, q, ws, |ws|, lastEnd, cloudBegin, e0, acc0, gyro0);
    ForwardPassRuns(m, q, ws, |ws|, lastEnd, cloudBegin, e0, acc0, gyro0);
    RunAppend(m, q, e0, f.steps, Step(f.inp, cloudEnd - ws[|ws| - 1].timestamp));
  }
}
