/**
  livo::IMUProcessor (imu_processor.cpp): the static initialisation from a buffer of
  inertial samples, the per-scan forward integration that writes the pose cache, the
  backward deskew of the scan's points, and the latch that joins the two.
 */
module ImuProcessor {
  import opened Geometry
  import opened Covariance
  import opened Estimator
  import opened Sensors
  import opened Initialization
  import opened Integration
  import opened Deskew
  import opened CloudSort

  /** The direction gravity is aligned to when gravity alignment is on. */
  function Down(): Vec3 { Vec3(0.0, 0.0, -1.0) }

  /**
    The filter state initialize leaves (lines 33-43) for the given buffer means: the
    configured extrinsics, the gyroscope bias at the mean angular rate, and gravity
    either aligned to Down (with the attitude rotating the measured up direction onto
    it) or set from the measured mean specific force.
   */
  function InitialState(x: State, accMean: Vec3, gyroMean: Vec3, config: Config, lib: Numerics, m: FilterModel): (r: State)
    ensures r.rotExt == config.rIl && r.posExt == config.pIl && r.bg == gyroMean
    ensures r.pos == x.pos && r.vel == x.vel && r.ba == x.ba
    ensures config.gravityAlign ==> r.rot == lib.fromTwoVectors(lib.normalized(Neg(accMean)), Down()) && r.g == m.gravityOf(Down())
    ensures !config.gravityAlign ==> r.rot == x.rot && r.g == m.gravityOf(Neg(accMean))
  {
    var x1 := x.(rotExt := config.rIl, posExt := config.pIl, bg := gyroMean);
    if config.gravityAlign then
      x1.(rot := lib.fromTwoVectors(lib.normalized(Neg(accMean)), Down()), g := m.gravityOf(Down()))
    else
      x1.(g := m.gravityOf(Neg(accMean)))
  }

  class IMUProcessor {
    const config: Config
    const kf: IESKF
    const lib: Numerics
    /** m_Q: the process noise passed to every predict call. */
    const Q: Matrix
    var imuCache: seq<IMUData>
    var imuPosesCache: seq<IMUPose>
    var lastImu: IMUData
    var lastEndTime: real
    var lastAcc: Vec3
    var lastGyro: Vec3
    var isInitialized: bool

    /** Lines 5-17; qDim is the dimension of the process noise, at least the four 3x3 blocks. */
    constructor (config: Config, kf: IESKF, lib: Numerics, qDim: nat)
      requires qDim >= 12
      ensures this.config == config && this.kf == kf && this.lib == lib
      ensures Q == ProcessNoise(qDim, config.ng, config.na, config.nbg, config.nba)
      ensures lastAcc == Zero() && lastGyro == Zero()
      ensures imuCache == [] && imuPosesCache == [] && !isInitialized
    {
      this.config := config;
      this.kf := kf;
      this.lib := lib;
      this.Q := ProcessNoise(qDim, config.ng, config.na, config.nbg, config.nba);
      lastAcc := Zero();
      lastGyro := Zero();
      imuCache := [];
      imuPosesCache := [];
      isInitialized := false;
    }

    /**
      Lines 19-52. The caller must not let an empty buffer reach the threshold: the
      mean would divide by zero and the last sample would not exist.
     */
    method Initialize(imus: seq<IMUData>) returns (ok: bool)
      requires kf.dim >= 23
      requires |imuCache| + |imus| >= config.imuInitNum ==> |imuCache| + |imus| > 0
      modifies this, kf
      ensures imuCache == old(imuCache) + imus
      ensures ok == (|imuCache| >= config.imuInitNum)
      ensures !ok ==> kf.x == old(kf.x) && kf.P == old(kf.P) && lastImu == old(lastImu)
      ensures ok ==> |imuCache| > 0
                     && kf.x == InitialState(old(kf.x), Mean(Accs(imuCache)), Mean(Gyros(imuCache)), config, lib, kf.model)
                     && kf.P == InitialCovariance(kf.dim)
                     && lastImu == Last(imuCache)
      ensures kf.trace == old(kf.trace)
      ensures imuPosesCache == old(imuPosesCache) && lastEndTime == old(lastEndTime)
      ensures lastAcc == old(lastAcc) && lastGyro == old(lastGyro) && isInitialized == old(isInitialized)
    {
      imuCache := imuCache + imus;
      if |imuCache| < config.imuInitNum {
        return false;
      }
      var accSum, gyroSum := SumReadings(imuCache);
      var n := |imuCache| as real;
      var accMean := Div(accSum, n);
      var gyroMean := Div(gyroSum, n);
      var x := kf.x.(rotExt := config.rIl, posExt := config.pIl, bg := gyroMean);
      if config.gravityAlign {
        x := x.(rot := lib.fromTwoVectors(lib.normalized(Neg(accMean)), Down()));
        x := x.(g := kf.model.gravityOf(Down()));
      } else {
        x := x.(g := kf.model.gravityOf(Neg(accMean)));
      }
      kf.x := x;
      kf.P := InitialCovariance(kf.dim);
      lastImu := Last(imuCache);
      return true;
    }

    /** The forward loop of lines 73-95 over the working sequence imuCache. */
    method IntegrateForward(cloudBegin: real) returns (inp: Input)
      requires |imuCache| > 0 && imuPosesCache != []
      modifies this, kf
      ensures var f := ForwardPass(kf.model, Q, imuCache, |imuCache|, lastEndTime, cloudBegin,
                                   Estimate(old(kf.x), old(kf.P)), old(lastAcc), old(lastGyro));
        && Estimate(kf.x, kf.P) == f.est && kf.trace == old(kf.trace) + f.steps
        && imuPosesCache == old(imuPosesCache) + f.poses
        && inp == f.inp && lastAcc == f.lastAcc && lastGyro == f.lastGyro
      ensures imuCache == old(imuCache) && lastImu == old(lastImu) && lastEndTime == old(lastEndTime)
      ensures isInitialized == old(isInitialized)
    {
      ghost var e0, acc0, gyro0 := Estimate(kf.x, kf.P), lastAcc, lastGyro;
      ghost var trace0, poses0 := kf.trace, imuPosesCache;
      inp := DefaultInput();
      var i := 0;
      while i + 1 < |imuCache|
        invariant i < |imuCache|
        invariant var f := ForwardPass(kf.model, Q, imuCache, i + 1, lastEndTime, cloudBegin, e0, acc0, gyro0);
          && Estimate(kf.x, kf.P) == f.est && kf.trace == trace0 + f.steps
          && imuPosesCache == poses0 + f.poses
          && inp == f.inp && lastAcc == f.lastAcc && lastGyro == f.lastGyro
        invariant imuCache == old(imuCache) && lastImu == old(lastImu) && lastEndTime == old(lastEndTime)
        invariant isInitialized == old(isInitialized)
      {
        ForwardPassUnfolds(kf.model, Q, imuCache, i + 2, lastEndTime, cloudBegin, e0, acc0, gyro0);
        ghost var r := ForwardPass(kf.model, Q, imuCache, i + 1, lastEndTime, cloudBegin, e0, acc0, gyro0);
        var head, tail := imuCache[i], imuCache[i + 1];
        if tail.timestamp < lastEndTime {
          i := i + 1;
          continue;
        }
        var gyroVal := Scale(Add(head.gyro, tail.gyro), 0.5);
        var accVal := Scale(Add(head.acc, tail.acc), 0.5);
        var dt;
        if head.timestamp < lastEndTime {
          dt := tail.timestamp - lastEndTime;
        } else {
          dt := tail.timestamp - head.timestamp;
        }
        inp := Input(accVal, gyroVal);
        assert Step(inp, dt) == StepAt(imuCache, i, lastEndTime);
        kf.Predict(inp, dt, Q);
        lastGyro := Sub(gyroVal, kf.x.bg);
        lastAcc := Add(MatVec(kf.x.rot, Sub(accVal, kf.x.ba)), kf.x.g);
        var offset := tail.timestamp - cloudBegin;
        var pose := IMUPose(offset, lastAcc, lastGyro, kf.x.vel, kf.x.pos, kf.x.rot);
        assert pose == CorrectedPose(Estimate(kf.x, kf.P), inp, offset);
        imuPosesCache := imuPosesCache + [pose];
        assert imuPosesCache == poses0 + (r.poses + [pose]);
        i := i + 1;
      }
    }

    /**
      Lines 56-64 and 67-99: the working sequence, the pose cache, the filter run over
      the scan and the carry-over to the next scan.
     */
    method IntegrateScan(imus: seq<IMUData>, cloudBegin: real, cloudEnd: real)
      modifies this, kf
      ensures imuCache == [old(lastImu)] + imus
      ensures var f := ForwardPass(kf.model, Q, imuCache, |imuCache|, old(lastEndTime), cloudBegin,
                                   Estimate(old(kf.x), old(kf.P)), old(lastAcc), old(lastGyro));
        && imuPosesCache == [LeadingPose(old(lastAcc), old(lastGyro), old(kf.x))] + f.poses
        && kf.trace == old(kf.trace) + ScanSteps(f, imuCache, cloudEnd)
        && Estimate(kf.x, kf.P) == kf.model.propagate(f.est, f.inp, cloudEnd - Last(imuCache).timestamp, Q)
        && Estimate(kf.x, kf.P) == Run(kf.model, Q, Estimate(old(kf.x), old(kf.P)), ScanSteps(f, imuCache, cloudEnd))
        && lastAcc == f.lastAcc && lastGyro == f.lastGyro
      ensures lastImu == Last(imuCache) && lastEndTime == cloudEnd
      ensures isInitialized == old(isInitialized)
    {
      ghost var e0, acc0, gyro0, lastEnd := Estimate(kf.x, kf.P), lastAcc, lastGyro, lastEndTime;
      imuCache := [lastImu] + imus;
      var imuEnd := Last(imuCache).timestamp;
      imuPosesCache := [LeadingPose(lastAcc, lastGyro, kf.x)];
      var inp := IntegrateForward(cloudBegin);
      ScanEndsRun(kf.model, Q, imuCache, lastEnd, cloudBegin, cloudEnd, e0, acc0, gyro0);
      kf.Predict(inp, cloudEnd - imuEnd, Q);
      lastImu := Last(imuCache);
      lastEndTime := cloudEnd;
    }

    /**
      Lines 54-132. The returned ghost `sorted` is the cloud after the sort of lines
      65-66, the order the deskew walk runs over. The sort touches only the cloud and
      the integration never reads it, so the model sorts before integrating.
     */
    method Undistort(package: SyncPackage) returns (ghost sorted: seq<Point>)
      requires package.cloud.Length > 0
      modifies this, kf, package.cloud
      ensures imuCache == [old(lastImu)] + package.imus
      ensures var f := ForwardPass(kf.model, Q, imuCache, |imuCache|, old(lastEndTime), package.cloudStartTime,
                                   Estimate(old(kf.x), old(kf.P)), old(lastAcc), old(lastGyro));
        && imuPosesCache == [LeadingPose(old(lastAcc), old(lastGyro), old(kf.x))] + f.poses
        && kf.trace == old(kf.trace) + ScanSteps(f, imuCache, package.cloudEndTime)
        && Estimate(kf.x, kf.P) == Run(kf.model, Q, Estimate(old(kf.x), old(kf.P)), ScanSteps(f, imuCache, package.cloudEndTime))
        && lastAcc == f.lastAcc && lastGyro == f.lastGyro
      ensures lastImu == Last(imuCache) && lastEndTime == package.cloudEndTime && imuPosesCache != []
      ensures |sorted| == package.cloud.Length && SortedByCurvature(sorted) && multiset(sorted) == multiset(old(package.cloud[..]))
      ensures package.cloud[..] == DeskewWalk(sorted, imuPosesCache, Compensation(RefPose(kf.x.rot, kf.x.pos, kf.x.rotExt, kf.x.posExt), lib.so3Exp)).points
      ensures isInitialized == old(isInitialized)
    {
      SortByCurvature(package.cloud);
      sorted := package.cloud[..];
      IntegrateScan(package.imus, package.cloudStartTime, package.cloudEndTime);
      var cur := RefPose(kf.x.rot, kf.x.pos, kf.x.rotExt, kf.x.posExt);
      DeskewCloud(package.cloud, imuPosesCache, Compensation(cur, lib.so3Exp));
    }

    /**
      The estimate the scan's integration starts from: the filter as it was when already
      initialised, otherwise the state and covariance initialize sets from the buffer.
     */
    ghost function ScanStart(initialized: bool, x: State, P: Matrix, buffer: seq<IMUData>): Estimate
      requires initialized || (|buffer| > 0 && kf.dim >= 23)
    {
      if initialized then Estimate(x, P)
      else Estimate(InitialState(x, Mean(Accs(buffer)), Mean(Gyros(buffer)), config, lib, kf.model), InitialCovariance(kf.dim))
    }

    /**
      Lines 134-140: initialise until the buffer is large enough, then undistort every
      scan, the initialising one included. In the initialising call the working sequence
      starts with the last sample of the very batch it then integrates again, and the
      integration starts from the state and covariance initialize has just set.
     */
    method Process(sync: SyncPackage) returns (ghost undistorted: bool, ghost sorted: seq<Point>)
      requires kf.dim >= 23
      requires |imuCache| + |sync.imus| >= config.imuInitNum ==> |imuCache| + |sync.imus| > 0
      requires isInitialized || |imuCache| + |sync.imus| >= config.imuInitNum ==> sync.cloud.Length > 0
      modifies this, kf, sync.cloud
      ensures isInitialized == (old(isInitialized) || |old(imuCache)| + |sync.imus| >= config.imuInitNum)
      ensures undistorted == isInitialized
      ensures !undistorted ==>
        && sync.cloud[..] == old(sync.cloud[..]) && imuCache == old(imuCache) + sync.imus
        && kf.x == old(kf.x) && kf.P == old(kf.P) && kf.trace == old(kf.trace)
        && imuPosesCache == old(imuPosesCache) && lastImu == old(lastImu) && lastEndTime == old(lastEndTime)
        && lastAcc == old(lastAcc) && lastGyro == old(lastGyro)
      ensures undistorted && old(isInitialized) ==> imuCache == [old(lastImu)] + sync.imus
      ensures undistorted && !old(isInitialized) ==> imuCache == [Last(old(imuCache) + sync.imus)] + sync.imus
      ensures undistorted ==>
        var e0 := ScanStart(old(isInitialized), old(kf.x), old(kf.P), old(imuCache) + sync.imus);
        var f := ForwardPass(kf.model, Q, imuCache, |imuCache|, old(lastEndTime), sync.cloudStartTime,
                             e0, old(lastAcc), old(lastGyro));
        && imuPosesCache == [LeadingPose(old(lastAcc), old(lastGyro), e0.x)] + f.poses
        && kf.trace == old(kf.trace) + ScanSteps(f, imuCache, sync.cloudEndTime)
        && Estimate(kf.x, kf.P) == Run(kf.model, Q, e0, ScanSteps(f, imuCache, sync.cloudEndTime))
        && lastAcc == f.lastAcc && lastGyro == f.lastGyro
      ensures undistorted ==>
        && lastImu == Last(imuCache) && lastEndTime == sync.cloudEndTime
        && |sorted| == sync.cloud.Length
        && SortedByCurvature(sorted) && multiset(sorted) == multiset(old(sync.cloud[..]))
        && sync.cloud[..] == DeskewWalk(sorted, imuPosesCache, Compensation(RefPose(kf.x.rot, kf.x.pos, kf.x.rotExt, kf.x.posExt), lib.so3Exp)).points
    {
      sorted := sync.cloud[..];
      if !isInitialized {
        isInitialized := Initialize(sync.imus);
      }
      if isInitialized {
        sorted := Undistort(sync);
      }
      undistorted := isInitialized;
    }
  }
}
