# IMU processor of FAST-LIVO: a Dafny model

This project models `livo::IMUProcessor` (fastlivo/src/map_builder/imu_processor.cpp). That is the
stage of the LiDAR-inertial odometry pipeline that:

- initialises the error-state filter from a buffer of stationary inertial samples;
- integrates every later batch of samples through the filter to build a time-indexed pose
  cache;
- walks backward through the scan's points, re-expressing each point in the scan-end pose
  ("deskewing").

The class becomes a Dafny `class IMUProcessor` (module `ImuProcessor`):

- Its fields are `m_imu_cache`, `m_imu_poses_cache`, `m_last_imu`, `m_last_end_time`,
  `m_last_acc`, `m_last_gyro` and `is_initialized`.
- `m_Q` and the configuration are constants.
- The filter is a `class IESKF` (module `Estimator`). Its `Predict` stands for
  `kf->predict`: it applies an opaque propagation function and appends `(input, dt)` to a
  ghost trace.

Each loop of the source is a loop of the model, proved against a specification function:

- **Initialization (`initialize`).**
  - The sum loop is `SumReadings`, proved against `Sum`.
  - The method `Initialize` appends the batch to the buffer. Below the threshold it changes
    nothing else.
  - At the threshold it seeds the filter state: `InitialState` gives the extrinsics, the
    gyroscope bias at the mean angular rate, and gravity, aligned or not. It also sets `P`
    to the fixed block-diagonal `InitialCovariance` and keeps the newest sample.
- **Forward windowing (`undistort`, lines 56-99).**
  - The loop is `IntegrateForward`, proved against the recursive function `ForwardPass`.
  - `ForwardPass` skips a pair whose tail is before the previous integration end. It clips
    a pair whose head is before it, and otherwise steps by tail minus head, using the
    midpoint input.
  - Lemmas prove that the step lengths telescope. This holds for one scan, and for two
    consecutive scans when the second starts from the first's carried sample. The hypotheses
    are:
    - timestamps are non-decreasing;
    - the previous end time is no later than the batch's last sample;
    - each batch's last sample is no later than its cloud end;
    - each cloud end is no later than the next batch's last sample.

    Under them, the dts sum to exactly the time covered: the total has no gap and no
    double count. This is a statement about the sum of the dts, not about each instant.
  - They also prove that the pose cache has one record per processed pair, at the tail
    offsets, and that each record is built from the filter run up to its pair.
- **Deskew walk (lines 101-131).**
  - The nested loops are `DeskewCloud` and `WalkPoints` over the point array.
  - They are proved against the recursive functions `OuterWalk` and `InnerWalk`, which also
    log every rewrite.
  - The walk takes the per-point compensation as a parameter (`Compensator`), because its
    bookkeeping does not depend on the arithmetic. `Compensation(cur, so3Exp)` is the
    compensation formula of lines 120-124.
  - After the walk stops at the first point, later record pairs test and may rewrite that
    same point again. The model reproduces this: `RevisitOfFirstPoint` exhibits it. What is
    proved is what the iterator guarantees, not "each point exactly once".
- **`process`.** It latches the initialisation flag and undistorts in every call from the
  one where initialisation succeeds.

## Model

| member | source | states |
|---|---|---|
| Covariance.ProcessNoiseEntries | fastlivo/src/map_builder/imu_processor.cpp:7-11 | `m_Q` is diagonal, with ng on entries 0-2, na on 3-5, nbg on 6-8, nba on 9-11 and 1 on the rest |
| Covariance.InitialCovarianceEntries | fastlivo/src/map_builder/imu_processor.cpp:44-49 | the initial `P` is diagonal: 1e-5 on entries 6-11 and 21-22, 1e-4 on 15-20, 1 on the rest; every variance is positive |
| Initialization.SumReadings | fastlivo/src/map_builder/imu_processor.cpp:24-30 | the accumulation loop returns the componentwise sums of all buffered accelerations and angular rates |
| Initialization.SumAppend | fastlivo/src/map_builder/imu_processor.cpp:21-30 | the sum over a buffer filled in two batches is the sum of the two batches' sums |
| Initialization.MeanOfConstant | fastlivo/src/map_builder/imu_processor.cpp:31-32 | a buffer whose readings are all equal has that reading as its mean |
| ImuProcessor.InitialState | fastlivo/src/map_builder/imu_processor.cpp:33-43 | extrinsics are `r_il`/`p_il` and `bg` is the mean angular rate. With alignment, rot maps the normalised negated mean acceleration onto (0,0,-1) and gravity is seeded from (0,0,-1). Without it, rot is kept and gravity is seeded from the negated mean acceleration. Position, velocity and `ba` are kept |
| ImuProcessor.IMUProcessor.constructor | fastlivo/src/map_builder/imu_processor.cpp:5-17 | `m_Q` is the process-noise matrix; last acc/gyro are zero; both caches are empty; not initialised |
| ImuProcessor.IMUProcessor.Initialize | fastlivo/src/map_builder/imu_processor.cpp:19-52 | The buffer grows by exactly the batch, and the result is true exactly when it reaches `imu_init_num`. Below the threshold, state, covariance and the last sample are unchanged. At the threshold, the state is `InitialState` of the buffer means, `P` is `InitialCovariance` and `m_last_imu` is the buffer's last sample. No predict call is made |
| Estimator.IESKF.Predict | fastlivo/src/map_builder/imu_processor.cpp:89 | The new estimate is the propagation of the old one by (input, dt, Q), and the call is appended to the trace |
| Estimator.RunAppend | fastlivo/src/map_builder/imu_processor.cpp:89-97 | one more predict call extends the filter run by one propagation |
| Integration.Processed | fastlivo/src/map_builder/imu_processor.cpp:73-78 | the processed pairs are exactly the pairs whose tail is not before `m_last_end_time`, in increasing order (both directions) |
| Integration.ForwardPassSteps | fastlivo/src/map_builder/imu_processor.cpp:73-94 | There is one predict call and one record per processed pair, in order. Call k uses the pair's midpoint input and a dt that is clipped at `m_last_end_time` when the head is before it and is tail minus head otherwise. Record k lies at the tail time minus the cloud start |
| Integration.ForwardPassRuns | fastlivo/src/map_builder/imu_processor.cpp:87-89 | the estimate after the loop is the filter run over exactly the calls made |
| Integration.ForwardPassPoses | fastlivo/src/map_builder/imu_processor.cpp:89-94 | record k holds the corrected acceleration and angular rate, velocity, position and rotation of the estimate after the first k + 1 calls |
| Integration.ForwardPassCarry | fastlivo/src/map_builder/imu_processor.cpp:72-92 | After the loop, the input and last acc/gyro come from the last call made. When no pair was processed, they are the default input and the incoming values |
| Integration.TelescopeStep | fastlivo/src/map_builder/imu_processor.cpp:77-85 | one pair integrates exactly the time from max(head, last end) to max(tail, last end), or nothing when skipped |
| Integration.StepsTelescope | fastlivo/src/map_builder/imu_processor.cpp:73-95 | over non-decreasing timestamps the loop's dts sum to max(imu end, last end) - max(imu begin, last end) |
| Integration.StepsNonNegative | fastlivo/src/map_builder/imu_processor.cpp:82-85 | over non-decreasing timestamps every loop dt is non-negative |
| Integration.ProcessedTailsSorted | fastlivo/src/map_builder/imu_processor.cpp:77-93 | over non-decreasing timestamps the processed pairs' tail times are non-decreasing and not before the last end |
| Integration.PoseOffsetsSorted | fastlivo/src/map_builder/imu_processor.cpp:93-94 | over non-decreasing timestamps the record offsets are non-decreasing and not before last end - cloud start |
| Integration.ScanIntegratesOnce | fastlivo/src/map_builder/imu_processor.cpp:73-97 | with the last end no later than the imu end, the loop plus the final extrapolation integrate exactly cloud end - max(imu begin, last end) |
| Integration.ConsecutiveScansIntegrateOnce | fastlivo/src/map_builder/imu_processor.cpp:73-99 | two consecutive scans, the second starting from the first's carried sample and end time, integrate the time from max(first sample, initial end) to the second scan end exactly once |
| Integration.ScanEndsRun | fastlivo/src/map_builder/imu_processor.cpp:96-97 | the final extrapolation from the loop's estimate is the filter run over all the scan's calls |
| ImuProcessor.IMUProcessor.IntegrateForward | fastlivo/src/map_builder/imu_processor.cpp:73-95 | the loop leaves the filter, the trace, the pose cache and the carried input and readings exactly as `ForwardPass` says |
| ImuProcessor.IMUProcessor.IntegrateScan | fastlivo/src/map_builder/imu_processor.cpp:56-99 | The working sequence is the last sample followed by the batch. The pose cache is the leading record at offset 0 followed by the loop's records. The trace gains the loop's calls plus the extrapolation to the cloud end, and the estimate is the run over them. `m_last_imu` becomes the newest sample and `m_last_end_time` the cloud end |
| ImuProcessor.IMUProcessor.Undistort | fastlivo/src/map_builder/imu_processor.cpp:54-132 | The cloud is first sorted (a permutation ordered by curvature), the scan is integrated as above, and the cloud ends as the deskew walk of the sorted points against the new pose cache and the scan-end pose |
| ImuProcessor.IMUProcessor.Process | fastlivo/src/map_builder/imu_processor.cpp:134-140 | The flag latches on once the buffer reaches the threshold. Without it, the call only buffers the batch: cloud, filter state, covariance, trace, pose cache, last sample, end time and last acc/gyro are unchanged. With it, the call undistorts exactly as `Undistort` states. The integration starts from the old filter when already initialised, and otherwise from the state and covariance `initialize` has just set (`ScanStart`), with the buffer's newest sample at the head of the working sequence |
| CloudSort.SortByCurvature | fastlivo/src/map_builder/imu_processor.cpp:65-66 | the points end ordered by curvature and are a permutation of the input |
| CloudSort.Insert | fastlivo/src/map_builder/imu_processor.cpp:65-66 | inserting a[i] keeps the prefix a[..i + 1] ordered and the contents a permutation |
| CloudSort.SortedByCurvatureIsByOffset | fastlivo/src/map_builder/imu_processor.cpp:65-118 | points sorted by curvature are sorted by the time offset curvature / 1000 the walk compares |
| Deskew.PointPosition | fastlivo/src/map_builder/imu_processor.cpp:123 | with zero head velocity and zero tail acceleration the point position is the head position |
| Deskew.InnerWalk | fastlivo/src/map_builder/imu_processor.cpp:118-130 | The inner loop keeps the number of points, never moves the pointer up, and only adds to the log. It stops at a point not later than the head, or right after rewriting point 0 |
| Deskew.OuterWalk | fastlivo/src/map_builder/imu_processor.cpp:107-131 | when at least one record pair ran, the walk ends at a point not later than the leading record, or right after rewriting point 0 |
| Deskew.WalkPoints | fastlivo/src/map_builder/imu_processor.cpp:118-130 | the in-place inner loop leaves the array and the pointer as `InnerWalk` says |
| Deskew.DeskewCloud | fastlivo/src/map_builder/imu_processor.cpp:106-131 | the in-place walk leaves the array as `DeskewWalk` of its old contents |
| DeskewProperties.DeskewGuarantees | fastlivo/src/map_builder/imu_processor.cpp:106-130 | Only coordinates change, and every rewrite uses dt = offset minus head offset > 0. Rewritten indices never increase, and only point 0 repeats. A point never rewritten keeps its value, and any other rewritten point holds its one compensation from its original coordinates |
| DeskewProperties.DeskewBrackets | fastlivo/src/map_builder/imu_processor.cpp:107-130 | with sorted points, every rewrite of a point other than the first lies after its head record and no later than its tail record, except that the last record bounds it only from below |
| DeskewProperties.DeskewCovers | fastlivo/src/map_builder/imu_processor.cpp:106-130 | with sorted points and at least two records, every point later than the leading record is rewritten |
| DeskewProperties.DeskewKeepsEarlyPoints | fastlivo/src/map_builder/imu_processor.cpp:118 | when no record offset is negative, points with offset at most 0 are never rewritten and keep their values |
| DeskewProperties.DeskewReplays | fastlivo/src/map_builder/imu_processor.cpp:106-131 | the final points are the original points with the walk's log replayed over them (`Replayed`) |
| DeskewProperties.PointReplays | fastlivo/src/map_builder/imu_processor.cpp:106-131 | every point, the first included, ends as its original value with each logged rewrite of its index applied in log order, each to the result of the one before |
| DeskewProperties.RevisitOfFirstPoint | fastlivo/src/map_builder/imu_processor.cpp:118-129 | Take two points with point 0 between records 1 and 2. Point 0 is rewritten against pair (1, 2), then once more, from its already rewritten value, against pair (0, 1), with a dt longer than that pair's span |
| DeskewProperties.CompensateAtReference | fastlivo/src/map_builder/imu_processor.cpp:124 | with orthonormal `cur_rot` and `cur_rot_ext`, compensating from the reference pose itself returns the input point |
| DeskewProperties.CompensateKeepsWorldPoint | fastlivo/src/map_builder/imu_processor.cpp:124 | The compensated point, seen from the reference pose, is the original point seen from the point's own pose |
| DeskewProperties.CompensatedAtRest | fastlivo/src/map_builder/imu_processor.cpp:120-124 | for records at rest at the reference pose (with exp(0) = I) the compensation returns the point's own coordinates |
| DeskewProperties.DeskewAtRest | fastlivo/src/map_builder/imu_processor.cpp:106-131 | when every record is at rest at the reference pose, the walk leaves every point as it was |

## Left out

- The filter internals (`kf::IESKF::predict`, `State::initG`) are parameters (`FilterModel.propagate`,
  `FilterModel.gravityOf`): the filter is external floating-point code.
- `Sophus::SO3d::exp`, `Eigen::Quaterniond::FromTwoVectors` and `normalized()` are parameters
  (`Numerics`): they are library numerics.
- `double` is modelled as exact `real`. The telescoping and identity properties therefore
  hold for the idealised arithmetic, not bit for bit.
- The PCL cloud is modelled as an array of points (x, y, z, curvature). Intensity and
  other point fields are not modelled.
- `std::sort` is modelled as an insertion sort, so the model promises only an ordered
  permutation. Which of several equal points comes first is not promised.
- `Undistort` runs the sort before the integration. The sort touches only the cloud, and the
  integration never reads the cloud.
- The default-constructed `kf::Input` (used by the final predict when no pair was processed)
  is taken to be zero. Its definition is not part of this model.
- The constructor does not set `m_last_end_time` or `m_last_imu`, and the model does not
  constrain their initial values.
- The dimensions of `P` and `m_Q` are parameters (`IESKF.dim` at least 23, `qDim` at least 12),
  the largest indices the source writes.
- `Initialize`, `Process`: the caller must not let an empty buffer reach the threshold (a
  threshold of 0 with no samples), since the source would then divide by zero and read
  `back()` of an empty vector.
- `Undistort`: the cloud must be non-empty, since line 106 dereferences `end() - 1`. `Process`
  demands this only of the calls that reach `undistort`.
- `Integration.ConsecutiveScansIntegrateOnce` assumes each batch's last sample is no later than
  its cloud end. When a sample is later, the final extrapolation of lines 96-97 has a negative
  dt. The next scan then integrates from that sample, so the interval between the cloud end and
  the sample is never integrated. The model states no property for this case.
- No member claims that each point is transformed exactly once. The source does not
  guarantee it (see `RevisitOfFirstPoint`).
- The initialising call of `process` integrates again the batch it has just buffered. The
  working sequence starts at the buffer's newest sample. The model states this as it is.
- Logging, threading and the rest of the pipeline (headers, `Config` parsing) are outside
  this core.
