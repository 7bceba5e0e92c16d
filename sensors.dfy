/**
  The records the IMU processor consumes and produces: inertial samples, LiDAR points,
  trajectory records (IMUPose), the synchronised scan package and the configuration.
 */
module Sensors {
  import opened Geometry

  /** IMUData: one inertial sample. */
  datatype IMUData = IMUData(timestamp: real, acc: Vec3, gyro: Vec3)

  /**
    PointType: a LiDAR point; `curvature` carries the point's time offset from the
    scan start in milliseconds.
   */
  datatype Point = Point(x: real, y: real, z: real, curvature: real)

  /** The newest sample of a buffer, std::vector::back(). */
  function Last(imus: seq<IMUData>): IMUData
    requires |imus| > 0
  {
    imus[|imus| - 1]
  }

  /** The point's time offset in seconds, the quantity the deskew walk compares. */
  function Offset(p: Point): real { p.curvature / 1000.0 }

  /** Points ordered by time offset, as the sort at lines 65-66 leaves them. */
  predicate SortedByOffset(pts: seq<Point>)
  {
    forall i, j :: 0 <= i <= j < |pts| ==> Offset(pts[i]) <= Offset(pts[j])
  }

  /** One entry of m_imu_poses_cache. */
  datatype IMUPose = IMUPose(offset: real, acc: Vec3, gyro: Vec3, vel: Vec3, pos: Vec3, rot: Mat3)

  /** SyncPackage: the inertial batch and the scan, whose points are rewritten in place. */
  datatype SyncPackage = SyncPackage(
    imus: seq<IMUData>, cloud: array<Point>,
    cloudStartTime: real, cloudEndTime: real)

  /** The Config fields the IMU processor reads. */
  datatype Config = Config(
    ng: real, na: real, nbg: real, nba: real,
    rIl: Mat3, pIl: Vec3,
    imuInitNum: nat, gravityAlign: bool)

  /**
    Library numerics used as black boxes: Sophus::SO3d::exp(..).matrix(),
    Eigen::Quaterniond::FromTwoVectors(a, b).matrix() and Vector3d::normalized().
   */
  datatype Numerics = Numerics(
    so3Exp: Vec3 -> Mat3,
    fromTwoVectors: (Vec3, Vec3) -> Mat3,
    normalized: Vec3 -> Vec3)
}
