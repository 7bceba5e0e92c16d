/**
  Real 3-vectors and 3x3 matrices: the Eigen::Vector3d / Eigen::Matrix3d arithmetic
  the IMU processor uses, over exact reals (an idealisation of double).
 */
module Geometry {

  datatype Vec3 = Vec3(x: real, y: real, z: real)

  /** A 3x3 matrix given by its rows. */
  datatype Mat3 = Mat3(r0: Vec3, r1: Vec3, r2: Vec3)

  function Zero(): Vec3 { Vec3(0.0, 0.0, 0.0) }

  function Add(a: Vec3, b: Vec3): Vec3 { Vec3(a.x + b.x, a.y + b.y, a.z + b.z) }

  function Sub(a: Vec3, b: Vec3): Vec3 { Vec3(a.x - b.x, a.y - b.y, a.z - b.z) }

  function Neg(a: Vec3): Vec3 { Vec3(-a.x, -a.y, -a.z) }

  function Scale(a: Vec3, s: real): Vec3 { Vec3(a.x * s, a.y * s, a.z * s) }

  /** Componentwise division, Eigen's `v /= d`. */
  function Div(a: Vec3, d: real): Vec3
    requires d != 0.0
  {
    Vec3(a.x / d, a.y / d, a.z / d)
  }

  function Dot(a: Vec3, b: Vec3): real { a.x * b.x + a.y * b.y + a.z * b.z }

  function Col0(m: Mat3): Vec3 { Vec3(m.r0.x, m.r1.x, m.r2.x) }
  function Col1(m: Mat3): Vec3 { Vec3(m.r0.y, m.r1.y, m.r2.y) }
  function Col2(m: Mat3): Vec3 { Vec3(m.r0.z, m.r1.z, m.r2.z) }

  function Transpose(m: Mat3): Mat3 { Mat3(Col0(m), Col1(m), Col2(m)) }

  function MatVec(m: Mat3, v: Vec3): Vec3 { Vec3(Dot(m.r0, v), Dot(m.r1, v), Dot(m.r2, v)) }

  function MatMul(a: Mat3, b: Mat3): Mat3 { Mat3(MatVec(Transpose(b), a.r0), MatVec(Transpose(b), a.r1), MatVec(Transpose(b), a.r2)) }

  function Identity3(): Mat3 { Mat3(Vec3(1.0, 0.0, 0.0), Vec3(0.0, 1.0, 0.0), Vec3(0.0, 0.0, 1.0)) }

  /** A rotation matrix: its transpose is its inverse. */
  predicate Orthonormal(m: Mat3) { MatMul(Transpose(m), m) == Identity3() }

  lemma IdentityActsTrivially(v: Vec3)
    ensures MatVec(Identity3(), v) == v
  {
  }

  /** Applying b then a is applying their product. */
  lemma MatVecCompose(a: Mat3, b: Mat3, v: Vec3)
    ensures MatVec(a, MatVec(b, v)) == MatVec(MatMul(a, b), v)
  {
  }

  /** For a rotation, the transpose undoes the rotation. */
  lemma TransposeUndoes(m: Mat3, v: Vec3)
    requires Orthonormal(m)
    ensures MatVec(Transpose(m), MatVec(m, v)) == v
  {
    MatVecCompose(Transpose(m), m, v);
    IdentityActsTrivially(v);
  }

  /** When the rows are orthonormal too, the rotation undoes its transpose. */
  lemma RotationUndoesTranspose(m: Mat3, v: Vec3)
    requires Orthonormal(Transpose(m))
    ensures MatVec(m, MatVec(Transpose(m), v)) == v
  {
    assert Transpose(Transpose(m)) == m;
    TransposeUndoes(Transpose(m), v);
  }

  lemma MatMulIdentity(m: Mat3)
    ensures MatMul(m, Identity3()) == m
  {
  }
}
