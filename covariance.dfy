/**
  Dense square matrices for the estimator's error covariance P and the process-noise
  covariance Q, and the block-diagonal values the IMU processor writes into them
  (imu_processor.cpp, constructor lines 7-11 and initialize lines 44-49).
 */
module Covariance {

  type Matrix = seq<seq<real>>

  predicate IsSquare(m: Matrix, n: nat)
  {
    |m| == n && forall i :: 0 <= i < n ==> |m[i]| == n
  }

  /** Eigen's setIdentity on an n x n matrix. */
  function Identity(n: nat): (m: Matrix)
    ensures IsSquare(m, n)
  {
    seq(n, i => seq(n, j => if i == j then 1.0 else 0.0))
  }

  predicate InBlock(start: nat, size: nat, i: nat)
  {
    start <= i < start + size
  }

  /** `m.block<size, size>(start, start) = Identity * s`: only the diagonal block changes. */
  function SetDiagonalBlock(m: Matrix, start: nat, size: nat, s: real): (r: Matrix)
    requires IsSquare(m, |m|) && start + size <= |m|
    ensures IsSquare(r, |m|)
  {
    seq(|m|, i requires 0 <= i < |m| =>
      seq(|m|, j requires 0 <= j < |m| =>
        if InBlock(start, size, i) && InBlock(start, size, j) then (if i == j then s else 0.0) else m[i][j]))
  }

  predicate Diagonal(m: Matrix)
    requires IsSquare(m, |m|)
  {
    forall i, j :: 0 <= i < |m| && 0 <= j < |m| && i != j ==> m[i][j] == 0.0
  }

  /** The process noise m_Q: identity with the four 3x3 noise blocks ng, na, nbg, nba. */
  function ProcessNoise(n: nat, ng: real, na: real, nbg: real, nba: real): (q: Matrix)
    requires n >= 12
    ensures IsSquare(q, n)
  {
    var m0 := Identity(n);
    var m1 := SetDiagonalBlock(m0, 0, 3, ng);
    var m2 := SetDiagonalBlock(m1, 3, 3, na);
    var m3 := SetDiagonalBlock(m2, 6, 3, nbg);
    SetDiagonalBlock(m3, 9, 3, nba)
  }

  /** The noise density on the i-th diagonal entry of m_Q. */
  function NoiseAt(i: nat, ng: real, na: real, nbg: real, nba: real): real
  {
    if i < 3 then ng else if i < 6 then na else if i < 9 then nbg else if i < 12 then nba else 1.0
  }

  lemma ProcessNoiseEntries(n: nat, ng: real, na: real, nbg: real, nba: real)
    requires n >= 12
    ensures var q := ProcessNoise(n, ng, na, nbg, nba);
      Diagonal(q) && forall i :: 0 <= i < n ==> q[i][i] == NoiseAt(i, ng, na, nbg, nba)
  {
  }

  /** The covariance P written by initialize: identity, then five scaled diagonal blocks. */
  function InitialCovariance(n: nat): (p: Matrix)
    requires n >= 23
    ensures IsSquare(p, n)
  {
    var m0 := Identity(n);
    var m1 := SetDiagonalBlock(m0, 6, 3, 0.00001);
    var m2 := SetDiagonalBlock(m1, 9, 3, 0.00001);
    var m3 := SetDiagonalBlock(m2, 15, 3, 0.0001);
    var m4 := SetDiagonalBlock(m3, 18, 3, 0.0001);
    SetDiagonalBlock(m4, 21, 2, 0.00001)
  }

  /** The variance on the i-th diagonal entry of the initial P. */
  function InitialVarianceAt(i: nat): real
  {
    if 6 <= i < 12 || 21 <= i < 23 then 0.00001
    else if 15 <= i < 21 then 0.0001
    else 1.0
  }

  /** The initial P is diagonal with strictly positive variances (so positive definite). */
  lemma InitialCovarianceEntries(n: nat)
    requires n >= 23
    ensures var p := InitialCovariance(n);
      Diagonal(p) && forall i :: 0 <= i < n ==> p[i][i] == InitialVarianceAt(i) && p[i][i] > 0.0
  {
  }
}
