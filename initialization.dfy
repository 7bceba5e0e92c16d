/**
  The arithmetic of IMUProcessor::initialize (imu_processor.cpp lines 24-32): the
  componentwise sums and means of the buffered accelerations and angular rates.
 */
module Initialization {
  import opened Geometry
  import opened Sensors

  /** The sum of a sequence of vectors, accumulated left to right. */
  function Sum(vs: seq<Vec3>): Vec3
  {
    if vs == [] then Zero() else Add(Sum(vs[..|vs| - 1]), vs[|vs| - 1])
  }

  function Mean(vs: seq<Vec3>): Vec3
    requires |vs| > 0
  {
    Div(Sum(vs), |vs| as real)
  }

  function Accs(s: seq<IMUData>): (r: seq<Vec3>)
    ensures |r| == |s| && forall i :: 0 <= i < |s| ==> r[i] == s[i].acc
  {
    seq(|s|, i requires 0 <= i < |s| => s[i].acc)
  }

  function Gyros(s: seq<IMUData>): (r: seq<Vec3>)
    ensures |r| == |s| && forall i :: 0 <= i < |s| ==> r[i] == s[i].gyro
  {
    seq(|s|, i requires 0 <= i < |s| => s[i].gyro)
  }

  /** The accumulation loop of lines 26-30. */
  method SumReadings(cache: seq<IMUData>) returns (accSum: Vec3, gyroSum: Vec3)
    ensures accSum == Sum(Accs(cache)) && gyroSum == Sum(Gyros(cache))
  {
    accSum, gyroSum := Zero(), Zero();
    var i := 0;
    while i < |cache|
      invariant 0 <= i <= |cache|
      invariant accSum == Sum(Accs(cache[..i])) && gyroSum == Sum(Gyros(cache[..i]))
    {
      assert Accs(cache[..i + 1])[..i] == Accs(cache[..i]);
      assert Gyros(cache[..i + 1])[..i] == Gyros(cache[..i]);
      accSum := Add(accSum, cache[i].acc);
      gyroSum := Add(gyroSum, cache[i].gyro);
      i := i + 1;
    }
    assert cache[..i] == cache;
  }

  /** The sum over a buffer filled in two batches is the sum of the batches' sums. */
  lemma {:induction false} SumAppend(a: seq<Vec3>, b: seq<Vec3>)
    ensures Sum(a + b) == Add(Sum(a), Sum(b))
  {
    if b == [] {
      assert a + b == a;
    } else {
      var b', last := b[..|b| - 1], b[|b| - 1];
      assert (a + b)[..|a + b| - 1] == a + b';
      assert (a + b)[|a + b| - 1] == last;
      SumAppend(a, b');
      calc {
        Sum(a + b);
        Add(Sum(a + b'), last);
        Add(Add(Sum(a), Sum(b')), last);
        Add(Sum(a), Add(Sum(b'), last));
        Add(Sum(a), Sum(b));
      }
    }
  }

  lemma {:induction false} SumOfConstant(vs: seq<Vec3>, v: Vec3)
    requires forall i :: 0 <= i < |vs| ==> vs[i] == v
    ensures Sum(vs) == Scale(v, |vs| as real)
  {
    if vs != [] {
      SumOfConstant(vs[..|vs| - 1], v);
    }
  }

  /** A stationary buffer (every reading equal) has that reading as its mean. */
  lemma MeanOfConstant(vs: seq<Vec3>, v: Vec3)
    requires |vs| > 0
    requires forall i :: 0 <= i < |vs| ==> vs[i] == v
    ensures Mean(vs) == v
  {
    SumOfConstant(vs, v);
  }
}
