/**
  The error-state Kalman filter (kf::IESKF) as the IMU processor sees it: a mutable
  state, a mutable covariance and a `predict` step. The filter's own prediction and
  covariance mathematics are not modelled: `FilterModel.propagate` stands for them,
  and every call of Predict is logged in the ghost `trace`.
 */
module Estimator {
  import opened Geometry
  import opened Covariance

  /** The filter state fields the IMU processor reads or writes. */
  datatype State = State(
    rot: Mat3, pos: Vec3, vel: Vec3,
    bg: Vec3, ba: Vec3, g: Vec3,
    rotExt: Mat3, posExt: Vec3)

  /** kf::Input: the inertial input of one prediction step. */
  datatype Input = Input(acc: Vec3, gyro: Vec3)

  /** The default-constructed kf::Input. */
  function DefaultInput(): Input { Input(Zero(), Zero()) }

  /** One logged call of predict. */
  datatype Step = Step(input: Input, dt: real)

  datatype Estimate = Estimate(x: State, P: Matrix)

  /**
    The filter's external numerics: `propagate` advances state and covariance by dt
    with the given input and process noise; `gravityOf` is State::initG's mapping from
    the direction it is given to the gravity vector it stores.
   */
  datatype FilterModel = FilterModel(
    propagate: (Estimate, Input, real, Matrix) -> Estimate,
    gravityOf: Vec3 -> Vec3)

  /** The estimate after propagating e0 through every step of `steps`, in order. */
  function Run(m: FilterModel, q: Matrix, e0: Estimate, steps: seq<Step>): Estimate
  {
    if steps == [] then e0
    else
      var last := steps[|steps| - 1];
      m.propagate(Run(m, q, e0, steps[..|steps| - 1]), last.input, last.dt, q)
  }

  /** One more step extends a run by one propagation. */
  lemma RunAppend(m: FilterModel, q: Matrix, e0: Estimate, steps: seq<Step>, st: Step)
    ensures Run(m, q, e0, steps + [st]) == m.propagate(Run(m, q, e0, steps), st.input, st.dt, q)
  {
    assert (steps + [st])[..|steps|] == steps;
  }

  class IESKF {
    var x: State
    var P: Matrix
    /** Every (input, dt) passed to predict, oldest first. */
    ghost var trace: seq<Step>
    const model: FilterModel
    /** The fixed dimension of the error state (of P). */
    const dim: nat

    /** A filter with the given state and covariance; the processor never constructs one. */
    constructor (x0: State, P0: Matrix, dim: nat, model: FilterModel)
      ensures x == x0 && P == P0 && trace == []
      ensures this.model == model && this.dim == dim
    {
      this.x := x0;
      this.P := P0;
      this.trace := [];
      this.model := model;
      this.dim := dim;
    }

    /** kf->predict(inp, dt, Q). */
    method Predict(inp: Input, dt: real, q: Matrix)
      modifies this
      ensures Estimate(x, P) == model.propagate(Estimate(old(x), old(P)), inp, dt, q)
      ensures trace == old(trace) + [Step(inp, dt)]
    {
      var e := model.propagate(Estimate(x, P), inp, dt, q);
      x := e.x;
      P := e.P;
      trace := trace + [Step(inp, dt)];
    }
  }
}
