/** Element-wise application of a scalar map to a series, as numpy applies a fitted
    scaler's transform or inverse transform to a column of prices. */
module Series {

  function Apply(f: real -> real, v: seq<real>): (w: seq<real>)
    ensures |w| == |v| && forall i :: 0 <= i < |v| ==> w[i] == f(v[i])
  {
    seq(|v|, i requires 0 <= i < |v| => f(v[i]))
  }
}
