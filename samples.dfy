/** A motion-sensor sample: nine integers (accelerometer, gyroscope and
    magnetometer, three axes each). Shared by the data sources, the model
    and the plot window. */
module Samples {

  /** Number of values in one sample. */
  const Width: nat := 9

  /** A list of values is accepted as a sample when it has exactly Width entries. */
  predicate IsSample(d: seq<int>) {
    |d| == Width
  }

  /** The list `[0] * n`. */
  function Zeros(n: nat): (z: seq<int>)
    ensures |z| == n
    ensures forall i :: 0 <= i < n ==> z[i] == 0
  {
    seq(n, _ => 0)
  }
}
