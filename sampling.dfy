/** The angles at which orbit paths and rings are sampled. Vertices are kept
    in polar form (radius and whole degrees); the cosine and sine that turn
    them into coordinates, and the drawing calls, are not modelled. */
module Sampling {

  /** Python's `range(start, stop, step)` for a positive step: `start`,
      `start + step`, ... while below `stop`. Every element lies in
      [start, stop), and a non-empty range begins at `start`. */
  function Range(start: int, stop: int, step: int): (r: seq<int>)
    requires step > 0
    ensures forall x :: x in r ==> start <= x < stop
    ensures start < stop <==> |r| > 0
    ensures start < stop ==> r[0] == start
    decreases stop - start
  {
    if start >= stop then [] else [start] + Range(start + step, stop, step)
  }

  /** The k-th element of a range is `start + k * step`, and the length is
      the number of steps that fit below `stop`. */
  lemma {:induction false} RangeShape(start: int, stop: int, step: int)
    requires step > 0
    ensures start >= stop ==> Range(start, stop, step) == []
    ensures start < stop ==> (|Range(start, stop, step)| - 1) * step < stop - start <= |Range(start, stop, step)| * step
    ensures forall k :: 0 <= k < |Range(start, stop, step)| ==> Range(start, stop, step)[k] == start + k * step
    decreases stop - start
  {
    if start < stop {
      var rest := Range(start + step, stop, step);
      RangeShape(start + step, stop, step);
      var n := |rest|;
      assert (n + 1) * step == n * step + step;
      if n > 0 {
        assert (n - 1) * step + step == n * step;
      }
      forall k | 1 <= k <= n
        ensures Range(start, stop, step)[k] == start + k * step
      {
        assert Range(start, stop, step)[k] == rest[k - 1] == start + step + (k - 1) * step;
      }
    }
  }

  /** Degree step between two samples of an orbit path. */
  const OrbitStep: int := 5
  /** Degree step between two samples of a ring. */
  const RingStep: int := 10

  /** The degrees an orbit path is sampled at: 73 samples, every fifth
      degree from 0 to 360, so the last sample repeats the first direction
      and the loop closes. */
  function OrbitDegrees(): (d: seq<int>)
    ensures |d| == 73
    ensures forall k :: 0 <= k < |d| ==> d[k] == OrbitStep * k
    ensures d[0] == 0 && d[72] == 360
  {
    RangeShape(0, 361, OrbitStep);
    Range(0, 361, OrbitStep)
  }

  /** The degrees a ring is sampled at: 37 samples, every tenth degree from
      0 to 360. */
  function RingDegrees(): (d: seq<int>)
    ensures |d| == 37
    ensures forall k :: 0 <= k < |d| ==> d[k] == RingStep * k
    ensures d[0] == 0 && d[36] == 360
  {
    RangeShape(0, 361, RingStep);
    Range(0, 361, RingStep)
  }

  /** A vertex in the local horizontal plane, as radius and whole degrees. */
  datatype Vertex = Polar(radius: real, degrees: int)

  /** The closed line loop of an orbit of the given radius: one vertex per
      sample, in order. */
  method DrawOrbit(distance: real) returns (path: seq<Vertex>)
    ensures |path| == 73
    ensures forall k :: 0 <= k < |path| ==> path[k] == Polar(distance, OrbitStep * k)
    ensures path[0] == path[72].(degrees := 0) && path[72].degrees == 360
  {
    var degrees := OrbitDegrees();
    path := [];
    for j := 0 to |degrees|
      invariant |path| == j
      invariant forall k :: 0 <= k < j ==> path[k] == Polar(distance, degrees[k])
    {
      path := path + [Polar(distance, degrees[j])];
    }
  }

  /** The quad strip of a ring between two radii: for each sample an inner
      then an outer vertex at the same angle. */
  method DrawRing(innerRadius: real, outerRadius: real) returns (strip: seq<Vertex>)
    ensures |strip| == 2 * 37
    ensures forall k :: 0 <= k < 37 ==> strip[2 * k] == Polar(innerRadius, RingStep * k)
    ensures forall k :: 0 <= k < 37 ==> strip[2 * k + 1] == Polar(outerRadius, RingStep * k)
  {
    var degrees := RingDegrees();
    strip := [];
    for j := 0 to |degrees|
      invariant |strip| == 2 * j
      invariant forall k :: 0 <= k < j ==> strip[2 * k] == Polar(innerRadius, degrees[k])
      invariant forall k :: 0 <= k < j ==> strip[2 * k + 1] == Polar(outerRadius, degrees[k])
    {
      strip := strip + [Polar(innerRadius, degrees[j]), Polar(outerRadius, degrees[j])];
    }
    forall k | 0 <= k < 37
      ensures strip[2 * k] == Polar(innerRadius, RingStep * k)
      ensures strip[2 * k + 1] == Polar(outerRadius, RingStep * k)
    {
      assert degrees[k] == RingStep * k;
    }
  }

  /** The band a ring is drawn in, from 1.5 to 2.2 times its body's radius:
      it lies wholly outside the body. */
  function RingBand(radius: real): (band: (real, real))
    ensures radius > 0.0 ==> radius < band.0 < band.1
    ensures band.1 - band.0 == radius * 0.7
  {
    (radius * 1.5, radius * 2.2)
  }
}
