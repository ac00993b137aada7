/** The per-frame angle bookkeeping of one body: each frame its revolution
    angle advances by revolution speed x 0.1 x time speed and its rotation
    angle by rotation speed x 0.5 x time speed. Angles are degrees, kept
    unbounded; the floats of the program are idealised as reals. */
module Kinematics {

  /** Scale applied to a body's revolution speed every frame. */
  const RevolutionFactor: real := 0.1
  /** Scale applied to a body's rotation speed every frame. */
  const RotationFactor: real := 0.5

  /** Where a body is along its orbit and how far it has spun, in degrees. */
  datatype Angles = Angles(revolution: real, rotation: real)

  /** A body's per-frame speeds, constant after construction. */
  datatype Speeds = Speeds(revolution: real, rotation: real)

  /** The bodies' angles at start-up. */
  const AtRest: Angles := Angles(0.0, 0.0)

  /** The angles after one frame at time speed `t`. A body with no
      revolution speed stays where it is on its orbit; with a positive time
      speed and non-negative speeds no angle decreases. */
  function Tick(a: Angles, s: Speeds, t: real): (r: Angles)
    ensures s.revolution == 0.0 ==> r.revolution == a.revolution
    ensures s.rotation == 0.0 ==> r.rotation == a.rotation
    ensures t > 0.0 && s.revolution >= 0.0 ==> r.revolution >= a.revolution
    ensures t > 0.0 && s.rotation >= 0.0 ==> r.rotation >= a.rotation
  {
    Angles(a.revolution + s.revolution * RevolutionFactor * t,
           a.rotation + s.rotation * RotationFactor * t)
  }

  /** The angles after `n` frames at a constant time speed `t`: the
      accumulation is exactly linear, each angle having grown by `n` times its
      per-frame step. */
  function Ticks(a: Angles, s: Speeds, t: real, n: nat): (r: Angles)
    ensures r.revolution == a.revolution + n as real * (s.revolution * RevolutionFactor * t)
    ensures r.rotation == a.rotation + n as real * (s.rotation * RotationFactor * t)
  {
    if n == 0 then a
    else
      var rev, rot := s.revolution * RevolutionFactor * t, s.rotation * RotationFactor * t;
      assert (n - 1) as real * rev + rev == n as real * rev;
      assert (n - 1) as real * rot + rot == n as real * rot;
      Tick(Ticks(a, s, t, n - 1), s, t)
  }

  /** Running `n` frames and then `m` more is running `n + m` frames. */
  lemma {:induction false} TicksCompose(a: Angles, s: Speeds, t: real, n: nat, m: nat)
    ensures Ticks(Ticks(a, s, t, n), s, t, m) == Ticks(a, s, t, n + m)
  {
    if m > 0 {
      TicksCompose(a, s, t, n, m - 1);
    }
  }

  /** A body with no revolution speed (the sun) never moves along its orbit,
      whatever the time speed and however many frames pass. */
  lemma StillBodyStaysPut(a: Angles, s: Speeds, t: real, n: nat)
    requires s.revolution == 0.0
    ensures Ticks(a, s, t, n).revolution == a.revolution
  {
  }

  /** Ten frames at time speed 2.0 move a body of revolution speed 1.5
      (mercury) from rest to revolution angle 3.0 degrees. */
  lemma TenFramesAtDoubleSpeed()
    ensures Ticks(AtRest, Speeds(1.5, 2.0), 2.0, 10).revolution == 3.0
    ensures Ticks(AtRest, Speeds(1.5, 2.0), 2.0, 10).rotation == 20.0
  {
  }
}
