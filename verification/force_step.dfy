/** One particle's update in one animation frame: zone repulsion away from
    the pointer target, damping, a spring back to the rest position, optional
    jitter, a velocity clamp and the position integration. */
module ForceStep {
  import opened Results
  import opened Numerics
  import opened Vectors

  /** A repulsion zone: particles closer than `distance` to the target are
      pushed with `strength / dist²`. */
  datatype Zone = Zone(distance: real, strength: real)

  datatype Interactions = Interactions(repulse: Zone, bigRepulse: Zone)

  datatype Restless = Restless(enabled: bool, value: real)

  /** The movement settings; `speed` is only read at initialisation. */
  datatype Movement = Movement(speed: real, damping: real, returnForce: real, maxVelocity: real, restless: Restless)

  /** A particle's live position and velocity. */
  datatype Motion = Motion(pos: Vec3, vel: Vec3)

  /** The zone a distance selects. The big zone is tested first, so it wins
      wherever both zones contain the particle. */
  datatype ZoneHit = BigZone | NormalZone | Outside

  function ZoneOf(inter: Interactions, dist: real): (z: ZoneHit)
    ensures z == BigZone <==> dist < inter.bigRepulse.distance
    ensures z == NormalZone <==> inter.bigRepulse.distance <= dist < inter.repulse.distance
  {
    if dist < inter.bigRepulse.distance then BigZone
    else if dist < inter.repulse.distance then NormalZone
    else Outside
  }

  /** The force magnitude exactly as the source computes it; `None` where it
      divides by a zero distance (JavaScript yields `Infinity` or `NaN`). */
  function RawForce(inter: Interactions, dist: real): (f: Option<real>)
    ensures f.None? <==> dist == 0.0 && ZoneOf(inter, dist) != Outside
    ensures dist != 0.0 && dist < inter.bigRepulse.distance ==> f == Some(inter.bigRepulse.strength / Sq(dist))
    ensures dist != 0.0 && inter.bigRepulse.distance <= dist < inter.repulse.distance ==> f == Some(inter.repulse.strength / Sq(dist))
    ensures inter.bigRepulse.distance <= dist && inter.repulse.distance <= dist ==> f == Some(0.0)
  {
    match ZoneOf(inter, dist)
    case BigZone => if dist == 0.0 then None else Some(inter.bigRepulse.strength / Sq(dist))
    case NormalZone => if dist == 0.0 then None else Some(inter.repulse.strength / Sq(dist))
    case Outside => Some(0.0)
  }

  /** A particle exactly at the target while the big zone has positive
      reach: the source's force is not a finite number there, the guarded
      force is zero. */
  lemma UnguardedAtTarget(inter: Interactions)
    requires 0.0 < inter.bigRepulse.distance
    ensures RawForce(inter, 0.0) == None
    ensures Force(inter, 0.0) == 0.0
  {
  }

  /** The force magnitude with a guard for a particle exactly at the target:
      there it is zero, so no push is applied. Everywhere else it is the
      source's value. */
  function Force(inter: Interactions, dist: real): (f: real)
    ensures dist != 0.0 ==> RawForce(inter, dist) == Some(f)
    ensures dist == 0.0 || ZoneOf(inter, dist) == Outside ==> f == 0.0
  {
    if dist == 0.0 then 0.0
    else
      match ZoneOf(inter, dist)
      case BigZone => inter.bigRepulse.strength / Sq(dist)
      case NormalZone => inter.repulse.strength / Sq(dist)
      case Outside => 0.0
  }

  /** Zone precedence for the guarded force: the big zone's strength over
      `dist²` inside the big zone, otherwise the normal zone's inside the
      normal zone, otherwise nothing. */
  lemma ZonePrecedence(inter: Interactions, dist: real)
    requires 0.0 < dist
    ensures dist < inter.bigRepulse.distance ==> Force(inter, dist) == inter.bigRepulse.strength / Sq(dist)
    ensures inter.bigRepulse.distance <= dist < inter.repulse.distance ==> Force(inter, dist) == inter.repulse.strength / Sq(dist)
    ensures inter.bigRepulse.distance <= dist && inter.repulse.distance <= dist ==> Force(inter, dist) == 0.0
  {
  }

  /** The velocity change the repulsion adds: the direction `d / dist` scaled
      by the force, and nothing unless the force is positive. */
  function Push(d: Vec3, dist: real, force: real): (r: Vec3)
    requires 0.0 < force ==> dist != 0.0
    ensures force <= 0.0 ==> r == Zero
  {
    if 0.0 < force then Vec3(d.x / dist * force, d.y / dist * force, d.z / dist * force) else Zero
  }

  /** The restless jitter: `(Math.random() - 0.5) * value` per component when
      enabled, nothing otherwise. */
  function Jitter(r: Restless, draw: Vec3): (j: Vec3)
    requires UnitDraws(draw)
    ensures !r.enabled ==> j == Zero
    ensures 0.0 <= r.value ==> WithinBox(j, r.value / 2.0)
    ensures 0.0 < r.value ==> j.x < r.value / 2.0 && j.y < r.value / 2.0 && j.z < r.value / 2.0
  {
    if r.enabled then Vec3(Centered(draw.x, r.value), Centered(draw.y, r.value), Centered(draw.z, r.value))
    else Zero
  }

  /** Distance from the target, through the supplied `sqrt`: with a sound
      square root it is the non-negative length of `p - target`. */
  function Dist(m: MathFns, p: Vec3, target: Vec3): (r: real)
    ensures SqrtSound(m) ==> 0.0 <= r && r * r == NormSq(Sub(p, target))
  {
    NormSqNonneg(Sub(p, target));
    m.sqrt(NormSq(Sub(p, target)))
  }

  /** The source pushes nothing: its force is a number and not positive.
      This excludes the particle on the target inside a zone, where the
      source's force is not a number at all. */
  predicate Unpushed(inter: Interactions, dist: real) {
    RawForce(inter, dist).Some? && RawForce(inter, dist).value <= 0.0
  }

  /** Where the source pushes nothing, the guarded force agrees with it. */
  lemma UnpushedForce(inter: Interactions, dist: real)
    requires Unpushed(inter, dist)
    ensures Force(inter, dist) == RawForce(inter, dist).value && Force(inter, dist) <= 0.0
  {
  }

  /** The velocity after push, damping, spring and jitter, before the clamp.
      The spring reads the position from the start of the frame. Without a
      push it is the damped velocity, the spring and the jitter. */
  function Accelerate(p: Vec3, v: Vec3, rest: Vec3, target: Vec3, inter: Interactions, mv: Movement, m: MathFns, draw: Vec3): (r: Vec3)
    requires UnitDraws(draw)
    ensures Force(inter, Dist(m, p, target)) <= 0.0 ==>
      r == Add(Add(Scale(mv.damping, v), Scale(mv.returnForce, Sub(rest, p))), Jitter(mv.restless, draw))
  {
    var d := Sub(p, target);
    var dist := Dist(m, p, target);
    var pushed := Add(v, Push(d, dist, Force(inter, dist)));
    var damped := Scale(mv.damping, pushed);
    var sprung := Add(damped, Scale(mv.returnForce, Sub(rest, p)));
    Add(sprung, Jitter(mv.restless, draw))
  }

  /** With a positive force the push is `(force / dist) · (p − target)`, added
      to the velocity before damping. */
  lemma AcceleratePushed(p: Vec3, v: Vec3, rest: Vec3, target: Vec3, inter: Interactions, mv: Movement, m: MathFns, draw: Vec3)
    requires UnitDraws(draw) && SqrtSound(m)
    ensures var dist := Dist(m, p, target);
      var f := Force(inter, dist);
      0.0 < f ==>
        Accelerate(p, v, rest, target, inter, mv, m, draw) == Add(Add(Scale(mv.damping, Add(v, Scale(f / dist, Sub(p, target)))), Scale(mv.returnForce, Sub(rest, p))), Jitter(mv.restless, draw))
  {
    PushOutward(m, p, target, inter);
  }

  /** One particle's frame update. */
  function StepParticle(k: Motion, rest: Vec3, target: Vec3, inter: Interactions, mv: Movement, m: MathFns, draw: Vec3): (r: Motion)
    requires UnitDraws(draw)
    ensures 0.0 <= mv.maxVelocity ==> WithinBox(r.vel, mv.maxVelocity)
    ensures r.pos == Add(k.pos, r.vel)
    ensures 0.0 <= mv.maxVelocity && WithinBox(Accelerate(k.pos, k.vel, rest, target, inter, mv, m, draw), mv.maxVelocity)
      ==> r.vel == Accelerate(k.pos, k.vel, rest, target, inter, mv, m, draw)
    ensures r.vel == ClampVec(Accelerate(k.pos, k.vel, rest, target, inter, mv, m, draw), mv.maxVelocity)
  {
    var v := ClampVec(Accelerate(k.pos, k.vel, rest, target, inter, mv, m, draw), mv.maxVelocity);
    Motion(Add(k.pos, v), v)
  }

  /** Inside both zones the big zone's force applies alone, never the sum of
      the two, even when the big zone is the larger one. */
  lemma BigZoneWins(inter: Interactions, dist: real)
    requires 0.0 < dist && dist < inter.bigRepulse.distance && dist < inter.repulse.distance
    ensures Force(inter, dist) == inter.bigRepulse.strength / Sq(dist)
    ensures inter.repulse.strength != 0.0 ==>
      Force(inter, dist) != inter.bigRepulse.strength / Sq(dist) + inter.repulse.strength / Sq(dist)
  {
  }

  /** Within one zone of non-negative strength, a closer particle is pushed
      at least as hard as a farther one. */
  lemma ForceMonotone(inter: Interactions, d1: real, d2: real)
    requires 0.0 < d1 <= d2 && ZoneOf(inter, d1) == ZoneOf(inter, d2)
    requires 0.0 <= inter.bigRepulse.strength && 0.0 <= inter.repulse.strength
    ensures Force(inter, d2) <= Force(inter, d1)
  {
    match ZoneOf(inter, d1)
    case BigZone => InverseSquareAntitone(inter.bigRepulse.strength, d1, d2);
    case NormalZone => InverseSquareAntitone(inter.repulse.strength, d1, d2);
    case Outside =>
  }

  /** Scaling a vector scales its squared length by the square. */
  lemma NormSqScale(k: real, d: Vec3)
    ensures NormSq(Scale(k, d)) == (k * k) * NormSq(d)
  {
    var kx, ky, kz := k * d.x, k * d.y, k * d.z;
    assert kx * kx == (k * k) * (d.x * d.x);
    assert ky * ky == (k * k) * (d.y * d.y);
    assert kz * kz == (k * k) * (d.z * d.z);
  }

  /** The push written as `(f / dist)` times the offset, with length `f`. */
  lemma PushArithmetic(d: Vec3, dist: real, f: real)
    requires 0.0 < dist && dist * dist == NormSq(d) && 0.0 < f
    ensures 0.0 < f / dist
    ensures Push(d, dist, f) == Scale(f / dist, d)
    ensures NormSq(Push(d, dist, f)) == f * f
  {
    var k := f / dist;
    assert k * dist == f;
    assert d.x / dist * f == k * d.x;
    assert d.y / dist * f == k * d.y;
    assert d.z / dist * f == k * d.z;
    NormSqScale(k, d);
    var kk, dd := k * k, dist * dist;
    assert kk * dd == (k * dist) * (k * dist);
  }

  /** A positive force pushes radially outward: the added vector is a positive
      multiple of `p - target` whose length is the force itself. */
  lemma PushOutward(m: MathFns, p: Vec3, target: Vec3, inter: Interactions)
    requires SqrtSound(m)
    ensures var d := Sub(p, target);
      var dist := Dist(m, p, target);
      var f := Force(inter, dist);
      0.0 < f ==> 0.0 < f / dist && Push(d, dist, f) == Scale(f / dist, d) && NormSq(Push(d, dist, f)) == f * f
  {
    var d := Sub(p, target);
    var dist := Dist(m, p, target);
    var f := Force(inter, dist);
    if 0.0 < f {
      NormSqNonneg(d);
      assert 0.0 < dist && dist * dist == NormSq(d);
      PushArithmetic(d, dist, f);
    }
  }

  /** The jitter is the only use of the random draws: with restless movement
      off the draws do not matter; with it on, the velocity moves by at most
      half the restless value per component. */
  lemma JitterEffect(p: Vec3, v: Vec3, rest: Vec3, target: Vec3, inter: Interactions, mv: Movement, m: MathFns, draw: Vec3, other: Vec3)
    requires UnitDraws(draw) && UnitDraws(other)
    ensures var quiet := mv.(restless := mv.restless.(enabled := false));
      var a := Accelerate(p, v, rest, target, inter, mv, m, draw);
      && (!mv.restless.enabled ==> a == Accelerate(p, v, rest, target, inter, mv, m, other))
      && (0.0 <= mv.restless.value ==> WithinBox(Sub(a, Accelerate(p, v, rest, target, inter, quiet, m, draw)), mv.restless.value / 2.0))
  {
    var quiet := mv.(restless := mv.restless.(enabled := false));
    var j := Jitter(mv.restless, draw);
    assert Accelerate(p, v, rest, target, inter, mv, m, draw) == Add(Accelerate(p, v, rest, target, inter, quiet, m, draw), j);
  }

  /** With no push and no jitter, the velocity before the clamp is the damped
      velocity plus the spring toward the rest position. */
  lemma AccelerateQuiet(p: Vec3, v: Vec3, rest: Vec3, target: Vec3, inter: Interactions, mv: Movement, m: MathFns, draw: Vec3)
    requires UnitDraws(draw) && !mv.restless.enabled
    requires Unpushed(inter, Dist(m, p, target))
    ensures Accelerate(p, v, rest, target, inter, mv, m, draw) == Add(Scale(mv.damping, v), Scale(mv.returnForce, Sub(rest, p)))
  {
    UnpushedForce(inter, Dist(m, p, target));
    var d := Sub(p, target);
    var dist := Dist(m, p, target);
    assert Push(d, dist, Force(inter, dist)) == Zero;
    assert Add(v, Zero) == v;
  }

  /** One coordinate of a spring step from rest velocity: `s` is the
      unclamped step, a fraction of the gap `q - p`. The new position lies
      between `p` and `q`, and without the clamp the gap shrinks by `s`. */
  lemma SpringCoordinate(p: real, q: real, s: real, mx: real)
    requires Between(0.0, s, q - p) && 0.0 <= mx
    ensures Between(p, p + Clamp(s, mx), q)
    ensures -mx <= s <= mx ==> q - (p + Clamp(s, mx)) == (q - p) - s
  {
    ClampNearest(s, mx);
  }

  /** From rest velocity, with no push and no jitter, the unclamped velocity
      is the spring alone. */
  lemma SpringVelocity(p: Vec3, rest: Vec3, target: Vec3, inter: Interactions, mv: Movement, m: MathFns, draw: Vec3)
    requires UnitDraws(draw) && !mv.restless.enabled
    requires Unpushed(inter, Dist(m, p, target))
    ensures Accelerate(p, Zero, rest, target, inter, mv, m, draw) == Scale(mv.returnForce, Sub(rest, p))
  {
    AccelerateQuiet(p, Zero, rest, target, inter, mv, m, draw);
    ZeroFacts(mv.damping, Scale(mv.returnForce, Sub(rest, p)), 0.0);
  }

  /** The spring step from rest velocity on all three coordinates. */
  lemma SpringMove(p: Vec3, rest: Vec3, k: real, mx: real)
    requires 0.0 <= k <= 1.0 && 0.0 <= mx
    ensures var r := Add(p, ClampVec(Scale(k, Sub(rest, p)), mx));
      && Between(p.x, r.x, rest.x) && Between(p.y, r.y, rest.y) && Between(p.z, r.z, rest.z)
      && (WithinBox(Scale(k, Sub(rest, p)), mx) ==> Sub(rest, r) == Scale(1.0 - k, Sub(rest, p)))
  {
    var d := Sub(rest, p);
    var s := Scale(k, d);
    ScaleBetween(k, d);
    ScaleComplement(k, d);
    SpringCoordinate(p.x, rest.x, s.x, mx);
    SpringCoordinate(p.y, rest.y, s.y, mx);
    SpringCoordinate(p.z, rest.z, s.z, mx);
  }

  /** A particle released at rest velocity, with no push and no jitter, moves
      toward its rest position without passing it when `0 <= returnForce <= 1`;
      unless the clamp engages, the remaining gap shrinks by the factor
      `1 - returnForce`. */
  lemma SpringNoOvershoot(p: Vec3, rest: Vec3, target: Vec3, inter: Interactions, mv: Movement, m: MathFns, draw: Vec3)
    requires UnitDraws(draw) && !mv.restless.enabled
    requires Unpushed(inter, Dist(m, p, target))
    requires 0.0 <= mv.returnForce <= 1.0 && 0.0 <= mv.maxVelocity
    ensures var r := StepParticle(Motion(p, Zero), rest, target, inter, mv, m, draw);
      && Between(p.x, r.pos.x, rest.x) && Between(p.y, r.pos.y, rest.y) && Between(p.z, r.pos.z, rest.z)
      && (WithinBox(Scale(mv.returnForce, Sub(rest, p)), mv.maxVelocity) ==>
            Sub(rest, r.pos) == Scale(1.0 - mv.returnForce, Sub(rest, p)))
  {
    SpringVelocity(p, rest, target, inter, mv, m, draw);
    SpringMove(p, rest, mv.returnForce, mv.maxVelocity);
  }

  /** `n` frames of one particle, one set of draws per frame. After any
      positive number of frames every velocity component is within the
      clamp, whatever the forces and jitter. */
  function Simulate(k: Motion, rest: Vec3, target: Vec3, inter: Interactions, mv: Movement, m: MathFns, draws: seq<Vec3>): (r: Motion)
    requires forall i :: 0 <= i < |draws| ==> UnitDraws(draws[i])
    ensures 0 < |draws| && 0.0 <= mv.maxVelocity ==> WithinBox(r.vel, mv.maxVelocity)
    decreases |draws|
  {
    if |draws| == 0 then k
    else Simulate(StepParticle(k, rest, target, inter, mv, m, draws[0]), rest, target, inter, mv, m, draws[1..])
  }

  /** One frame of `SettledParticleStays`. */
  lemma SettledStep(rest: Vec3, target: Vec3, inter: Interactions, mv: Movement, m: MathFns, draw: Vec3)
    requires UnitDraws(draw)
    requires Unpushed(inter, Dist(m, rest, target))
    requires !mv.restless.enabled && 0.0 <= mv.maxVelocity
    ensures StepParticle(Motion(rest, Zero), rest, target, inter, mv, m, draw) == Motion(rest, Zero)
  {
    AccelerateQuiet(rest, Zero, rest, target, inter, mv, m, draw);
    ZeroFacts(mv.damping, rest, mv.maxVelocity);
    ZeroFacts(mv.returnForce, rest, mv.maxVelocity);
    ZeroFacts(0.0, Zero, mv.maxVelocity);
    StillStep(Motion(rest, Zero), rest, target, inter, mv, m, draw);
  }

  /** A frame whose unclamped velocity is zero leaves the particle where it is,
      at rest. */
  lemma StillStep(k: Motion, rest: Vec3, target: Vec3, inter: Interactions, mv: Movement, m: MathFns, draw: Vec3)
    requires UnitDraws(draw) && 0.0 <= mv.maxVelocity
    requires Accelerate(k.pos, k.vel, rest, target, inter, mv, m, draw) == Zero
    ensures StepParticle(k, rest, target, inter, mv, m, draw) == Motion(k.pos, Zero)
  {
    ZeroFacts(0.0, k.pos, mv.maxVelocity);
  }

  /** A particle sitting at its rest position with zero velocity, not pushed,
      with restless movement off, stays there with zero velocity for any
      number of frames. */
  lemma {:induction false} SettledParticleStays(rest: Vec3, target: Vec3, inter: Interactions, mv: Movement, m: MathFns, draws: seq<Vec3>)
    requires forall i :: 0 <= i < |draws| ==> UnitDraws(draws[i])
    requires Unpushed(inter, Dist(m, rest, target))
    requires !mv.restless.enabled && 0.0 <= mv.maxVelocity
    ensures Simulate(Motion(rest, Zero), rest, target, inter, mv, m, draws) == Motion(rest, Zero)
    decreases |draws|
  {
    if |draws| > 0 {
      SettledStep(rest, target, inter, mv, m, draws[0]);
      SettledParticleStays(rest, target, inter, mv, m, draws[1..]);
    }
  }
}
