/** One animation frame over the whole particle set: the live position,
    velocity and rest buffers hold one triple per particle, and the frame
    applies `ForceStep.StepParticle` to every particle in index order. */
module Frame {
  import opened Numerics
  import opened Vectors
  import opened FlatBuffer
  import opened ForceStep

  /** The three per-particle buffers: live positions (the geometry's
      attribute), velocities and the rest positions the spring pulls to. */
  datatype Buffers = Buffers(positions: seq<real>, velocities: seq<real>, rest: seq<real>)

  /** What a frame reads besides the buffers: the pointer target projected
      onto the plane, the interaction and movement settings, and the math
      functions. */
  datatype Scene = Scene(target: Vec3, inter: Interactions, mv: Movement, m: MathFns)

  predicate WellFormed(b: Buffers, count: nat) {
    |b.positions| == 3 * count && |b.velocities| == 3 * count && |b.rest| == 3 * count
  }

  /** One set of jitter draws per particle. */
  predicate DrawsFor(draws: seq<Vec3>, count: nat) {
    |draws| == count && forall i :: 0 <= i < count ==> UnitDraws(draws[i])
  }

  /** Particle `i`'s position and velocity as stored in `b`. */
  function MotionAt(b: Buffers, count: nat, i: nat): Motion
    requires WellFormed(b, count) && i < count
  {
    Motion(Get3(b.positions, i), Get3(b.velocities, i))
  }

  /** Particle `i` after one step computed from the triples in `b`. */
  function Expected(b: Buffers, count: nat, i: nat, sc: Scene, draws: seq<Vec3>): Motion
    requires WellFormed(b, count) && i < count && DrawsFor(draws, count)
  {
    StepParticle(MotionAt(b, count, i), Get3(b.rest, i), sc.target, sc.inter, sc.mv, sc.m, draws[i])
  }

  /** The body of the frame loop for particle `i`: it reads particle `i`'s
      triples, writes its position and velocity triples, and touches no
      other slot and no rest position. */
  function StepAt(b: Buffers, count: nat, i: nat, sc: Scene, draws: seq<Vec3>): (r: Buffers)
    requires WellFormed(b, count) && i < count && DrawsFor(draws, count)
    ensures WellFormed(r, count) && r.rest == b.rest
    ensures MotionAt(r, count, i) == Expected(b, count, i, sc, draws)
    ensures forall k :: 0 <= k < 3 * count && !(3 * i <= k < 3 * i + 3) ==>
      r.positions[k] == b.positions[k] && r.velocities[k] == b.velocities[k]
  {
    var k := Expected(b, count, i, sc, draws);
    Buffers(Put3(b.positions, i, k.pos), Put3(b.velocities, i, k.vel), b.rest)
  }

  /** `r` holds every particle of `b` stepped once, each from its own
      triples in `b`, with the rest buffer unchanged. */
  predicate Stepped(b: Buffers, r: Buffers, count: nat, sc: Scene, draws: seq<Vec3>)
    requires WellFormed(b, count) && DrawsFor(draws, count)
  {
    && WellFormed(r, count) && r.rest == b.rest
    && forall i :: 0 <= i < count ==> MotionAt(r, count, i) == Expected(b, count, i, sc, draws)
  }

  /** Part way through a frame: the particles in `done` are stepped, the
      others still hold their values from `b`. */
  predicate Partial(b: Buffers, c: Buffers, count: nat, done: seq<nat>, sc: Scene, draws: seq<Vec3>)
    requires WellFormed(b, count) && DrawsFor(draws, count)
  {
    && WellFormed(c, count) && c.rest == b.rest
    && forall i :: 0 <= i < count ==>
         MotionAt(c, count, i) == if i in done then Expected(b, count, i, sc, draws) else MotionAt(b, count, i)
  }

  /** Stepping a particle not yet done extends a partial frame by that
      particle: it still reads its original triples. */
  lemma StepExtends(b: Buffers, c: Buffers, count: nat, done: seq<nat>, j: nat, sc: Scene, draws: seq<Vec3>)
    requires WellFormed(b, count) && DrawsFor(draws, count)
    requires Partial(b, c, count, done, sc, draws) && j < count && j !in done
    ensures Partial(b, StepAt(c, count, j, sc, draws), count, done + [j], sc, draws)
  {
    var c' := StepAt(c, count, j, sc, draws);
    assert MotionAt(c, count, j) == MotionAt(b, count, j);
    assert Expected(c, count, j, sc, draws) == Expected(b, count, j, sc, draws);
    forall i | 0 <= i < count && i != j
      ensures MotionAt(c', count, i) == MotionAt(c, count, i)
    {
      Get3Put3(c.positions, j, i, Expected(c, count, j, sc, draws).pos);
      Get3Put3(c.velocities, j, i, Expected(c, count, j, sc, draws).vel);
    }
  }

  /** The particle indices `0 .. n - 1` in order. */
  function Indices(n: nat): (r: seq<nat>)
    ensures |r| == n && forall i :: 0 <= i < n ==> r[i] == i
  {
    seq(n, i => i)
  }

  /** The frame loop of the source: particles `0 .. count - 1` in order. */
  method RunFrame(b: Buffers, count: nat, sc: Scene, draws: seq<Vec3>) returns (r: Buffers)
    requires WellFormed(b, count) && DrawsFor(draws, count)
    ensures Stepped(b, r, count, sc, draws)
  {
    r := b;
    var i := 0;
    while i < count
      invariant 0 <= i <= count
      invariant Partial(b, r, count, Indices(i), sc, draws)
    {
      assert i !in Indices(i);
      StepExtends(b, r, count, Indices(i), i, sc, draws);
      assert Indices(i) + [i] == Indices(i + 1);
      r := StepAt(r, count, i, sc, draws);
      i := i + 1;
    }
    forall j | 0 <= j < count
      ensures j in Indices(count)
    {
      assert Indices(count)[j] == j;
    }
  }

  /** The frame with the particles visited in the order `order`. */
  function RunOrder(c: Buffers, count: nat, order: seq<nat>, sc: Scene, draws: seq<Vec3>): (r: Buffers)
    requires WellFormed(c, count) && DrawsFor(draws, count)
    requires forall k :: 0 <= k < |order| ==> order[k] < count
    ensures WellFormed(r, count)
    decreases |order|
  {
    if |order| == 0 then c
    else RunOrder(StepAt(c, count, order[0], sc, draws), count, order[1..], sc, draws)
  }

  /** No index appears twice. */
  predicate Distinct(order: seq<nat>) {
    forall k, l :: 0 <= k < l < |order| ==> order[k] != order[l]
  }

  /** `order` visits every particle exactly once. */
  predicate IsOrdering(order: seq<nat>, count: nat) {
    && (forall k :: 0 <= k < |order| ==> order[k] < count)
    && (forall i :: 0 <= i < count ==> i in order)
    && Distinct(order)
  }

  /** Visiting the particles of `order` after those of `done` steps both
      groups, provided no particle is visited twice. */
  lemma {:induction false} RunOrderPartial(b: Buffers, c: Buffers, count: nat, done: seq<nat>, order: seq<nat>, sc: Scene, draws: seq<Vec3>)
    requires WellFormed(b, count) && DrawsFor(draws, count)
    requires Partial(b, c, count, done, sc, draws)
    requires forall k :: 0 <= k < |order| ==> order[k] < count && order[k] !in done
    requires Distinct(order)
    ensures Partial(b, RunOrder(c, count, order, sc, draws), count, done + order, sc, draws)
    decreases |order|
  {
    if |order| == 0 {
      assert done + order == done;
    } else {
      var j := order[0];
      StepExtends(b, c, count, done, j, sc, draws);
      var rest := order[1..];
      forall k | 0 <= k < |rest|
        ensures rest[k] < count && rest[k] !in done + [j]
      {
        assert rest[k] == order[k + 1];
      }
      RunOrderPartial(b, StepAt(c, count, j, sc, draws), count, done + [j], rest, sc, draws);
      MoveFirst(done, order);
    }
  }

  lemma MoveFirst(done: seq<nat>, order: seq<nat>)
    requires 0 < |order|
    ensures (done + [order[0]]) + order[1..] == done + order
  {
    assert order == [order[0]] + order[1..];
  }

  /** Visiting the particles in any order steps every particle once. */
  lemma AnyOrderSteps(b: Buffers, count: nat, order: seq<nat>, sc: Scene, draws: seq<Vec3>)
    requires WellFormed(b, count) && DrawsFor(draws, count) && IsOrdering(order, count)
    ensures Stepped(b, RunOrder(b, count, order, sc, draws), count, sc, draws)
  {
    RunOrderPartial(b, b, count, [], order, sc, draws);
    assert [] + order == order;
  }

  /** A stepped frame is determined by its input: there is only one. */
  lemma SteppedUnique(b: Buffers, r1: Buffers, r2: Buffers, count: nat, sc: Scene, draws: seq<Vec3>)
    requires WellFormed(b, count) && DrawsFor(draws, count)
    requires Stepped(b, r1, count, sc, draws) && Stepped(b, r2, count, sc, draws)
    ensures r1 == r2
  {
    forall i | 0 <= i < count
      ensures Get3(r1.positions, i) == Get3(r2.positions, i) && Get3(r1.velocities, i) == Get3(r2.velocities, i)
    {
      assert MotionAt(r1, count, i) == MotionAt(r2, count, i);
    }
    TriplesDetermine(r1.positions, r2.positions, count);
    TriplesDetermine(r1.velocities, r2.velocities, count);
  }

  /** The order in which particles are visited does not matter: every
      ordering gives the buffers of the source's index-order loop. */
  lemma OrderIndependent(b: Buffers, count: nat, order: seq<nat>, sc: Scene, draws: seq<Vec3>, r: Buffers)
    requires WellFormed(b, count) && DrawsFor(draws, count) && IsOrdering(order, count)
    requires Stepped(b, r, count, sc, draws)
    ensures RunOrder(b, count, order, sc, draws) == r
  {
    AnyOrderSteps(b, count, order, sc, draws);
    SteppedUnique(b, RunOrder(b, count, order, sc, draws), r, count, sc, draws);
  }

  /** After a frame with `maxVelocity >= 0` every velocity slot lies in
      [-maxVelocity, maxVelocity]. */
  lemma FrameKeepsClamp(b: Buffers, r: Buffers, count: nat, sc: Scene, draws: seq<Vec3>)
    requires WellFormed(b, count) && DrawsFor(draws, count) && 0.0 <= sc.mv.maxVelocity
    requires Stepped(b, r, count, sc, draws)
    ensures forall k :: 0 <= k < 3 * count ==> -sc.mv.maxVelocity <= r.velocities[k] <= sc.mv.maxVelocity
  {
    forall k | 0 <= k < 3 * count
      ensures -sc.mv.maxVelocity <= r.velocities[k] <= sc.mv.maxVelocity
    {
      var i := k / 3;
      SlotOwner(k, count);
      assert MotionAt(r, count, i) == Expected(b, count, i, sc, draws);
      assert WithinBox(Get3(r.velocities, i), sc.mv.maxVelocity);
    }
  }

  /** A frame leaves a settled particle set alone: every particle at its
      rest position with zero velocity, none pushed, restless movement off
      and `maxVelocity >= 0`. */
  lemma SettledFrame(b: Buffers, count: nat, sc: Scene, draws: seq<Vec3>)
    requires WellFormed(b, count) && DrawsFor(draws, count)
    requires b.positions == b.rest && forall k :: 0 <= k < 3 * count ==> b.velocities[k] == 0.0
    requires !sc.mv.restless.enabled && 0.0 <= sc.mv.maxVelocity
    requires forall i :: 0 <= i < count ==> Unpushed(sc.inter, Dist(sc.m, Get3(b.rest, i), sc.target))
    ensures Stepped(b, b, count, sc, draws)
  {
    forall i | 0 <= i < count
      ensures MotionAt(b, count, i) == Expected(b, count, i, sc, draws)
    {
      assert Get3(b.velocities, i) == Zero;
      SettledStep(Get3(b.rest, i), sc.target, sc.inter, sc.mv, sc.m, draws[i]);
    }
  }

  /** Whatever the visiting order, a settled particle set is a fixed point
      of the frame. */
  lemma SettledFixedPoint(b: Buffers, count: nat, order: seq<nat>, sc: Scene, draws: seq<Vec3>)
    requires WellFormed(b, count) && DrawsFor(draws, count) && IsOrdering(order, count)
    requires b.positions == b.rest && forall k :: 0 <= k < 3 * count ==> b.velocities[k] == 0.0
    requires !sc.mv.restless.enabled && 0.0 <= sc.mv.maxVelocity
    requires forall i :: 0 <= i < count ==> Unpushed(sc.inter, Dist(sc.m, Get3(b.rest, i), sc.target))
    ensures RunOrder(b, count, order, sc, draws) == b
  {
    SettledFrame(b, count, sc, draws);
    OrderIndependent(b, count, order, sc, draws, b);
  }
}
