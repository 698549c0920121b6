/** Building the particle set: the shape is looked up by name, its generated
    buffer becomes both the live and the rest positions, every particle gets
    the base colour, and velocities are seeded from random draws. */
module Init {
  import opened Results
  import opened Numerics
  import opened Vectors
  import opened FlatBuffer
  import opened Shapes
  import Frame

  /** The generator table has no entry for the name; calling the missing
      entry throws in the source. */
  datatype InitError = UnknownShape(name: string)

  /** The four buffers initialisation fills, one triple per particle. */
  datatype Particles = Particles(positions: seq<real>, rest: seq<real>, colors: seq<real>, velocities: seq<real>)

  /** The initial velocity: `(Math.random() - 0.5) * speed` per component. */
  function Seed(speed: real, d: Vec3): (v: Vec3)
    requires UnitDraws(d)
    ensures 0.0 <= speed ==> WithinBox(v, speed / 2.0)
    ensures 0.0 < speed ==> v.x < speed / 2.0 && v.y < speed / 2.0 && v.z < speed / 2.0
  {
    Vec3(Centered(d.x, speed), Centered(d.y, speed), Centered(d.z, speed))
  }

  /** `baseColor.toArray(colors, i * 3)` for every particle. */
  function Colors(count: nat, baseColor: Vec3): (r: seq<real>)
    ensures |r| == 3 * count
  {
    Scatter(count, 3.0, 3, seq(count, _ => Triple(baseColor)))
  }

  /** The velocity writes `velocities[i * 3 + c]` for every particle. */
  function Velocities(count: nat, speed: real, draws: seq<Vec3>): (r: seq<real>)
    requires |draws| == count && AllUnit(draws)
    ensures |r| == 3 * count
  {
    Scatter(count, 3.0, 3, seq(count, i requires 0 <= i < count => Triple(Seed(speed, draws[i]))))
  }

  /** The initialisation `useMemo`: `shapeDraws` are the generator's draws,
      `velDraws` the three velocity draws per particle. */
  function Initialise(shapeType: string, count: nat, baseColor: Vec3, speed: real, m: MathFns,
                      shapeDraws: seq<Vec3>, velDraws: seq<Vec3>): (r: Result<Particles, InitError>)
    requires |shapeDraws| == count && AllUnit(shapeDraws)
    requires |velDraws| == count && AllUnit(velDraws)
    ensures r.Err? <==> LookupShape(shapeType).None?
    ensures r.Err? ==> r.error == UnknownShape(shapeType)
    ensures r.Ok? ==>
      && r.value.positions == r.value.rest == Generate(LookupShape(shapeType).value, count, m, shapeDraws)
      && r.value.colors == Colors(count, baseColor)
      && r.value.velocities == Velocities(count, speed, velDraws)
  {
    match LookupShape(shapeType)
    case None => Err(UnknownShape(shapeType))
    case Some(k) =>
      var buf := Generate(k, count, m, shapeDraws);
      Ok(Particles(buf, buf, Colors(count, baseColor), Velocities(count, speed, velDraws)))
  }

  /** Every name in the generator table initialises; the generated buffer is
      that shape's. */
  lemma InitKnownShape(k: ShapeKind, count: nat, baseColor: Vec3, speed: real, m: MathFns,
                       shapeDraws: seq<Vec3>, velDraws: seq<Vec3>)
    requires |shapeDraws| == count && AllUnit(shapeDraws)
    requires |velDraws| == count && AllUnit(velDraws)
    ensures var r := Initialise(ShapeName(k), count, baseColor, speed, m, shapeDraws, velDraws);
      r.Ok? && r.value.positions == Generate(k, count, m, shapeDraws)
  {
    LookupShapeName(k);
  }

  /** Every colour triple is the base colour. */
  lemma ColorsAreBase(count: nat, baseColor: Vec3)
    ensures forall i :: 0 <= i < count ==> Get3(Colors(count, baseColor), i) == baseColor
  {
    var pts := seq(count, _ => Triple(baseColor));
    ScatterStride(count, pts);
    forall i | 0 <= i < count
      ensures Get3(Colors(count, baseColor), i) == baseColor
    {
      assert Triple(Get3(Colors(count, baseColor), i)) == Triple(baseColor);
    }
  }

  /** Particle `i`'s velocity is seeded from its own draws. */
  lemma VelocityTriples(count: nat, speed: real, draws: seq<Vec3>)
    requires |draws| == count && AllUnit(draws)
    ensures forall i :: 0 <= i < count ==> Get3(Velocities(count, speed, draws), i) == Seed(speed, draws[i])
  {
    var pts := seq(count, i requires 0 <= i < count => Triple(Seed(speed, draws[i])));
    ScatterStride(count, pts);
    forall i | 0 <= i < count
      ensures Get3(Velocities(count, speed, draws), i) == Seed(speed, draws[i])
    {
      assert Triple(Get3(Velocities(count, speed, draws), i)) == Triple(Seed(speed, draws[i]));
    }
  }

  /** Every initial velocity component lies in [-speed/2, speed/2), for a
      positive speed. */
  lemma VelocitiesBounded(count: nat, speed: real, draws: seq<Vec3>)
    requires |draws| == count && AllUnit(draws) && 0.0 < speed
    ensures forall k :: 0 <= k < 3 * count ==>
      -speed / 2.0 <= Velocities(count, speed, draws)[k] < speed / 2.0
  {
    var v := Velocities(count, speed, draws);
    VelocityTriples(count, speed, draws);
    forall k | 0 <= k < 3 * count
      ensures -speed / 2.0 <= v[k] < speed / 2.0
    {
      var i := k / 3;
      SlotOwner(k, count);
      assert Get3(v, i) == Seed(speed, draws[i]);
    }
  }

  /** An initialised particle set is a well-formed input to the frame step,
      and every particle starts at its rest position. */
  lemma InitReadyForFrame(shapeType: string, count: nat, baseColor: Vec3, speed: real, m: MathFns,
                          shapeDraws: seq<Vec3>, velDraws: seq<Vec3>)
    requires |shapeDraws| == count && AllUnit(shapeDraws)
    requires |velDraws| == count && AllUnit(velDraws)
    requires LookupShape(shapeType).Some?
    ensures var p := Initialise(shapeType, count, baseColor, speed, m, shapeDraws, velDraws).value;
      var b := Frame.Buffers(p.positions, p.velocities, p.rest);
      && Frame.WellFormed(b, count)
      && forall i :: 0 <= i < count ==> Get3(b.positions, i) == Get3(b.rest, i)
  {
  }

  /** An initialised particle set has the base colour on every particle and
      every velocity component in [-speed/2, speed/2). */
  lemma InitColorsAndVelocities(shapeType: string, count: nat, baseColor: Vec3, speed: real, m: MathFns,
                                shapeDraws: seq<Vec3>, velDraws: seq<Vec3>)
    requires |shapeDraws| == count && AllUnit(shapeDraws)
    requires |velDraws| == count && AllUnit(velDraws) && 0.0 < speed
    requires LookupShape(shapeType).Some?
    ensures var p := Initialise(shapeType, count, baseColor, speed, m, shapeDraws, velDraws).value;
      && (forall i :: 0 <= i < count ==> Get3(p.colors, i) == baseColor)
      && (forall k :: 0 <= k < 3 * count ==> -speed / 2.0 <= p.velocities[k] < speed / 2.0)
  {
    ColorsAreBase(count, baseColor);
    VelocitiesBounded(count, speed, velDraws);
  }
}
