/** The follow-mouse ring: a `Circle` holds points spread around a ring;
    every animation frame each point advances its angle, takes a new radius
    from a sine wobble and accumulates clamped random noise. */
module FollowMouse {
  import opened Results
  import opened Numerics

  /** The script's configuration constants. */
  const ParticleCount: real := 20.0
  const Radius: real := 40.0
  const Thickness: real := 1.0
  const NoiseIntensity: real := 0.5
  const NoiseSize: real := 0.2
  const Speed: real := 0.015
  const PathVariation: real := 40.0
  /** The largest noise offset a point may accumulate on either axis. */
  const MaxPnChange: real := 15.0 * NoiseIntensity

  /** Degrees to radians. */
  function Radian(deg: real): (r: real)
    ensures 0.0 <= deg < 360.0 ==> 0.0 <= r < 2.0 * Pi
  {
    deg * Pi / 180.0
  }

  /** The position the point eases towards, moved by the pointer tweens. */
  datatype Mouse = Mouse(x: real, y: real)

  /** A ring point. `deg` holds an angle in radians despite its name; the
      point's colour is `rgb(gray, gray, gray)`. */
  datatype Point = Point(deg: real, r: real, xChange: real, yChange: real,
                         xPn: real, yPn: real, mouse: Mouse, offset: real, gray: int)

  datatype Circle = Circle(r: real, thickness: real, particleCount: real, pathVariation: real, points: seq<Point>)

  /** The two `Math.random()` draws `makePoints` takes per point. */
  datatype SeedDraw = SeedDraw(offset: real, gray: real)

  /** The two `Math.random()` draws `updatePoints` takes per point. */
  datatype NoiseDraw = NoiseDraw(x: real, y: real)

  predicate SeedDraws(draws: seq<SeedDraw>) {
    forall j :: 0 <= j < |draws| ==> InUnit(draws[j].offset) && InUnit(draws[j].gray)
  }

  predicate NoiseDraws(draws: seq<NoiseDraw>) {
    forall j :: 0 <= j < |draws| ==> InUnit(draws[j].x) && InUnit(draws[j].y)
  }

  /** The smallest integer not below `x`. */
  function Ceil(x: real): (n: int)
    ensures n as real - 1.0 < x <= n as real
  {
    if x.Floor as real == x then x.Floor else x.Floor + 1
  }

  /** How many angles `makePoints` visits: `i` runs from 0 in steps of
      `360 / particleCount` while below 360. A zero count makes the step
      infinite, so only `i = 0` is visited. */
  function AngleCount(pc: real): (n: nat)
    requires 0.0 <= pc
    ensures 0.0 < pc ==> n as real - 1.0 < pc <= n as real
    ensures pc == 0.0 ==> n == 1
  {
    if pc == 0.0 then 1 else Ceil(pc)
  }

  /** The loop variable `i` (in degrees) at visit `n`. */
  function AngleAt(n: nat, pc: real): real
    requires 0.0 < pc
  {
    n as real * (360.0 / pc)
  }

  /** Visit `n` is inside the loop exactly when `n < particleCount`. */
  lemma AngleBelowFull(n: nat, pc: real)
    requires 0.0 < pc
    ensures AngleAt(n, pc) < 360.0 <==> n as real < pc
    ensures 0.0 <= AngleAt(n, pc)
  {
    var q := 360.0 / pc;
    assert 0.0 < q;
    assert q * pc == 360.0;
    if n as real < pc {
      calc {
        AngleAt(n, pc);
      == n as real * q;
      < { assert (pc - n as real) * q > 0.0; }
        pc * q;
      == 360.0;
      }
    } else {
      calc {
        AngleAt(n, pc);
      == n as real * q;
      >= { assert (n as real - pc) * q >= 0.0; }
        pc * q;
      == 360.0;
      }
    }
  }

  lemma AngleNext(n: nat, pc: real)
    requires 0.0 < pc
    ensures AngleAt(n + 1, pc) == AngleAt(n, pc) + 360.0 / pc
  {
  }

  /** The angle `makePoints` gives point `j`, in degrees. */
  function PointAngle(j: nat, pc: real): real
    requires 0.0 <= pc
  {
    if pc == 0.0 then 0.0 else AngleAt(j, pc)
  }

  /** `Math.floor(Math.random() * 256)`. */
  function Gray(d: real): (g: int)
    requires InUnit(d)
    ensures 0 <= g <= 255
  {
    (d * 256.0).Floor
  }

  /** The point `makePoints` pushes for loop value `i` (degrees). */
  function NewPoint(c: Circle, m: MathFns, i: real, d: SeedDraw): (p: Point)
    requires InUnit(d.offset) && InUnit(d.gray)
    ensures c.pathVariation > 0.0 ==> 0.0 <= p.offset < c.pathVariation
    ensures c.pathVariation >= 0.0 ==> c.r <= p.r <= c.r + c.pathVariation
    ensures p.xPn == 0.0 && p.yPn == 0.0 && p.mouse == Mouse(0.0, 0.0)
    ensures 0 <= p.gray <= 255
  {
    UnitScaled(d.offset, c.pathVariation);
    var deg := Radian(i);
    var offset := d.offset * c.pathVariation;
    var baseRadius := c.r + offset;
    Point(deg, baseRadius, m.sin(deg) * baseRadius, m.cos(deg) * baseRadius, 0.0, 0.0, Mouse(0.0, 0.0), offset, Gray(d.gray))
  }

  /** The points `makePoints` creates, one per visited angle. */
  function SeededPoints(c: Circle, m: MathFns, draws: seq<SeedDraw>): (pts: seq<Point>)
    requires 0.0 <= c.particleCount && |draws| == AngleCount(c.particleCount) && SeedDraws(draws)
    ensures |pts| == |draws|
  {
    seq(|draws|, j requires 0 <= j < |draws| => NewPoint(c, m, PointAngle(j, c.particleCount), draws[j]))
  }

  /** `makePoints`: replaces the point list with one fresh point per angle
      visited by the loop. A negative count never leaves the loop in the
      source and is excluded. */
  method MakePoints(c: Circle, m: MathFns, draws: seq<SeedDraw>) returns (r: Circle)
    requires 0.0 <= c.particleCount && |draws| == AngleCount(c.particleCount) && SeedDraws(draws)
    ensures r == c.(points := SeededPoints(c, m, draws))
    ensures forall j :: 0 <= j < |r.points| ==>
      var p := r.points[j];
      && (c.pathVariation > 0.0 ==> 0.0 <= p.offset < c.pathVariation)
      && p.r == c.r + p.offset
      && p.xPn == 0.0 && p.yPn == 0.0
      && 0 <= p.gray <= 255
      && 0.0 <= p.deg < 2.0 * Pi
  {
    var pc := c.particleCount;
    var count := AngleCount(pc);
    var pts: seq<Point> := [];
    var i := 0.0;
    var n := 0;
    while i < 360.0
      invariant 0 <= n <= count
      invariant 0.0 < pc ==> i == AngleAt(n, pc)
      invariant pc == 0.0 ==> (n == 0 && i == 0.0) || (n == 1 && 360.0 <= i)
      invariant pts == SeededPoints(c, m, draws)[..n]
      invariant forall j :: 0 <= j < n ==> 0.0 <= PointAngle(j, pc) < 360.0
      decreases count - n
    {
      if 0.0 < pc {
        AngleBelowFull(n, pc);
      }
      pts := pts + [NewPoint(c, m, i, draws[n])];
      if pc == 0.0 {
        i := 360.0;
      } else {
        AngleNext(n, pc);
        i := i + 360.0 / pc;
      }
      n := n + 1;
    }
    if 0.0 < pc {
      AngleBelowFull(n, pc);
    }
    assert n == count;
    r := c.(points := pts);
  }

  /** With a whole, positive particle count the ring gets exactly that many
      points. */
  lemma WholeCount(pc: real)
    requires 0.0 < pc && pc.Floor as real == pc
    ensures AngleCount(pc) as real == pc
  {
  }

  /** The rotation `updatePoints` applies: the argument, or `speed` when it
      is omitted. */
  function Rotation(rotate: Option<real>): (a: real)
    ensures rotate.None? ==> a == Speed
    ensures rotate.Some? ==> a == rotate.value
  {
    rotate.GetOr(Speed)
  }

  /** A noise step: `(Math.random() * 2 - 1) * noiseSize`. */
  function Noise(d: real): (n: real)
    requires InUnit(d)
    ensures -NoiseSize <= n < NoiseSize
  {
    (d * 2.0 - 1.0) * NoiseSize
  }

  /** One point's update in `updatePoints`. */
  function UpdatePoint(c: Circle, m: MathFns, a: real, p: Point, d: NoiseDraw): (q: Point)
    requires InUnit(d.x) && InUnit(d.y)
    ensures -MaxPnChange <= q.xPn <= MaxPnChange && -MaxPnChange <= q.yPn <= MaxPnChange
    ensures q.offset == p.offset && q.mouse == p.mouse && q.gray == p.gray
  {
    var deg := p.deg + a;
    var r := c.r + m.sin(deg * 2.0 + p.offset) * c.pathVariation;
    Point(deg, r, m.sin(deg) * r, m.cos(deg) * r,
          Clamp(p.xPn + Noise(d.x), MaxPnChange), Clamp(p.yPn + Noise(d.y), MaxPnChange),
          p.mouse, p.offset, p.gray)
  }

  /** `updatePoints(rotate = speed)`: every point updated in place. */
  function UpdatePoints(c: Circle, m: MathFns, rotate: Option<real>, draws: seq<NoiseDraw>): (r: Circle)
    requires |draws| == |c.points| && NoiseDraws(draws)
    ensures |r.points| == |c.points|
    ensures r.r == c.r && r.thickness == c.thickness && r.particleCount == c.particleCount && r.pathVariation == c.pathVariation
    ensures forall j :: 0 <= j < |c.points| ==>
      && r.points[j].deg == c.points[j].deg + Rotation(rotate)
      && r.points[j].offset == c.points[j].offset
      && r.points[j].mouse == c.points[j].mouse
      && r.points[j].gray == c.points[j].gray
      && -MaxPnChange <= r.points[j].xPn <= MaxPnChange
      && -MaxPnChange <= r.points[j].yPn <= MaxPnChange
  {
    var a := Rotation(rotate);
    c.(points := seq(|c.points|, j requires 0 <= j < |c.points| => UpdatePoint(c, m, a, c.points[j], draws[j])))
  }

  /** With `|sin| <= 1`, the new radius stays within `pathVariation` of the
      circle's base radius. */
  lemma RadiusBounded(c: Circle, m: MathFns, a: real, p: Point, d: NoiseDraw)
    requires InUnit(d.x) && InUnit(d.y) && TrigBounded(m)
    ensures Abs(UpdatePoint(c, m, a, p, d).r - c.r) <= Abs(c.pathVariation)
  {
    var s := m.sin((p.deg + a) * 2.0 + p.offset);
    assert -1.0 <= s <= 1.0;
    BoundedFactor(s, c.pathVariation);
  }

  /** Each update moves the accumulated noise by at most `noiseSize` on
      each axis, clamp included, once the noise is within its bound. */
  lemma NoiseStepBounded(c: Circle, m: MathFns, a: real, p: Point, d: NoiseDraw)
    requires InUnit(d.x) && InUnit(d.y)
    requires -MaxPnChange <= p.xPn <= MaxPnChange && -MaxPnChange <= p.yPn <= MaxPnChange
    ensures var q := UpdatePoint(c, m, a, p, d);
      Abs(q.xPn - p.xPn) <= NoiseSize && Abs(q.yPn - p.yPn) <= NoiseSize
  {
    ClampNearest(p.xPn + Noise(d.x), MaxPnChange);
    ClampNearest(p.yPn + Noise(d.y), MaxPnChange);
  }

  /** `n` animation frames, one `updatePoints()` each with the default
      rotation. */
  function Animate(c: Circle, m: MathFns, frames: seq<seq<NoiseDraw>>): (r: Circle)
    requires forall f :: 0 <= f < |frames| ==> |frames[f]| == |c.points| && NoiseDraws(frames[f])
    ensures |r.points| == |c.points|
    decreases |frames|
  {
    if |frames| == 0 then c
    else Animate(UpdatePoints(c, m, None, frames[0]), m, frames[1..])
  }

  /** After `n` frames every point has turned by exactly `n * speed`, and
      kept its offset and colour. */
  lemma {:induction false} AnimateTurns(c: Circle, m: MathFns, frames: seq<seq<NoiseDraw>>)
    requires forall f :: 0 <= f < |frames| ==> |frames[f]| == |c.points| && NoiseDraws(frames[f])
    ensures forall j :: 0 <= j < |c.points| ==>
      && Animate(c, m, frames).points[j].deg == c.points[j].deg + |frames| as real * Speed
      && Animate(c, m, frames).points[j].offset == c.points[j].offset
      && Animate(c, m, frames).points[j].gray == c.points[j].gray
    decreases |frames|
  {
    if |frames| > 0 {
      var c' := UpdatePoints(c, m, None, frames[0]);
      AnimateTurns(c', m, frames[1..]);
      forall j | 0 <= j < |c.points|
        ensures Animate(c, m, frames).points[j].deg == c.points[j].deg + |frames| as real * Speed
      {
        calc {
          Animate(c, m, frames).points[j].deg;
        == Animate(c', m, frames[1..]).points[j].deg;
        == c'.points[j].deg + (|frames| - 1) as real * Speed;
        == c.points[j].deg + Speed + (|frames| - 1) as real * Speed;
        == c.points[j].deg + |frames| as real * Speed;
        }
      }
    }
  }

  /** `new Circle(r, thickness, particleCount, pathVariation)`: the fields,
      then `makePoints`. */
  method NewCircle(r: real, thickness: real, pc: real, pv: real, m: MathFns, draws: seq<SeedDraw>) returns (c: Circle)
    requires 0.0 <= pc && |draws| == AngleCount(pc) && SeedDraws(draws)
    ensures c.r == r && c.thickness == thickness && c.particleCount == pc && c.pathVariation == pv
    ensures |c.points| == AngleCount(pc)
    ensures forall j :: 0 <= j < |c.points| ==>
      && (pv > 0.0 ==> 0.0 <= c.points[j].offset < pv)
      && c.points[j].r == r + c.points[j].offset
      && 0 <= c.points[j].gray <= 255
  {
    c := MakePoints(Circle(r, thickness, pc, pv, []), m, draws);
  }

  /** The script's one instance, built from the configuration constants:
      twenty points, each on a radius in [40, 80). */
  method ScriptCircle(m: MathFns, draws: seq<SeedDraw>) returns (c: Circle)
    requires |draws| == 20 && SeedDraws(draws)
    ensures c.r == Radius && c.thickness == Thickness && c.particleCount == ParticleCount && c.pathVariation == PathVariation
    ensures |c.points| == 20
    ensures forall j :: 0 <= j < |c.points| ==> Radius <= c.points[j].r < Radius + PathVariation
  {
    WholeCount(ParticleCount);
    c := NewCircle(Radius, Thickness, ParticleCount, PathVariation, m, draws);
  }
}
