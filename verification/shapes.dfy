/** The shape generators: each fills a flat `3 * count` buffer with points
    sampled on one parametric surface, one set of `Math.random()` draws per
    particle. */
module Shapes {
  import opened Results
  import opened Numerics
  import opened Vectors
  import opened FlatBuffer

  /** The keys of the generator lookup table. */
  datatype ShapeKind = TorusKnot | Torus | Icosahedron | Sphere | Box | MobiusStrip | TrefoilKnot | Cloud

  function ShapeName(k: ShapeKind): string {
    match k
    case TorusKnot => "TorusKnot"
    case Torus => "Torus"
    case Icosahedron => "Icosahedron"
    case Sphere => "Sphere"
    case Box => "Box"
    case MobiusStrip => "MobiusStrip"
    case TrefoilKnot => "TrefoilKnot"
    case Cloud => "Cloud"
  }

  /** `shapeGenerators[name]`: a name resolves exactly when it is one of the
      eight table keys; any other name yields `undefined`. */
  function LookupShape(name: string): (r: Option<ShapeKind>)
    ensures r.Some? ==> ShapeName(r.value) == name
    ensures r.None? ==> forall k: ShapeKind :: ShapeName(k) != name
  {
    if name == "TorusKnot" then Some(TorusKnot)
    else if name == "Torus" then Some(Torus)
    else if name == "Icosahedron" then Some(Icosahedron)
    else if name == "Sphere" then Some(Sphere)
    else if name == "Box" then Some(Box)
    else if name == "MobiusStrip" then Some(MobiusStrip)
    else if name == "TrefoilKnot" then Some(TrefoilKnot)
    else if name == "Cloud" then Some(Cloud)
    else None
  }

  /** Every table key finds its own generator. */
  lemma LookupShapeName(k: ShapeKind)
    ensures LookupShape(ShapeName(k)) == Some(k)
  {
    match k
    case TorusKnot =>
    case Torus =>
    case Icosahedron =>
    case Sphere =>
    case Box =>
    case MobiusStrip =>
    case TrefoilKnot =>
    case Cloud =>
  }

  /** `Math.random() * Math.PI * 2`: an angle in [0, 2π). */
  function Angle(d: real): real {
    d * Pi * 2.0
  }

  /** A draw in [0, 1) gives an angle in [0, 2π). */
  lemma AngleRange(d: real)
    requires InUnit(d)
    ensures 0.0 <= Angle(d) < 2.0 * Pi
  {
  }

  /** Torus point: ring radius `radius`, tube radius `tubeRadius`; draws
      `theta` then `phi`. */
  function TorusPoint(m: MathFns, radius: real, tubeRadius: real, d: Vec3): Vec3 {
    var theta := Angle(d.x);
    var phi := Angle(d.y);
    var ring := radius + tubeRadius * m.cos(phi);
    Vec3(ring * m.cos(theta), ring * m.sin(theta), tubeRadius * m.sin(phi))
  }

  /** With bounded `sin` and `cos` a torus point lies in the torus's
      bounding box. */
  lemma TorusPointBounded(m: MathFns, radius: real, tubeRadius: real, d: Vec3)
    requires TrigBounded(m) && 0.0 <= radius && 0.0 <= tubeRadius
    ensures var r := TorusPoint(m, radius, tubeRadius, d);
      Within(r.x, radius + tubeRadius) && Within(r.y, radius + tubeRadius) && Within(r.z, tubeRadius)
  {
    var theta := Angle(d.x);
    var phi := Angle(d.y);
    var c, s, ct, st := m.cos(phi), m.sin(phi), m.cos(theta), m.sin(theta);
    assert -1.0 <= c <= 1.0 && -1.0 <= s <= 1.0 && -1.0 <= ct <= 1.0 && -1.0 <= st <= 1.0;
    assert TorusPoint(m, radius, tubeRadius, d) == Vec3((radius + tubeRadius * c) * ct, (radius + tubeRadius * c) * st, tubeRadius * s);
    TorusBox(radius, tubeRadius, c, s, ct, st);
  }

  /** The torus bounding box on plain numbers. */
  lemma TorusBox(radius: real, tubeRadius: real, c: real, s: real, ct: real, st: real)
    requires 0.0 <= radius && 0.0 <= tubeRadius
    requires -1.0 <= c <= 1.0 && -1.0 <= s <= 1.0 && -1.0 <= ct <= 1.0 && -1.0 <= st <= 1.0
    ensures var ring := radius + tubeRadius * c;
      Within(ring * ct, radius + tubeRadius) && Within(ring * st, radius + tubeRadius) && Within(tubeRadius * s, tubeRadius)
  {
    FactorWithin(c, tubeRadius, tubeRadius);
    var ring := radius + tubeRadius * c;
    FactorWithin(ct, ring, radius + tubeRadius);
    FactorWithin(st, ring, radius + tubeRadius);
    FactorWithin(s, tubeRadius, tubeRadius);
  }

  /** Sphere (and icosahedron) point: `theta` uniform, `phi = acos(2r - 1)`. */
  function SpherePoint(m: MathFns, radius: real, d: Vec3): Vec3 {
    var theta := Angle(d.x);
    var phi := m.acos(2.0 * d.y - 1.0);
    Vec3(radius * m.sin(phi) * m.cos(theta), radius * m.sin(phi) * m.sin(theta), radius * m.cos(phi))
  }

  /** With bounded `sin` and `cos` every coordinate of a sphere point lies
      within the radius, without the Pythagorean identity
      `SpherePointOnSphere` needs. */
  lemma SpherePointBounded(m: MathFns, radius: real, d: Vec3)
    requires TrigBounded(m) && 0.0 <= radius
    ensures var r := SpherePoint(m, radius, d);
      Within(r.x, radius) && Within(r.y, radius) && Within(r.z, radius)
  {
    var theta := Angle(d.x);
    var phi := m.acos(2.0 * d.y - 1.0);
    var s, k, c, t := m.sin(phi), m.cos(phi), m.cos(theta), m.sin(theta);
    assert -1.0 <= s <= 1.0 && -1.0 <= k <= 1.0 && -1.0 <= c <= 1.0 && -1.0 <= t <= 1.0;
    assert SpherePoint(m, radius, d) == Vec3(radius * s * c, radius * s * t, radius * k);
    SphereBox(radius, s, k, c, t);
  }

  /** The sphere bounding box on plain numbers. */
  lemma SphereBox(radius: real, s: real, k: real, c: real, t: real)
    requires 0.0 <= radius
    requires -1.0 <= s <= 1.0 && -1.0 <= k <= 1.0 && -1.0 <= c <= 1.0 && -1.0 <= t <= 1.0
    ensures Within(radius * s * c, radius) && Within(radius * s * t, radius) && Within(radius * k, radius)
  {
    FactorWithin(s, radius, radius);
    FactorWithin(c, radius * s, radius);
    assert Within(radius * s * c, radius);
    FactorWithin(t, radius * s, radius);
    assert Within(radius * s * t, radius);
    FactorWithin(k, radius, radius);
  }

  /** Box point: each coordinate `(Math.random() - 0.5) * size`. */
  function BoxPoint(size: real, d: Vec3): (r: Vec3)
    requires 0.0 < size && UnitDraws(d)
    ensures WithinBox(r, size / 2.0)
    ensures r.x < size / 2.0 && r.y < size / 2.0 && r.z < size / 2.0
  {
    Vec3(Centered(d.x, size), Centered(d.y, size), Centered(d.z, size))
  }

  /** Torus-knot point, shared by the torus-knot and cloud generators. The
      tube term uses `cos(q * phi)` while `z` uses `sin(q * theta)`, mixing
      the two angles. */
  function KnotPoint(m: MathFns, tubeRadius: real, tube: real, p: real, q: real, d: Vec3): Vec3 {
    var theta := Angle(d.x);
    var phi := Angle(d.y);
    var cosQ := m.cos(Wound(q, phi));
    var sinQ := m.sin(Wound(q, theta));
    var cosP := m.cos(Wound(p, theta));
    var sinP := m.sin(Wound(p, theta));
    KnotAt(tubeRadius, tube, cosQ, sinQ, cosP, sinP)
  }

  /** The angle `a` wound `n` times, `n * a`. */
  function Wound(n: real, a: real): real {
    n * a
  }

  /** The knot formula once its four trigonometric values are known. */
  function KnotAt(tubeRadius: real, tube: real, cosQ: real, sinQ: real, cosP: real, sinP: real): Vec3 {
    Vec3((tubeRadius + tube * cosQ) * cosP, (tubeRadius + tube * cosQ) * sinP, tube * sinQ)
  }

  /** With bounded `sin` and `cos` a knot point lies within
      `tubeRadius + tube` of the axis and within `tube` of the plane. */
  lemma KnotPointBounded(m: MathFns, tubeRadius: real, tube: real, p: real, q: real, d: Vec3)
    requires TrigBounded(m) && 0.0 <= tubeRadius && 0.0 <= tube
    ensures var r := KnotPoint(m, tubeRadius, tube, p, q, d);
      Within(r.x, tubeRadius + tube) && Within(r.y, tubeRadius + tube) && Within(r.z, tube)
  {
    var theta := Angle(d.x);
    var phi := Angle(d.y);
    var cosQ, sinQ := m.cos(Wound(q, phi)), m.sin(Wound(q, theta));
    var cosP, sinP := m.cos(Wound(p, theta)), m.sin(Wound(p, theta));
    assert -1.0 <= cosQ <= 1.0 && -1.0 <= sinQ <= 1.0 && -1.0 <= cosP <= 1.0 && -1.0 <= sinP <= 1.0;
    assert KnotPoint(m, tubeRadius, tube, p, q, d) == KnotAt(tubeRadius, tube, cosQ, sinQ, cosP, sinP);
    KnotBox(tubeRadius, tube, cosQ, sinQ, cosP, sinP);
  }

  /** The knot bounding box on plain numbers. */
  lemma KnotBox(tubeRadius: real, tube: real, cosQ: real, sinQ: real, cosP: real, sinP: real)
    requires 0.0 <= tubeRadius && 0.0 <= tube
    requires -1.0 <= cosQ <= 1.0 && -1.0 <= sinQ <= 1.0 && -1.0 <= cosP <= 1.0 && -1.0 <= sinP <= 1.0
    ensures var r := KnotAt(tubeRadius, tube, cosQ, sinQ, cosP, sinP);
      Within(r.x, tubeRadius + tube) && Within(r.y, tubeRadius + tube) && Within(r.z, tube)
  {
    FactorWithin(cosQ, tube, tube);
    var w := tubeRadius + tube * cosQ;
    FactorWithin(cosP, w, tubeRadius + tube);
    FactorWithin(sinP, w, tubeRadius + tube);
    FactorWithin(sinQ, tube, tube);
  }

  /** The Möbius strip's cross-strip coordinate `(Math.random() - 0.15) * width`:
      it covers [-0.15 w, 0.85 w), not the symmetric [-w/2, w/2]. */
  function MobiusV(width: real, d: real): (v: real)
    requires 0.0 < width && InUnit(d)
    ensures -0.15 * width <= v < 0.85 * width
  {
    UnitScaled(d, width);
    (d - 0.15) * width
  }

  /** Möbius point: `u` around the strip, `v` across it. */
  function MobiusPoint(m: MathFns, radius: real, width: real, d: Vec3): Vec3
    requires 0.0 < width && UnitDraws(d)
  {
    var u := Angle(d.x);
    var v := MobiusV(width, d.y);
    Vec3((radius + v * m.cos(u / 2.0)) * m.cos(u), (radius + v * m.cos(u / 2.0)) * m.sin(u), v * m.sin(u / 2.0))
  }
  /** With bounded `sin` and `cos` a Möbius point lies within
      `radius + 0.85 * width` of the axis and within `0.85 * width` of the
      plane. */
  lemma MobiusPointBounded(m: MathFns, radius: real, width: real, d: Vec3)
    requires 0.0 < width && UnitDraws(d) && TrigBounded(m) && 0.0 <= radius
    ensures var r := MobiusPoint(m, radius, width, d);
      Within(r.x, radius + 0.85 * width) && Within(r.y, radius + 0.85 * width) && Within(r.z, 0.85 * width)
  {
    var u := Angle(d.x);
    var v := MobiusV(width, d.y);
    var ch, sh, c, s := m.cos(u / 2.0), m.sin(u / 2.0), m.cos(u), m.sin(u);
    assert -1.0 <= ch <= 1.0 && -1.0 <= sh <= 1.0 && -1.0 <= c <= 1.0 && -1.0 <= s <= 1.0;
    assert MobiusPoint(m, radius, width, d) == Vec3((radius + v * ch) * c, (radius + v * ch) * s, v * sh);
    MobiusBox(radius, 0.85 * width, v, ch, sh, c, s);
  }

  /** The Möbius bounding box on plain numbers, for `|v| <= b`. */
  lemma MobiusBox(radius: real, b: real, v: real, ch: real, sh: real, c: real, s: real)
    requires 0.0 <= radius && Within(v, b)
    requires -1.0 <= ch <= 1.0 && -1.0 <= sh <= 1.0 && -1.0 <= c <= 1.0 && -1.0 <= s <= 1.0
    ensures var w := radius + v * ch;
      Within(w * c, radius + b) && Within(w * s, radius + b) && Within(v * sh, b)
  {
    FactorWithin(ch, v, b);
    var w := radius + v * ch;
    FactorWithin(c, w, radius + b);
    FactorWithin(s, w, radius + b);
    FactorWithin(sh, v, b);
  }

  /** The trefoil generator computes `x`, `y` and `z` but stores only
      `(y, z)`. */
  function TrefoilValues(m: MathFns, scale: real, d: Vec3): (r: seq<real>)
    ensures |r| == 2
  {
    var t := Angle(d.x);
    var x := scale * m.sin(t) + 2.0 * m.sin(2.0 * t);
    var y := scale * m.cos(t) - 2.0 * m.cos(1.0 * t);
    var z := -m.sin(3.0 * t);
    [y, z]
  }

  /** Given `|sin|, |cos| <= 1`, the trefoil's stored `y` lies within
      `scale + 2` and its `z` within 1. */
  lemma TrefoilValuesBounded(m: MathFns, scale: real, d: Vec3)
    requires TrigBounded(m) && 0.0 <= scale
    ensures Within(TrefoilValues(m, scale, d)[0], scale + 2.0) && Within(TrefoilValues(m, scale, d)[1], 1.0)
  {
    var t := Angle(d.x);
    FactorWithin(m.cos(t), scale, scale);
    FactorWithin(m.cos(1.0 * t), 2.0, 2.0);
  }

  /** The offset multiplier each generator passes to `set`: `i * 3` for most,
      but `i * 2.7`, `i * 2.9` and `i * 1.5` for three of them. */
  function OffsetFactor(k: ShapeKind): (r: real)
    ensures 0.0 < r && Layout(r, Width(k))
    ensures r < 3.0 <==> k == Cloud || k == MobiusStrip || k == TrefoilKnot
  {
    match k
    case Cloud => 2.7
    case MobiusStrip => 2.9
    case TrefoilKnot => 1.5
    case _ => 3.0
  }

  /** How many values each particle writes. */
  function Width(k: ShapeKind): (r: nat)
    ensures 2 <= r <= 3
    ensures r == 2 <==> k == TrefoilKnot
  {
    if k == TrefoilKnot then 2 else 3
  }

  /** The values one particle writes, with each generator's default
      parameters (the generators are always called with `count` alone). */
  function Values(k: ShapeKind, m: MathFns, d: Vec3): (r: seq<real>)
    requires UnitDraws(d)
    ensures |r| == Width(k)
  {
    match k
    case TorusKnot => Triple(KnotPoint(m, 1.7, 3.0, 3.0, 3.0, d))
    case Torus => Triple(TorusPoint(m, 4.0, 1.0, d))
    case Icosahedron => Triple(SpherePoint(m, 5.0, d))
    case Sphere => Triple(SpherePoint(m, 5.0, d))
    case Box => Triple(BoxPoint(6.0, d))
    case MobiusStrip => Triple(MobiusPoint(m, 3.0, 4.0, d))
    case TrefoilKnot => TrefoilValues(m, 7.0, d)
    case Cloud => Triple(KnotPoint(m, 1.7, 3.0, 2.1, 1.0, d))
  }

  predicate AllUnit(draws: seq<Vec3>) {
    forall i :: 0 <= i < |draws| ==> UnitDraws(draws[i])
  }

  function PerParticle(k: ShapeKind, m: MathFns, draws: seq<Vec3>): (pts: seq<seq<real>>)
    requires AllUnit(draws)
    ensures |pts| == |draws| && Widths(pts, Width(k))
    ensures forall i :: 0 <= i < |draws| ==> pts[i] == Values(k, m, draws[i])
  {
    seq(|draws|, i requires 0 <= i < |draws| => Values(k, m, draws[i]))
  }

  /** `create<Shape>Positions(count)`: a fresh zero-filled `3 * count` buffer
      into which particle `i` writes its values at offset `i * factor`,
      truncated, in index order. */
  function Generate(k: ShapeKind, count: nat, m: MathFns, draws: seq<Vec3>): (buf: seq<real>)
    requires |draws| == count && AllUnit(draws)
    ensures |buf| == 3 * count
  {
    Scatter(count, OffsetFactor(k), Width(k), PerParticle(k, m, draws))
  }

  /** Points from the sphere formula lie on the sphere of the given radius. */
  lemma SpherePointOnSphere(m: MathFns, radius: real, d: Vec3)
    requires Pythagorean(m)
    ensures NormSq(SpherePoint(m, radius, d)) == radius * radius
  {
    var theta := Angle(d.x);
    var phi := m.acos(2.0 * d.y - 1.0);
    var s, k, c, t := m.sin(phi), m.cos(phi), m.cos(theta), m.sin(theta);
    assert s * s + k * k == 1.0;
    assert t * t + c * c == 1.0;
    assert SpherePoint(m, radius, d) == Vec3(radius * s * c, radius * s * t, radius * k);
    SphereFormula(radius, s, k, c, t);
  }

  /** The sphere formula on plain numbers: `(sin φ, cos φ)` and `(cos θ, sin θ)`
      on the unit circle give a point at distance `radius`. */
  lemma SphereFormula(radius: real, s: real, k: real, c: real, t: real)
    requires s * s + k * k == 1.0 && t * t + c * c == 1.0
    ensures NormSq(Vec3(radius * s * c, radius * s * t, radius * k)) == radius * radius
  {
    var p := Vec3(radius * s * c, radius * s * t, radius * k);
    assert p.x * p.x + p.y * p.y == (radius * s) * (radius * s) * (c * c + t * t);
    assert p.x * p.x + p.y * p.y == radius * radius * (s * s);
    assert p.z * p.z == radius * radius * (k * k);
  }

  /** Non-negative square roots are unique. */
  lemma SqrtOfSquare(m: MathFns, a: real)
    requires SqrtSound(m) && 0.0 <= a
    ensures m.sqrt(a * a) == a
  {
    var r := m.sqrt(a * a);
    assert 0.0 <= r && r * r == a * a;
    if r < a {
      SquareMonotone(r, a);
    } else if a < r {
      SquareMonotone(a, r);
    }
  }

  /** Scaling a point of the unit circle by `k` gives a point of the circle of
      radius `|k|`. */
  lemma ScaledCircle(k: real, a: real, b: real)
    requires a * a + b * b == 1.0
    ensures (k * a) * (k * a) + (k * b) * (k * b) == k * k
  {
    var ka, kb := k * a, k * b;
    assert ka * ka == (k * k) * (a * a);
    assert kb * kb == (k * k) * (b * b);
    assert (k * k) * (a * a) + (k * k) * (b * b) == (k * k) * (a * a + b * b);
  }

  /** `p` satisfies the torus equation `(sqrt(x² + y²) - R)² + z² = r²`. */
  ghost predicate OnTorus(m: MathFns, p: Vec3, radius: real, tubeRadius: real) {
    var u := m.sqrt(p.x * p.x + p.y * p.y) - radius;
    u * u + p.z * p.z == tubeRadius * tubeRadius
  }

  /** Points from the torus formula satisfy the torus equation
      `(sqrt(x² + y²) - R)² + z² = r²` when the ring radius is at least the
      tube radius. */
  lemma TorusPointOnTorus(m: MathFns, radius: real, tubeRadius: real, d: Vec3)
    requires SqrtSound(m) && TrigBounded(m) && Pythagorean(m)
    requires 0.0 <= tubeRadius <= radius
    ensures OnTorus(m, TorusPoint(m, radius, tubeRadius, d), radius, tubeRadius)
  {
    var theta := Angle(d.x);
    var phi := Angle(d.y);
    var c, s := m.cos(phi), m.sin(phi);
    var ct, st := m.cos(theta), m.sin(theta);
    var ring := radius + tubeRadius * c;
    var p := TorusPoint(m, radius, tubeRadius, d);
    assert p.x == ring * ct && p.y == ring * st && p.z == tubeRadius * s;
    assert ct * ct + st * st == 1.0;
    assert c * c + s * s == 1.0;
    ScaledCircle(ring, ct, st);
    assert p.x * p.x + p.y * p.y == ring * ring;
    assert -1.0 <= c;
    assert 0.0 <= tubeRadius * (c + 1.0);
    SqrtOfSquare(m, ring);
    var rho := m.sqrt(p.x * p.x + p.y * p.y);
    assert rho - radius == tubeRadius * c;
    ScaledCircle(tubeRadius, c, s);
    var u, w := rho - radius, p.z;
    assert u * u + w * w == tubeRadius * tubeRadius;
    assert OnTorus(m, p, radius, tubeRadius);
  }

  /** Generators that pass offset `i * 3` write particle `i`'s values to
      slots `3i .. 3i+2` and nowhere else. */
  lemma GenerateStrided(k: ShapeKind, count: nat, m: MathFns, draws: seq<Vec3>)
    requires |draws| == count && AllUnit(draws) && OffsetFactor(k) == 3.0
    ensures forall i :: 0 <= i < count ==> Triple(Get3(Generate(k, count, m, draws), i)) == Values(k, m, draws[i])
  {
    ScatterStride(count, PerParticle(k, m, draws));
  }

  /** Every sphere or icosahedron point lies on the radius-5 sphere. */
  lemma GenerateSphere(k: ShapeKind, count: nat, m: MathFns, draws: seq<Vec3>)
    requires k == Sphere || k == Icosahedron
    requires |draws| == count && AllUnit(draws) && Pythagorean(m)
    ensures forall i :: 0 <= i < count ==> NormSq(Get3(Generate(k, count, m, draws), i)) == 25.0
  {
    var buf := Generate(k, count, m, draws);
    assert OffsetFactor(k) == 3.0;
    GenerateStrided(k, count, m, draws);
    forall i | 0 <= i < count
      ensures NormSq(Get3(buf, i)) == 25.0
    {
      assert Triple(Get3(buf, i)) == Triple(SpherePoint(m, 5.0, draws[i]));
      SpherePointOnSphere(m, 5.0, draws[i]);
    }
  }

  /** Every torus point satisfies the torus equation for ring radius 4 and
      tube radius 1. */
  lemma GenerateTorus(count: nat, m: MathFns, draws: seq<Vec3>)
    requires |draws| == count && AllUnit(draws)
    requires SqrtSound(m) && TrigBounded(m) && Pythagorean(m)
    ensures forall i :: 0 <= i < count ==> OnTorus(m, Get3(Generate(Torus, count, m, draws), i), 4.0, 1.0)
  {
    var buf := Generate(Torus, count, m, draws);
    GenerateStrided(Torus, count, m, draws);
    forall i | 0 <= i < count
      ensures OnTorus(m, Get3(buf, i), 4.0, 1.0)
    {
      assert Triple(Get3(buf, i)) == Triple(TorusPoint(m, 4.0, 1.0, draws[i]));
      TorusPointOnTorus(m, 4.0, 1.0, draws[i]);
    }
  }

  /** Every box coordinate lies in [-3, 3), half the default size 6. */
  lemma GenerateBox(count: nat, m: MathFns, draws: seq<Vec3>)
    requires |draws| == count && AllUnit(draws)
    ensures forall i :: 0 <= i < count ==>
      var p := Get3(Generate(Box, count, m, draws), i);
      WithinBox(p, 3.0) && p.x < 3.0 && p.y < 3.0 && p.z < 3.0
  {
    var buf := Generate(Box, count, m, draws);
    GenerateStrided(Box, count, m, draws);
    forall i | 0 <= i < count
      ensures var p := Get3(buf, i);
        WithinBox(p, 3.0) && p.x < 3.0 && p.y < 3.0 && p.z < 3.0
    {
      assert Triple(Get3(buf, i)) == Triple(BoxPoint(6.0, draws[i]));
    }
  }

  /** Every slot past the last particle's write keeps the buffer's initial
      zero. */
  lemma GenerateTail(k: ShapeKind, count: nat, m: MathFns, draws: seq<Vec3>)
    requires 0 < count && |draws| == count && AllUnit(draws)
    ensures forall j :: WriteOffset(OffsetFactor(k), count - 1) + Width(k) <= j < 3 * count ==>
      Generate(k, count, m, draws)[j] == 0.0
  {
    ScatterTail(count, OffsetFactor(k), Width(k), PerParticle(k, m, draws));
  }

  /** The truncated fractional offsets of the cloud, Möbius and trefoil
      generators never reach the end of the buffer: with two or more
      particles the final slot stays zero. */
  lemma FractionalOffsetsLeaveLastSlot(k: ShapeKind, count: nat, m: MathFns, draws: seq<Vec3>)
    requires k == Cloud || k == MobiusStrip || k == TrefoilKnot
    requires 2 <= count && |draws| == count && AllUnit(draws)
    ensures Generate(k, count, m, draws)[3 * count - 1] == 0.0
  {
    LastSlotUnwritten(count, OffsetFactor(k), Width(k), PerParticle(k, m, draws));
  }

  /** Cloud writes overlap: with two particles, the second writes from slot
      `floor(2.7) = 2`, so slot 2 holds its `x` instead of the first
      particle's `z`. */
  lemma CloudOverlap(m: MathFns, draws: seq<Vec3>)
    requires |draws| == 2 && AllUnit(draws)
    ensures Generate(Cloud, 2, m, draws)[2] == KnotPoint(m, 1.7, 3.0, 2.1, 1.0, draws[1]).x
  {
    var pts := PerParticle(Cloud, m, draws);
    assert WriteOffset(2.7, 1) == 2;
    ScatterLast(2, 2.7, 3, pts);
    assert pts[1][0] == KnotPoint(m, 1.7, 3.0, 2.1, 1.0, draws[1]).x;
  }

  /** The Möbius strip's `v` is not confined to [-w/2, w/2]: the draw 0.9
      with the default width 4 gives 3, beyond w/2 = 2. */
  lemma MobiusRangeAsymmetric()
    ensures MobiusV(4.0, 0.9) == 3.0 > 4.0 / 2.0
  {
  }
}
