/** Flat `Float32Array`-style buffers holding one (x, y, z) triple per
    particle, and the typed-array `set(values, offset)` write the shape
    generators use. */
module FlatBuffer {
  import opened Vectors

  function Zeros(n: nat): (r: seq<real>)
    ensures |r| == n
    ensures forall k :: 0 <= k < n ==> r[k] == 0.0
  {
    seq(n, _ => 0.0)
  }

  /** `buf.set(vals, off)` for an in-range integer offset: `vals` replaces the
      slots from `off` on, and no other slot changes. */
  function Overwrite(buf: seq<real>, off: nat, vals: seq<real>): (r: seq<real>)
    requires off + |vals| <= |buf|
    ensures |r| == |buf|
    ensures forall k :: 0 <= k < |vals| ==> r[off + k] == vals[k]
    ensures forall k :: 0 <= k < |buf| && !(off <= k < off + |vals|) ==> r[k] == buf[k]
  {
    buf[..off] + vals + buf[off + |vals|..]
  }

  /** The triple of particle `i`: slots `3i`, `3i+1`, `3i+2`. */
  function Get3(s: seq<real>, i: nat): Vec3
    requires 3 * i + 3 <= |s|
  {
    Vec3(s[3 * i], s[3 * i + 1], s[3 * i + 2])
  }

  function Triple(v: Vec3): seq<real> {
    [v.x, v.y, v.z]
  }

  /** Writes particle `i`'s triple and nothing else. */
  function Put3(s: seq<real>, i: nat, v: Vec3): (r: seq<real>)
    requires 3 * i + 3 <= |s|
    ensures |r| == |s|
    ensures Get3(r, i) == v
    ensures forall k :: 0 <= k < |s| && !(3 * i <= k < 3 * i + 3) ==> r[k] == s[k]
  {
    var t := Triple(v);
    var r := Overwrite(s, 3 * i, t);
    assert r[3 * i + 0] == t[0] && r[3 * i + 1] == t[1] && r[3 * i + 2] == t[2];
    r
  }

  /** Reading a triple back after `Put3`: the written triple at `i`, the old
      one everywhere else. */
  lemma Get3Put3(s: seq<real>, i: nat, j: nat, v: Vec3)
    requires 3 * i + 3 <= |s| && 3 * j + 3 <= |s|
    ensures Get3(Put3(s, i, v), j) == if i == j then v else Get3(s, j)
  {
    var r := Put3(s, i, v);
    if i != j {
      assert r[3 * j] == s[3 * j] && r[3 * j + 1] == s[3 * j + 1] && r[3 * j + 2] == s[3 * j + 2];
    }
  }

  /** Slot `k` of a triple buffer belongs to particle `k / 3`, at component
      `k % 3` of its triple. */
  lemma SlotOwner(k: nat, count: nat)
    requires k < 3 * count
    ensures k / 3 < count && 3 * (k / 3) <= k < 3 * (k / 3) + 3
  {
  }

  /** Two triple buffers of the same length that agree on every particle's
      triple are equal. */
  lemma TriplesDetermine(s: seq<real>, t: seq<real>, count: nat)
    requires |s| == 3 * count && |t| == 3 * count
    requires forall i :: 0 <= i < count ==> Get3(s, i) == Get3(t, i)
    ensures s == t
  {
    forall k | 0 <= k < 3 * count
      ensures s[k] == t[k]
    {
      var i := k / 3;
      SlotOwner(k, count);
      assert Get3(s, i) == Get3(t, i);
    }
  }

  /** The slot particle `i` writes to when the source passes the offset
      `i * factor` to `set`: typed arrays truncate a fractional offset. */
  function WriteOffset(factor: real, i: nat): (off: nat)
    requires 0.0 <= factor
    ensures off as real <= factor * i as real < off as real + 1.0
  {
    assert 0.0 <= factor * i as real;
    (factor * i as real).Floor
  }

  /** The write layouts the generators use: an offset factor of at most 3
      (3, 2.9, 2.7 or 1.5) and at most three values per particle. */
  predicate Layout(factor: real, width: nat) {
    0.0 <= factor <= 3.0 && width <= 3
  }

  /** Every particle writes exactly `width` values. */
  predicate Widths(pts: seq<seq<real>>, width: nat) {
    forall i :: 0 <= i < |pts| ==> |pts[i]| == width
  }

  lemma OffsetMonotone(factor: real, i: nat, j: nat)
    requires 0.0 <= factor && i <= j
    ensures WriteOffset(factor, i) <= WriteOffset(factor, j)
  {
    assert factor * i as real <= factor * j as real;
  }

  /** Particle `i`'s write never runs past the end of a `3 * count` buffer,
      so `set` never throws its range error. */
  lemma OffsetFits(factor: real, width: nat, count: nat, i: nat)
    requires Layout(factor, width) && i < count
    ensures WriteOffset(factor, i) + width <= 3 * count
  {
    var off := WriteOffset(factor, i);
    assert factor * i as real <= 3.0 * i as real by { assert (3.0 - factor) * i as real >= 0.0; }
    assert (3 * i) as real == 3.0 * i as real;
    assert off < 3 * i + 1;
  }

  /** The stride-3 layout writes particle `n` at slot `3n`. */
  lemma StrideOffset(n: nat)
    ensures WriteOffset(3.0, n) == 3 * n
  {
    assert 3.0 * n as real == (3 * n) as real;
  }

  /** The buffer after particles `0 .. |pts| - 1`, in index order, each wrote
      its values at its (truncated) offset into a zero-filled `3 * count`
      buffer. Overlapping writes are resolved by the later particle. */
  function Scatter(count: nat, factor: real, width: nat, pts: seq<seq<real>>): (r: seq<real>)
    requires Layout(factor, width) && |pts| <= count && Widths(pts, width)
    ensures |r| == 3 * count
    decreases |pts|
  {
    if |pts| == 0 then
      Zeros(3 * count)
    else
      var n := |pts| - 1;
      OffsetFits(factor, width, count, n);
      Overwrite(Scatter(count, factor, width, pts[..n]), WriteOffset(factor, n), pts[n])
  }

  /** Writing a triple at slot `3n` leaves every other particle's triple alone. */
  lemma OverwriteTriple(buf: seq<real>, n: nat, vals: seq<real>, i: nat)
    requires |vals| == 3 && 3 * n + 3 <= |buf| && 3 * i + 3 <= |buf|
    ensures i == n ==> Triple(Get3(Overwrite(buf, 3 * n, vals), i)) == vals
    ensures i != n ==> Get3(Overwrite(buf, 3 * n, vals), i) == Get3(buf, i)
  {
    var r := Overwrite(buf, 3 * n, vals);
    if i == n {
      assert r[3 * n + 0] == vals[0] && r[3 * n + 1] == vals[1] && r[3 * n + 2] == vals[2];
    }
  }

  /** With the stride-3 layout no writes overlap: particle `i`'s values are
      exactly its triple, and slots after the last particle stay zero. */
  lemma {:induction false} ScatterStride(count: nat, pts: seq<seq<real>>)
    requires |pts| <= count && Widths(pts, 3)
    ensures forall i :: 0 <= i < |pts| ==> Triple(Get3(Scatter(count, 3.0, 3, pts), i)) == pts[i]
    ensures forall k :: 3 * |pts| <= k < 3 * count ==> Scatter(count, 3.0, 3, pts)[k] == 0.0
  {
    if |pts| > 0 {
      var n := |pts| - 1;
      var prefix := pts[..n];
      var r0 := Scatter(count, 3.0, 3, prefix);
      ScatterStride(count, prefix);
      StrideOffset(n);
      var r := Overwrite(r0, 3 * n, pts[n]);
      assert Scatter(count, 3.0, 3, pts) == r;
      forall i | 0 <= i < |pts|
        ensures Triple(Get3(r, i)) == pts[i]
      {
        OverwriteTriple(r0, n, pts[n], i);
        if i < n {
          assert prefix[i] == pts[i];
        }
      }
    }
  }

  /** The last particle's write is never overwritten. */
  lemma ScatterLast(count: nat, factor: real, width: nat, pts: seq<seq<real>>)
    requires Layout(factor, width) && 0 < |pts| <= count && Widths(pts, width)
    ensures WriteOffset(factor, |pts| - 1) + width <= 3 * count
    ensures var off := WriteOffset(factor, |pts| - 1);
      var last := pts[|pts| - 1];
      forall k :: 0 <= k < |last| ==> Scatter(count, factor, width, pts)[off + k] == last[k]
  {
    var n := |pts| - 1;
    OffsetFits(factor, width, count, n);
    assert Scatter(count, factor, width, pts) == Overwrite(Scatter(count, factor, width, pts[..n]), WriteOffset(factor, n), pts[n]);
  }

  /** Every slot past the last particle's write is still zero: no earlier
      particle writes further out than a later one. */
  lemma {:induction false} ScatterTail(count: nat, factor: real, width: nat, pts: seq<seq<real>>)
    requires Layout(factor, width) && 0 < |pts| <= count && Widths(pts, width)
    ensures forall k :: WriteOffset(factor, |pts| - 1) + width <= k < 3 * count ==> Scatter(count, factor, width, pts)[k] == 0.0
  {
    var n := |pts| - 1;
    var r0 := Scatter(count, factor, width, pts[..n]);
    if n > 0 {
      ScatterTail(count, factor, width, pts[..n]);
      OffsetMonotone(factor, n - 1, n);
    }
  }

  /** With an offset factor below 3 and at least two particles, the last slot
      of the buffer is never written and keeps its initial zero. */
  lemma LastSlotUnwritten(count: nat, factor: real, width: nat, pts: seq<seq<real>>)
    requires Layout(factor, width) && factor < 3.0 && 2 <= |pts| == count && Widths(pts, width)
    ensures Scatter(count, factor, width, pts)[3 * count - 1] == 0.0
  {
    var n := count - 1;
    var off := WriteOffset(factor, n);
    assert factor * n as real < 3.0 * n as real;
    assert (3 * n) as real == 3.0 * n as real;
    assert off < 3 * n;
    ScatterTail(count, factor, width, pts);
  }
}
