/**
 The chunk world and its boxes: containment, disjointness, neighbourhood, the pairs of boxes that may be
 merged, the halves a split produces and the stretch a relocation applies.

 A range is closed at both ends, as the chunk bounds of a zone are.
 */
module Geometry {

  datatype Option<+T> = None | Some(value: T)

  /**
   Chunk bounds are kept within this distance of the origin, so the 32-bit arithmetic of the source never overflows.
   */
  const CHUNK_COORD_LIMIT: int := 1_000_000

  datatype Axis = AxisX | AxisY | AxisZ

  datatype Chunk = Chunk(x: int, y: int, z: int) {
    function At(a: Axis): int {
      match a
      case AxisX => x
      case AxisY => y
      case AxisZ => z
    }

    function With(a: Axis, v: int): Chunk {
      match a
      case AxisX => this.(x := v)
      case AxisY => this.(y := v)
      case AxisZ => this.(z := v)
    }
  }

  datatype Range = Range(lo: int, hi: int) {
    predicate Has(v: int) { lo <= v <= hi }
    predicate NonEmpty() { lo <= hi }
    function Span(): int { hi - lo + 1 }
  }

  datatype Box = Box(x: Range, y: Range, z: Range) {
    function At(a: Axis): Range {
      match a
      case AxisX => x
      case AxisY => y
      case AxisZ => z
    }

    function With(a: Axis, r: Range): Box {
      match a
      case AxisX => this.(x := r)
      case AxisY => this.(y := r)
      case AxisZ => this.(z := r)
    }

    predicate Has(c: Chunk) { x.Has(c.x) && y.Has(c.y) && z.Has(c.z) }

    predicate NonEmpty() { x.NonEmpty() && y.NonEmpty() && z.NonEmpty() }

    /** The chunk at the low corner; it lies in every non-empty box. */
    function Corner(): Chunk { Chunk(x.lo, y.lo, z.lo) }

    /** Number of chunks of a non-empty box. */
    function Volume(): int { x.Span() * y.Span() * z.Span() }
  }

  ghost predicate Disjoint(a: Box, b: Box) {
    forall c: Chunk :: !(a.Has(c) && b.Has(c))
  }

  /** `u` contains exactly the chunks of `a` and of `b`. */
  ghost predicate IsUnion(u: Box, a: Box, b: Box) {
    forall c: Chunk :: u.Has(c) <==> a.Has(c) || b.Has(c)
  }

  /** `a` and `b` share no chunk and together make up `whole`. */
  ghost predicate Partitions(whole: Box, a: Box, b: Box) {
    Disjoint(a, b) && IsUnion(whole, a, b)
  }

  // ------------------------------------------------------------------------------------------------
  // Merging two boxes
  // ------------------------------------------------------------------------------------------------

  predicate Touch(r: Range, s: Range) { r.hi + 1 == s.lo || s.hi + 1 == r.lo }

  function MergeableAxis(a: Box, b: Box): Option<Axis> {
    if a.y == b.y && a.z == b.z && Touch(a.x, b.x) then Some(AxisX)
    else if a.x == b.x && a.z == b.z && Touch(a.y, b.y) then Some(AxisY)
    else if a.x == b.x && a.y == b.y && Touch(a.z, b.z) then Some(AxisZ)
    else None
  }

  function Min(a: int, b: int): int { if a < b then a else b }
  function Max(a: int, b: int): int { if a > b then a else b }

  /** The survivor's box once it has absorbed `victim` along `axis`. */
  function Absorb(survivor: Box, victim: Box, axis: Axis): Box {
    var s, v := survivor.At(axis), victim.At(axis);
    survivor.With(axis, Range(Min(s.lo, v.lo), Max(s.hi, v.hi)))
  }

  predicate MergesAlong(a: Box, b: Box, axis: Axis) {
    && Touch(a.At(axis), b.At(axis))
    && (forall other: Axis :: other != axis ==> a.At(other) == b.At(other))
  }

  /** Sound: an axis is only ever reported for a disjoint pair whose union is the box `Absorb` builds. */
  lemma MergeableIsSound(a: Box, b: Box)
    requires a.NonEmpty() && b.NonEmpty()
    requires MergeableAxis(a, b).Some?
    ensures Partitions(Absorb(a, b, MergeableAxis(a, b).value), a, b)
    ensures Absorb(a, b, MergeableAxis(a, b).value).NonEmpty()
    ensures Absorb(a, b, MergeableAxis(a, b).value) == Absorb(b, a, MergeableAxis(a, b).value)
  {
  }

  /** A chunk of the hull that lies in neither box would break the union, so the gap on a separating axis is empty. */
  lemma UnionTouches(u: Box, a: Box, b: Box, axis: Axis)
    requires a.NonEmpty() && b.NonEmpty() && IsUnion(u, a, b)
    requires a.At(axis).hi < b.At(axis).lo
    ensures a.At(axis).hi + 1 == b.At(axis).lo
  {
    var gap := a.Corner().With(axis, a.At(axis).hi + 1);
    assert u.Has(a.Corner()) && u.Has(b.Corner());
    assert u.Has(gap);
  }

  /** On every other axis the two boxes have the same range. */
  lemma UnionAligns(u: Box, a: Box, b: Box, axis: Axis, other: Axis)
    requires a.NonEmpty() && b.NonEmpty() && IsUnion(u, a, b) && axis != other
    requires a.At(axis).hi < b.At(axis).lo
    ensures a.At(other) == b.At(other)
  {
    var r, s := a.At(other), b.At(other);
    assert u.Has(a.Corner()) && u.Has(b.Corner());
    assert u.Has(a.Corner().With(other, r.hi)) && u.Has(b.Corner().With(other, s.hi));
    assert u.Has(a.Corner().With(other, s.lo));
    assert u.Has(b.Corner().With(other, r.lo));
    assert u.Has(a.Corner().With(other, s.hi));
    assert u.Has(b.Corner().With(other, r.hi));
  }

  /** Disjoint non-empty boxes are separated on some axis. */
  lemma SeparatingAxis(a: Box, b: Box) returns (axis: Axis)
    requires a.NonEmpty() && b.NonEmpty() && Disjoint(a, b)
    ensures a.At(axis).hi < b.At(axis).lo || b.At(axis).hi < a.At(axis).lo
  {
    var shared := Chunk(Max(a.x.lo, b.x.lo), Max(a.y.lo, b.y.lo), Max(a.z.lo, b.z.lo));
    assert !(a.Has(shared) && b.Has(shared));
    axis := if a.x.hi < b.x.lo || b.x.hi < a.x.lo then AxisX
    else if a.y.hi < b.y.lo || b.y.hi < a.y.lo then AxisY
    else AxisZ;
  }

  /** Complete: every disjoint pair whose union is a box is found. */
  lemma MergeableIsComplete(u: Box, a: Box, b: Box)
    requires a.NonEmpty() && b.NonEmpty() && Partitions(u, a, b)
    ensures MergeableAxis(a, b).Some?
  {
    var axis := SeparatingAxis(a, b);
    forall other: Axis | other != axis ensures a.At(other) == b.At(other) {
      if a.At(axis).hi < b.At(axis).lo {
        UnionAligns(u, a, b, axis, other);
      } else {
        UnionAligns(u, b, a, axis, other);
      }
    }
    if a.At(axis).hi < b.At(axis).lo {
      UnionTouches(u, a, b, axis);
    } else {
      UnionTouches(u, b, a, axis);
    }
    assert MergesAlong(a, b, axis);
    assert AxisX != axis ==> a.At(AxisX) == b.At(AxisX);
    assert AxisY != axis ==> a.At(AxisY) == b.At(AxisY);
    assert AxisZ != axis ==> a.At(AxisZ) == b.At(AxisZ);
  }

  /**
   The merge test decides exactly the disjoint pairs whose union is a box, the axis it reports is the only
   one along which the pair can be merged, and the pair are face neighbours.
   */
  lemma MergeableCharacterised(a: Box, b: Box)
    requires a.NonEmpty() && b.NonEmpty()
    ensures MergeableAxis(a, b).Some? <==> exists u: Box :: Partitions(u, a, b)
    ensures forall axis: Axis :: MergesAlong(a, b, axis) <==> MergeableAxis(a, b) == Some(axis)
    ensures MergeableAxis(a, b).Some? ==> Adjacent(a, b) && TouchingAxes(a, b) == 1
  {
    if MergeableAxis(a, b).Some? {
      MergeableIsSound(a, b);
    }
    if u: Box :| Partitions(u, a, b) {
      MergeableIsComplete(u, a, b);
    }
    forall axis: Axis ensures MergesAlong(a, b, axis) <==> MergeableAxis(a, b) == Some(axis) {
      if MergesAlong(a, b, axis) {
        assert AxisX != axis ==> a.At(AxisX) == b.At(AxisX);
        assert AxisY != axis ==> a.At(AxisY) == b.At(AxisY);
        assert AxisZ != axis ==> a.At(AxisZ) == b.At(AxisZ);
      }
    }
  }

  // ------------------------------------------------------------------------------------------------
  // Neighbours
  // ------------------------------------------------------------------------------------------------

  predicate Near(r: Range, s: Range) { r.lo <= s.hi + 1 && s.lo <= r.hi + 1 }

  predicate Adjacent(a: Box, b: Box) { Near(a.x, b.x) && Near(a.y, b.y) && Near(a.z, b.z) }

  /** On how many axes the boxes stand end to end: 1 for a shared face, 2 for an edge, 3 for a corner. */
  function TouchingAxes(a: Box, b: Box): nat {
    (if Touch(a.x, b.x) then 1 else 0) + (if Touch(a.y, b.y) then 1 else 0) + (if Touch(a.z, b.z) then 1 else 0)
  }

  predicate FaceNeighbours(a: Box, b: Box) { Adjacent(a, b) && TouchingAxes(a, b) == 1 }

  /** The two chunks differ by one on at most so many axes, and agree on the others. */
  predicate Beside(c: Chunk, d: Chunk, axes: nat) {
    && -1 <= c.x - d.x <= 1 && -1 <= c.y - d.y <= 1 && -1 <= c.z - d.z <= 1
    && (if c.x != d.x then 1 else 0) + (if c.y != d.y then 1 else 0) + (if c.z != d.z then 1 else 0) <= axes
  }

  ghost predicate ChunksBeside(a: Box, b: Box, axes: nat) {
    exists c: Chunk, d: Chunk :: a.Has(c) && b.Has(d) && Beside(c, d, axes)
  }

  /** No chunk in common, and a chunk of the one next to a chunk of the other, across one face. */
  ghost predicate SharesFace(a: Box, b: Box) { Disjoint(a, b) && ChunksBeside(a, b, 1) }

  /** The nearest coordinates of two ranges: the first of the later one, and what is nearest to that in the other. */
  function Nearest(r: Range, s: Range): (int, int) {
    if r.hi < s.lo then (r.hi, s.lo) else if s.hi < r.lo then (r.lo, s.hi) else (Max(r.lo, s.lo), Max(r.lo, s.lo))
  }

  lemma NearestIsNear(r: Range, s: Range, v: int, w: int)
    requires r.NonEmpty() && s.NonEmpty()
    ensures r.Has(Nearest(r, s).0) && s.Has(Nearest(r, s).1)
    ensures Near(r, s) <==> -1 <= Nearest(r, s).0 - Nearest(r, s).1 <= 1
    ensures Near(r, s) ==> (Touch(r, s) <==> Nearest(r, s).0 != Nearest(r, s).1)
    ensures r.Has(v) && s.Has(w) && -1 <= v - w <= 1 ==> Near(r, s) && (Touch(r, s) ==> v != w)
  {
  }

  /**
   Two boxes are adjacent with at most so many axes touching exactly if a chunk of the one is beside a chunk of the
   other with a difference on at most so many axes.
   */
  lemma AdjacentIff(a: Box, b: Box, axes: nat)
    requires a.NonEmpty() && b.NonEmpty()
    ensures Adjacent(a, b) && TouchingAxes(a, b) <= axes <==> ChunksBeside(a, b, axes)
  {
    var x, y, z := Nearest(a.x, b.x), Nearest(a.y, b.y), Nearest(a.z, b.z);
    NearestIsNear(a.x, b.x, x.0, x.1);
    NearestIsNear(a.y, b.y, y.0, y.1);
    NearestIsNear(a.z, b.z, z.0, z.1);
    if Adjacent(a, b) && TouchingAxes(a, b) <= axes {
      assert Beside(Chunk(x.0, y.0, z.0), Chunk(x.1, y.1, z.1), axes);
    }
    if c: Chunk, d: Chunk :| a.Has(c) && b.Has(d) && Beside(c, d, axes) {
      NearestIsNear(a.x, b.x, c.x, d.x);
      NearestIsNear(a.y, b.y, c.y, d.y);
      NearestIsNear(a.z, b.z, c.z, d.z);
    }
  }

  /** Face neighbours are the boxes that share a face. */
  lemma FaceNeighboursIff(a: Box, b: Box)
    requires a.NonEmpty() && b.NonEmpty()
    ensures FaceNeighbours(a, b) <==> SharesFace(a, b)
  {
    AdjacentIff(a, b, 0);
    AdjacentIff(a, b, 1);
    if !Disjoint(a, b) {
      var c: Chunk :| a.Has(c) && b.Has(c);
      assert Beside(c, c, 0);
    }
    assert ChunksBeside(a, b, 0) ==> !Disjoint(a, b);
  }

  // ------------------------------------------------------------------------------------------------
  // Splitting a box
  // ------------------------------------------------------------------------------------------------

  /** Division as the source language does it, towards zero. */
  function TruncDiv(n: int, d: int): int
    requires d > 0
  {
    if n >= 0 then n / d else -((-n) / d)
  }

  /** The half the parent keeps: everything up to `top` on `axis`. */
  function LowHalf(b: Box, axis: Axis, top: int): Box { b.With(axis, Range(b.At(axis).lo, top)) }

  /** The half the child is spawned with: everything from `bottom` on `axis`. */
  function HighHalf(b: Box, axis: Axis, bottom: int): Box { b.With(axis, Range(bottom, b.At(axis).hi)) }

  /** A population or crowd cut leaves two non-empty boxes that partition the parent and can be merged back into it. */
  lemma CutPartitions(b: Box, axis: Axis, cut: int)
    requires b.NonEmpty() && b.At(axis).lo <= cut < b.At(axis).hi
    ensures Partitions(b, LowHalf(b, axis, cut), HighHalf(b, axis, cut + 1))
    ensures LowHalf(b, axis, cut).NonEmpty() && HighHalf(b, axis, cut + 1).NonEmpty()
    ensures MergeableAxis(LowHalf(b, axis, cut), HighHalf(b, axis, cut + 1)) == Some(axis)
    ensures Absorb(LowHalf(b, axis, cut), HighHalf(b, axis, cut + 1), axis) == b
  {
  }

  /** Both halves have strictly fewer chunks, so no chain of cuts is longer than the volume of the first box. */
  lemma CutShrinks(b: Box, axis: Axis, cut: int)
    requires b.NonEmpty() && b.At(axis).lo <= cut < b.At(axis).hi
    ensures 1 <= LowHalf(b, axis, cut).Volume() < b.Volume()
    ensures 1 <= HighHalf(b, axis, cut + 1).Volume() < b.Volume()
    ensures LowHalf(b, axis, cut).Volume() + HighHalf(b, axis, cut + 1).Volume() == b.Volume()
  {
    var r := b.At(axis);
    var area := match axis
                case AxisX => b.y.Span() * b.z.Span()
                case AxisY => b.x.Span() * b.z.Span()
                case AxisZ => b.x.Span() * b.y.Span();
    VolumeOf(b, axis, area);
    VolumeOf(LowHalf(b, axis, cut), axis, area);
    VolumeOf(HighHalf(b, axis, cut + 1), axis, area);
    assert area >= 1 by {
      match axis {
        case AxisX => Positive(b.y.Span(), b.z.Span());
        case AxisY => Positive(b.x.Span(), b.z.Span());
        case AxisZ => Positive(b.x.Span(), b.y.Span());
      }
    }
    Distribute(cut - r.lo + 1, r.hi - cut, area);
  }

  lemma VolumeOf(b: Box, axis: Axis, area: int)
    requires area == match axis
                     case AxisX => b.y.Span() * b.z.Span()
                     case AxisY => b.x.Span() * b.z.Span()
                     case AxisZ => b.x.Span() * b.y.Span()
    ensures b.Volume() == b.At(axis).Span() * area
  {
    var x, y, z := b.x.Span(), b.y.Span(), b.z.Span();
    SwapFactors(x, y, z);
    assert x * y * z == x * (y * z) && x * y * z == z * (x * y);
  }

  lemma Positive(p: int, q: int)
    requires p >= 1 && q >= 1
    ensures p * q >= 1
  {
  }

  lemma Distribute(l: int, h: int, area: int)
    requires l >= 1 && h >= 1 && area >= 1
    ensures 1 <= l * area < (l + h) * area
    ensures 1 <= h * area < (l + h) * area
    ensures l * area + h * area == (l + h) * area
  {
  }

  lemma SwapFactors(x: int, y: int, z: int)
    ensures x * y * z == y * (x * z)
  {
  }

  function GeometricLow(r: Range): int { TruncDiv(r.lo + r.hi, 2) }
  function GeometricHigh(r: Range): int { TruncDiv(r.lo + r.hi + 1, 2) }

  /** The geometric middle is shared by both halves exactly for these sums of bounds. */
  predicate SharedMiddle(r: Range) {
    var s := r.lo + r.hi;
    if s >= 0 then s % 2 == 0 else s % 2 == 1
  }

  /**
   The geometric fallback never leaves a gap: the halves are end to end, or overlap by exactly one layer,
   and it says which. The child is always strictly smaller; the parent is too, except on a two-chunk axis
   whose bounds have a negative odd sum, where the parent keeps its whole range.
   */
  lemma GeometricCut(b: Box, axis: Axis)
    requires b.NonEmpty() && b.At(axis).lo < b.At(axis).hi
    ensures var r := b.At(axis);
            var l, h := LowHalf(b, axis, GeometricLow(r)), HighHalf(b, axis, GeometricHigh(r));
            && l.NonEmpty() && h.NonEmpty()
            && IsUnion(b, l, h)
            && (forall c: Chunk :: l.Has(c) && h.Has(c) <==>
                  b.Has(c) && SharedMiddle(r) && c.At(axis) == GeometricLow(r))
            && (Disjoint(l, h) <==> !SharedMiddle(r))
            && h != b
            && (l == b <==> r.lo + r.hi < 0 && r.hi == r.lo + 1)
  {
    var r := b.At(axis);
    var l, h := LowHalf(b, axis, GeometricLow(r)), HighHalf(b, axis, GeometricHigh(r));
    assert r.lo < GeometricHigh(r) <= r.hi && r.lo <= GeometricLow(r) <= r.hi;
    assert GeometricHigh(r) == GeometricLow(r) + (if SharedMiddle(r) then 0 else 1);
    if SharedMiddle(r) {
      var shared := b.Corner().With(axis, GeometricLow(r));
      assert l.Has(shared) && h.Has(shared);
    }
  }

  // ------------------------------------------------------------------------------------------------
  // Stretching a box
  // ------------------------------------------------------------------------------------------------

  function Clamp(v: int): int { Max(-CHUNK_COORD_LIMIT, Min(v, CHUNK_COORD_LIMIT)) }

  function StretchRange(r: Range, v: int): Range { Range(Clamp(Min(r.lo, v)), Clamp(Max(r.hi, v))) }

  /** What the head writes in its own copy of the box. */
  function Stretch(b: Box, c: Chunk): Box {
    Box(StretchRange(b.x, c.x), StretchRange(b.y, c.y), StretchRange(b.z, c.z))
  }

  /** What the zone does on receiving the relocation: nothing when the chunk is already inside. */
  function ZoneStretch(b: Box, c: Chunk): Box { if b.Has(c) then b else Stretch(b, c) }

  predicate RangeInLimits(r: Range) { -CHUNK_COORD_LIMIT <= r.lo && r.hi <= CHUNK_COORD_LIMIT }
  predicate InLimits(b: Box) { RangeInLimits(b.x) && RangeInLimits(b.y) && RangeInLimits(b.z) }
  predicate ChunkInLimits(c: Chunk) { Clamp(c.x) == c.x && Clamp(c.y) == c.y && Clamp(c.z) == c.z }

  /**
   Head and zone compute the same box unless the chunk already lies inside a box that exceeds the limits. Whatever
   the box, the result has the chunk exactly if the chunk is within the limits. A box within the limits stays within
   them, keeps every chunk, and for a chunk within the limits becomes the least box with that chunk and all its own.
   */
  lemma StretchAgrees(b: Box, c: Chunk)
    ensures Stretch(b, c) == ZoneStretch(b, c) <==> !b.Has(c) || Stretch(b, c) == b
    ensures b.NonEmpty() ==> (Stretch(b, c) == ZoneStretch(b, c) <==> !b.Has(c) || InLimits(b))
    ensures Stretch(b, c).Has(c) <==> ChunkInLimits(c)
    ensures forall d: Chunk :: ChunkInLimits(d) && b.Has(d) ==> Stretch(b, c).Has(d)
    ensures InLimits(b) && b.NonEmpty() ==>
              && InLimits(Stretch(b, c)) && Stretch(b, c).NonEmpty()
              && (forall d: Chunk :: b.Has(d) ==> Stretch(b, c).Has(d))
    ensures InLimits(b) && b.NonEmpty() && ChunkInLimits(c) ==>
              forall u: Box :: u.Has(c) && (forall d: Chunk :: b.Has(d) ==> u.Has(d)) ==>
                forall d: Chunk :: Stretch(b, c).Has(d) ==> u.Has(d)
  {
    if InLimits(b) && b.NonEmpty() && ChunkInLimits(c) {
      forall u: Box | u.Has(c) && (forall d: Chunk :: b.Has(d) ==> u.Has(d))
        ensures forall d: Chunk :: Stretch(b, c).Has(d) ==> u.Has(d)
      {
        assert u.Has(b.Corner()) && u.Has(Chunk(b.x.hi, b.y.hi, b.z.hi));
      }
    }
  }

  /** A larger box has a corner that the smaller one has not. */
  lemma StrictlyLarger(small: Box, large: Box) returns (c: Chunk)
    requires large.NonEmpty() && (forall d: Chunk :: small.Has(d) ==> large.Has(d)) && small.NonEmpty() &&
             large != small
    ensures large.Has(c) && !small.Has(c)
  {
    var low, high := large.Corner(), Chunk(large.x.hi, large.y.hi, large.z.hi);
    assert large.Has(small.Corner()) && large.Has(Chunk(small.x.hi, small.y.hi, small.z.hi));
    c := if small.Has(low) then high else low;
  }
}
