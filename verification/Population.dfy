/**
 Where a zone is cut. The zone reports one coarse histogram per axis of the chunks its entities stand in;
 the head inverts it into a chunk boundary. The two sides never exchange the formula, so the heart of this
 module is that the head's inverse is the exact adjoint of the zone's bucketing.
 */
module Population {
  import opened Geometry

  const BUCKETS: int := 32
  const SATURATED: nat := 0xFFFF

  // ------------------------------------------------------------------------------------------------
  // The zone's side: bucketing
  // ------------------------------------------------------------------------------------------------

  /** The bucket of coordinate `v` over the range `r`; coordinates outside the range go to the end buckets. */
  function Bucket(v: int, r: Range): (b: int)
    ensures 0 <= b < BUCKETS
  {
    if r.Span() <= 1 then 0
    else
      var b := TruncDiv((v - r.lo) * BUCKETS, r.Span());
      if b < 0 then 0 else if b >= BUCKETS then BUCKETS - 1 else b
  }

  /** The head's inverse: the last chunk of bucket `b`. */
  function BucketEnd(r: Range, b: nat): int
  {
    r.lo + TruncDiv((b + 1) * r.Span() - 1, BUCKETS)
  }

  /** The two are adjoint, for every coordinate: inside the box, below it or above it. */
  lemma BucketAdjoint(r: Range, v: int, b: nat)
    requires r.Span() >= 2 && b < BUCKETS - 1
    ensures Bucket(v, r) <= b <==> v <= BucketEnd(r, b)
    ensures r.lo <= BucketEnd(r, b) <= r.hi
  {
    var e := EndOffset(r, b);
    if v < r.lo {
      BucketBelow(v, r);
    } else {
      var q := BucketInside(v, r);
      FloorAdjoint(v - r.lo, r.Span(), b);
    }
  }

  lemma EndOffset(r: Range, b: nat) returns (e: nat)
    requires r.Span() >= 2 && b < BUCKETS - 1
    ensures e == ((b + 1) * r.Span() - 1) / BUCKETS < r.Span()
    ensures BucketEnd(r, b) == r.lo + e
  {
    EndInRange(r.Span(), b);
    e := ((b + 1) * r.Span() - 1) / BUCKETS;
  }

  lemma BucketBelow(v: int, r: Range)
    requires r.Span() >= 2 && v < r.lo
    ensures Bucket(v, r) == 0
  {
  }

  lemma BucketInside(v: int, r: Range) returns (q: nat)
    requires r.Span() >= 2 && v >= r.lo
    ensures q == (v - r.lo) * BUCKETS / r.Span()
    ensures Bucket(v, r) == Min(q, BUCKETS - 1)
  {
    q := (v - r.lo) * BUCKETS / r.Span();
  }

  lemma EndInRange(span: int, b: nat)
    requires span >= 2 && b < BUCKETS - 1
    ensures 0 <= ((b + 1) * span - 1) / BUCKETS < span
  {
    assert span <= (b + 1) * span <= 31 * span by { MulMono(1, b + 1, span); MulMono(b + 1, 31, span); }
  }

  lemma MulMono(p: int, q: int, s: int)
    requires p <= q && s >= 0
    ensures p * s <= q * s
  {
  }

  lemma FloorAdjoint(d: nat, span: int, b: nat)
    requires span >= 2
    ensures d * BUCKETS / span <= b <==> d <= ((b + 1) * span - 1) / BUCKETS
  {
    var n := d * BUCKETS;
    var q := n / span;
    assert q * span <= n < (q + 1) * span;
    if q <= b {
      MulMono(q + 1, b + 1, span);
    } else {
      MulMono(b + 1, q, span);
    }
    assert q <= b <==> n <= (b + 1) * span - 1;
  }

  /** How many coordinates fall into bucket `b`. */
  function InBucket(coords: seq<int>, r: Range, b: int): nat {
    if coords == [] then 0
    else InBucket(coords[..|coords| - 1], r, b) + (if Bucket(coords[|coords| - 1], r) == b then 1 else 0)
  }

  /** How many coordinates are at most `bound`. */
  function UpTo(coords: seq<int>, bound: int): nat {
    if coords == [] then 0
    else UpTo(coords[..|coords| - 1], bound) + (if coords[|coords| - 1] <= bound then 1 else 0)
  }

  function Saturate(n: nat): nat { if n < SATURATED then n else SATURATED }

  /** The histogram the zone reports for one axis. */
  function Tally(coords: seq<int>, r: Range): (h: seq<nat>)
    ensures |h| == BUCKETS
  {
    seq(BUCKETS, b => Saturate(InBucket(coords, r, b)))
  }

  function Coords(chunks: seq<Chunk>, a: Axis): (s: seq<int>)
    ensures |s| == |chunks|
  {
    seq(|chunks|, i requires 0 <= i < |chunks| => chunks[i].At(a))
  }

  lemma CoordsExtend(chunks: seq<Chunk>, n: nat, a: Axis)
    requires n < |chunks|
    ensures Coords(chunks[..n + 1], a)[..n] == Coords(chunks[..n], a)
    ensures Coords(chunks[..n + 1], a)[n] == chunks[n].At(a)
  {
  }

  /** One more coordinate adds one to its own bucket and leaves every other bucket alone. */
  lemma TallyExtend(coords: seq<int>, v: int, r: Range)
    ensures Tally(coords + [v], r) ==
            var b := Bucket(v, r);
            if Tally(coords, r)[b] < SATURATED then Tally(coords, r)[b := Tally(coords, r)[b] + 1] else Tally(coords, r)
  {
    var more := coords + [v];
    assert more[..|more| - 1] == coords;
  }

  /** The three histograms of one metrics report, counted entity by entity as the zone's tick does. */
  method ReportPopulation(chunks: seq<Chunk>, box: Box) returns (popX: array<nat>, popY: array<nat>, popZ: array<nat>)
    ensures popX[..] == Tally(Coords(chunks, AxisX), box.x)
    ensures popY[..] == Tally(Coords(chunks, AxisY), box.y)
    ensures popZ[..] == Tally(Coords(chunks, AxisZ), box.z)
  {
    popX, popY, popZ := new nat[BUCKETS](_ => 0), new nat[BUCKETS](_ => 0), new nat[BUCKETS](_ => 0);
    for n := 0 to |chunks|
      invariant popX[..] == Tally(Coords(chunks[..n], AxisX), box.x)
      invariant popY[..] == Tally(Coords(chunks[..n], AxisY), box.y)
      invariant popZ[..] == Tally(Coords(chunks[..n], AxisZ), box.z)
    {
      Increment(popX, chunks[n].x, box.x, Coords(chunks[..n], AxisX));
      Increment(popY, chunks[n].y, box.y, Coords(chunks[..n], AxisY));
      Increment(popZ, chunks[n].z, box.z, Coords(chunks[..n], AxisZ));
      CoordsExtend(chunks, n, AxisX);
      CoordsExtend(chunks, n, AxisY);
      CoordsExtend(chunks, n, AxisZ);
    }
    assert chunks[..|chunks|] == chunks;
  }

  /** A saturating increment: a full bucket stays full instead of wrapping. */
  method Increment(h: array<nat>, v: int, r: Range, ghost seen: seq<int>)
    requires h[..] == Tally(seen, r)
    modifies h
    ensures h[..] == Tally(seen + [v], r)
  {
    var b := Bucket(v, r);
    TallyExtend(seen, v, r);
    if h[b] < SATURATED {
      h[b] := h[b] + 1;
    }
  }

  // ------------------------------------------------------------------------------------------------
  // What a cumulative count means
  // ------------------------------------------------------------------------------------------------

  /** The entities counted in the first `k` buckets. */
  function Cum(h: seq<nat>, k: nat): nat
    requires k <= |h|
  {
    if k == 0 then 0 else Cum(h, k - 1) + h[k - 1]
  }

  function Total(h: seq<nat>): nat { Cum(h, |h|) }

  predicate Unsaturated(coords: seq<int>, r: Range) {
    forall b :: 0 <= b < BUCKETS ==> InBucket(coords, r, b) < SATURATED
  }

  /** How many coordinates have a bucket below `k`. */
  function BelowBucket(coords: seq<int>, r: Range, k: int): nat {
    if coords == [] then 0
    else BelowBucket(coords[..|coords| - 1], r, k) + (if Bucket(coords[|coords| - 1], r) < k then 1 else 0)
  }

  lemma {:induction false} BelowBucketStep(coords: seq<int>, r: Range, k: nat)
    ensures BelowBucket(coords, r, 0) == 0
    ensures BelowBucket(coords, r, k + 1) == BelowBucket(coords, r, k) + InBucket(coords, r, k)
    ensures BelowBucket(coords, r, BUCKETS) == |coords|
  {
    if coords != [] {
      BelowBucketStep(coords[..|coords| - 1], r, k);
    }
  }

  lemma {:induction false} CumIsBelowBucket(coords: seq<int>, r: Range, k: nat)
    requires k <= BUCKETS && Unsaturated(coords, r)
    ensures Cum(Tally(coords, r), k) == BelowBucket(coords, r, k)
  {
    if k == 0 {
      BelowBucketStep(coords, r, 0);
    } else {
      CumIsBelowBucket(coords, r, k - 1);
      BelowBucketStep(coords, r, k - 1);
    }
  }

  lemma {:induction false} BelowBucketIsUpTo(coords: seq<int>, r: Range, b: nat)
    requires r.Span() >= 2 && b < BUCKETS - 1
    ensures BelowBucket(coords, r, b + 1) == UpTo(coords, BucketEnd(r, b))
  {
    if coords != [] {
      BelowBucketIsUpTo(coords[..|coords| - 1], r, b);
      BucketAdjoint(r, coords[|coords| - 1], b);
    }
  }

  /**
   With box and profile from one report and no bucket saturated, the head's running count at a bucket
   boundary is the true number of entities on the low side of the cut, and the total the true population.
   */
  lemma CumIsLowSide(coords: seq<int>, r: Range, b: nat)
    requires r.Span() >= 2 && b < BUCKETS - 1 && Unsaturated(coords, r)
    ensures Cum(Tally(coords, r), b + 1) == UpTo(coords, BucketEnd(r, b))
    ensures Total(Tally(coords, r)) == |coords|
  {
    CumIsBelowBucket(coords, r, b + 1);
    BelowBucketIsUpTo(coords, r, b);
    CumIsBelowBucket(coords, r, BUCKETS);
    BelowBucketStep(coords, r, b);
  }

  lemma {:induction false} CumIsAtMost(coords: seq<int>, r: Range, k: nat)
    requires k <= BUCKETS
    ensures Cum(Tally(coords, r), k) <= BelowBucket(coords, r, k)
    ensures Cum(Tally(coords, r), k) == BelowBucket(coords, r, k) <==>
            forall b :: 0 <= b < k ==> InBucket(coords, r, b) <= 65535
  {
    if k == 0 {
      BelowBucketStep(coords, r, 0);
    } else {
      CumIsAtMost(coords, r, k - 1);
      BelowBucketStep(coords, r, k - 1);
    }
  }

  /** A report never counts an entity twice, and misses none exactly if no bucket has more than 16 bits can count. */
  lemma ReportCountsAllIff(coords: seq<int>, r: Range)
    ensures Total(Tally(coords, r)) <= |coords|
    ensures Total(Tally(coords, r)) == |coords| <==> forall b :: 0 <= b < BUCKETS ==> InBucket(coords, r, b) <= 65535
  {
    CumIsAtMost(coords, r, BUCKETS);
    BelowBucketStep(coords, r, 0);
  }

  lemma {:induction false} CumMonotone(h: seq<nat>, j: nat, k: nat)
    requires j <= k <= |h|
    ensures Cum(h, j) <= Cum(h, k)
  {
    if j < k {
      CumMonotone(h, j, k - 1);
    }
  }

  // ------------------------------------------------------------------------------------------------
  // The head's side: the population cut
  // ------------------------------------------------------------------------------------------------

  datatype Profile = Profile(x: seq<nat>, y: seq<nat>, z: seq<nat>) {
    function At(a: Axis): seq<nat> {
      match a
      case AxisX => x
      case AxisY => y
      case AxisZ => z
    }
    predicate Valid() { |x| == BUCKETS && |y| == BUCKETS && |z| == BUCKETS }
  }

  /**
   A bucket boundary the head may cut at: a populated axis of more than one chunk, and the cut leaves both halves a
   chunk.
   */
  predicate Boundary(h: seq<nat>, r: Range, b: nat)
    requires |h| == BUCKETS
  {
    b + 1 < BUCKETS && r.Span() >= 2 && Total(h) > 0 && r.lo <= BucketEnd(r, b) < r.hi
  }

  function Abs(n: int): nat { if n < 0 then -n else n }

  /** 0 for an even split, 1 when everybody is on one side. */
  function Imbalance(h: seq<nat>, b: nat): real
    requires b < |h| && Total(h) > 0
  {
    var cum := Cum(h, b + 1);
    Abs(cum - (Total(h) - cum)) as real / Total(h) as real
  }

  /** An imbalance below 1 is a boundary with somebody on either side. */
  lemma ImbalanceSeparates(h: seq<nat>, b: nat)
    requires b < |h| && Total(h) > 0
    ensures 0.0 <= Imbalance(h, b) <= 1.0
    ensures Imbalance(h, b) < 1.0 <==> 0 < Cum(h, b + 1) < Total(h)
  {
    CumMonotone(h, b + 1, |h|);
    var n, d := Abs(2 * Cum(h, b + 1) - Total(h)), Total(h);
    assert Imbalance(h, b) == n as real / d as real;
    assert n <= d && (n < d <==> 0 < Cum(h, b + 1) < d);
    FractionBelowOne(n as real, d as real);
  }

  lemma FractionBelowOne(n: real, d: real)
    requires d > 0.0 && 0.0 <= n <= d
    ensures 0.0 <= n / d <= 1.0 && (n / d < 1.0 <==> n < d)
  {
  }

  /** The position of a boundary in the head's scan: axis by axis, bucket by bucket. */
  datatype Place = Place(axis: Axis, b: nat)

  function Order(a: Axis): nat {
    match a
    case AxisX => 0
    case AxisY => 1
    case AxisZ => 2
  }

  predicate Before(p: Place, q: Place) { Order(p.axis) < Order(q.axis) || (p.axis == q.axis && p.b < q.b) }

  predicate Offered(box: Box, prof: Profile, p: Place)
    requires prof.Valid()
  {
    Boundary(prof.At(p.axis), box.At(p.axis), p.b)
  }

  function Cost(box: Box, prof: Profile, p: Place): real
    requires prof.Valid() && Offered(box, prof, p)
  {
    Imbalance(prof.At(p.axis), p.b)
  }

  /**
   `best` is the outcome of a scan of every boundary before `stop`: it separates the population, no scanned
   boundary is more even, and none scanned earlier is as even; `None` means that no scanned boundary separates it.
   */
  ghost predicate BestBefore(box: Box, prof: Profile, stop: Place, best: Option<Place>)
    requires prof.Valid()
  {
    match best
    case None => forall p: Place :: Before(p, stop) && Offered(box, prof, p) ==> Cost(box, prof, p) >= 1.0
    case Some(w) =>
      && Before(w, stop) && Offered(box, prof, w) && Cost(box, prof, w) < 1.0
      && (forall p: Place :: Before(p, stop) && Offered(box, prof, p) ==>
             Cost(box, prof, w) <= Cost(box, prof, p) && (Before(p, w) ==> Cost(box, prof, w) < Cost(box, prof, p)))
  }

  function BestCost(box: Box, prof: Profile, best: Option<Place>): real
    requires prof.Valid() && (best.Some? ==> Offered(box, prof, best.value))
  {
    match best
    case None => 1.0
    case Some(w) => Cost(box, prof, w)
  }

  /** One axis of the scan. */
  method ScanAxis(box: Box, prof: Profile, a: Axis, start: Option<Place>) returns (best: Option<Place>)
    requires prof.Valid() && BestBefore(box, prof, Place(a, 0), start)
    ensures BestBefore(box, prof, Place(a, BUCKETS - 1), best)
  {
    best := start;
    var h, r := prof.At(a), box.At(a);
    var total: nat := 0;
    for b := 0 to BUCKETS
      invariant total == Cum(h, b)
    {
      total := total + h[b];
    }
    if r.Span() < 2 || total == 0 {
      return;
    }
    var cum: nat := 0;
    for b := 0 to BUCKETS - 1
      invariant cum == Cum(h, b)
      invariant BestBefore(box, prof, Place(a, b), best)
    {
      cum := cum + h[b];
      ghost var here := Place(a, b);
      ghost var was := best;
      if r.lo <= BucketEnd(r, b) < r.hi {
        var imbalance := Abs(cum - (total - cum)) as real / total as real;
        assert Offered(box, prof, here) && imbalance == Cost(box, prof, here);
        var bound := BestCost(box, prof, best);
        if imbalance < bound {
          best := Some(Place(a, b));
        }
      }
      ScanStep(box, prof, here, was, best);
    }
  }

  lemma ScanStep(box: Box, prof: Profile, here: Place, was: Option<Place>, best: Option<Place>)
    requires prof.Valid() && BestBefore(box, prof, here, was)
    requires best ==
             if Offered(box, prof, here) && Cost(box, prof, here) < BestCost(box, prof, was) then Some(here) else was
    ensures BestBefore(box, prof, Place(here.axis, here.b + 1), best)
  {
    var next := Place(here.axis, here.b + 1);
    assert forall p: Place :: Before(p, next) <==> Before(p, here) || p == here;
  }

  /** Past the last boundary of an axis the scan stands at the first of the next. */
  lemma NextAxis(box: Box, prof: Profile, a: Axis, a': Axis, best: Option<Place>)
    requires prof.Valid() && BestBefore(box, prof, Place(a, BUCKETS - 1), best) && Order(a') == Order(a) + 1
    ensures BestBefore(box, prof, Place(a', 0), best)
  {
    assert forall p: Place :: Before(p, Place(a', 0)) && Offered(box, prof, p) ==> Before(p, Place(a, BUCKETS - 1));
    assert forall p: Place :: Before(p, Place(a, BUCKETS - 1)) ==> Before(p, Place(a', 0));
  }

  const SCAN_END: Place := Place(AxisZ, (BUCKETS - 1) as nat)

  /** The most even boundary of all three axes. */
  method PopulationCut(box: Box, prof: Profile) returns (best: Option<Place>)
    requires prof.Valid()
    ensures BestBefore(box, prof, SCAN_END, best)
  {
    best := ScanAxis(box, prof, AxisX, None);
    NextAxis(box, prof, AxisX, AxisY, best);
    best := ScanAxis(box, prof, AxisY, best);
    NextAxis(box, prof, AxisY, AxisZ, best);
    best := ScanAxis(box, prof, AxisZ, best);
  }

  /** The scan covers every boundary there is. */
  lemma ScanIsExhaustive(box: Box, prof: Profile, p: Place)
    requires prof.Valid() && Offered(box, prof, p)
    ensures Before(p, SCAN_END)
  {
  }

  // ------------------------------------------------------------------------------------------------
  // The head's side: cutting around an indivisible crowd
  // ------------------------------------------------------------------------------------------------

  /** The first of the fullest buckets. */
  ghost predicate IsHeaviest(h: seq<nat>, k: nat) {
    && k < |h|
    && (forall j :: 0 <= j < |h| ==> h[j] <= h[k])
    && (forall j :: 0 <= j < k ==> h[j] < h[k])
  }

  /** The cut below the crowd if there is one, else the cut above it, else none. */
  function CrowdPick(r: Range, k: nat): Option<int> {
    var below := if k > 0 then BucketEnd(r, k - 1) else r.lo - 1;
    var above := BucketEnd(r, k);
    if r.lo <= below < r.hi then Some(below)
    else if r.lo <= above < r.hi then Some(above)
    else None
  }

  /**
   Where the crowd is cut around, in terms of the zone's own buckets: right below the crowd's bucket if some chunk of
   the axis lies below it, and right above it otherwise.
   */
  lemma CrowdPickIsBeside(r: Range, k: nat)
    requires r.Span() >= 2 && k < BUCKETS && CrowdPick(r, k).Some?
    ensures var cut := CrowdPick(r, k).value;
            && r.Has(cut) && r.Has(cut + 1)
            && if Bucket(r.lo, r) < k then Bucket(cut, r) < k <= Bucket(cut + 1, r)
               else Bucket(cut, r) <= k < Bucket(cut + 1, r)
  {
    var cut := CrowdPick(r, k).value;
    if k > 0 {
      BucketAdjoint(r, r.lo, k - 1);
    }
    if k > 0 && cut == BucketEnd(r, k - 1) {
      BucketAdjoint(r, cut, k - 1);
      BucketAdjoint(r, cut + 1, k - 1);
    } else if k < BUCKETS - 1 {
      BucketAdjoint(r, cut, k);
      BucketAdjoint(r, cut + 1, k);
    }
  }

  /** The crowd can be cut around exactly when its bucket holds a chunk of the box. */
  lemma CrowdPickExists(r: Range, k: nat)
    requires r.Span() >= 2 && k < BUCKETS
    ensures CrowdPick(r, k).Some? <==> k == 0 || (BUCKETS - k) * r.Span() >= BUCKETS
    ensures CrowdPick(r, k).Some? ==> exists b: nat :: b < BUCKETS - 1 && BucketEnd(r, b) == CrowdPick(r, k).value
    ensures (exists v: int :: r.Has(v) && Bucket(v, r) == k) ==> CrowdPick(r, k).Some?
  {
    var span := r.Span();
    if k == 0 {
      EndInRange(span, 0);
      assert BucketEnd(r, 0) == CrowdPick(r, 0).value;
    } else {
      EndInRange(span, k - 1);
      BelowFits(span, k);
      if k < BUCKETS - 1 {
        EndInRange(span, k);
        BelowFits(span, k + 1);
        MulMono(BUCKETS - k - 1, BUCKETS - k, span);
      } else {
        assert BucketEnd(r, k) == r.hi;
      }
      if CrowdPick(r, k).Some? {
        assert BucketEnd(r, k - 1) == CrowdPick(r, k).value;
      }
      if v: int :| r.Has(v) && Bucket(v, r) == k {
        InBoxBucket(v, r);
      }
    }
  }

  lemma BelowFits(span: int, k: nat)
    requires span >= 2 && 0 < k < BUCKETS
    ensures (k * span - 1) / BUCKETS < span - 1 <==> (BUCKETS - k) * span >= BUCKETS
  {
    assert (BUCKETS - k) * span == BUCKETS * span - k * span;
  }

  lemma InBoxBucket(v: int, r: Range)
    requires r.Span() >= 2 && r.Has(v)
    ensures (BUCKETS - Bucket(v, r)) * r.Span() >= BUCKETS
  {
    var span, n := r.Span(), (v - r.lo) * BUCKETS;
    var q := n / span;
    assert q * span <= n <= (span - 1) * BUCKETS;
    if q >= BUCKETS {
      MulMono(BUCKETS, q, span);
      assert false;
    }
    assert (BUCKETS - q) * span == BUCKETS * span - q * span;
  }

  method Heaviest(h: seq<nat>) returns (k: nat)
    requires |h| == BUCKETS
    ensures IsHeaviest(h, k)
  {
    k := 0;
    for b := 0 to BUCKETS
      invariant k < BUCKETS
      invariant forall j :: 0 <= j < b ==> h[j] <= h[k]
      invariant forall j :: 0 <= j < k ==> h[j] < h[k]
      invariant b == 0 ==> k == 0
    {
      if h[b] > h[k] {
        k := b;
      }
    }
  }

  /** The crowd cut of one axis, if the axis has one. */
  ghost predicate CrowdOn(h: seq<nat>, r: Range, cut: Option<int>)
    requires |h| == BUCKETS
  {
    exists k: nat :: IsHeaviest(h, k) && cut == if r.Span() >= 2 && h[k] > 0 then CrowdPick(r, k) else None
  }

  method CrowdAxis(h: seq<nat>, r: Range) returns (cut: Option<int>)
    requires |h| == BUCKETS
    ensures CrowdOn(h, r, cut)
  {
    var k := Heaviest(h);
    cut := if r.Span() >= 2 && h[k] > 0 then CrowdPick(r, k) else None;
  }

  // ------------------------------------------------------------------------------------------------
  // The whole decision
  // ------------------------------------------------------------------------------------------------

  /** The parent keeps everything up to `top` on `axis`; the child starts at `bottom`. */
  datatype Plan = Plan(axis: Axis, top: int, bottom: int, populated: bool)

  function CutPlan(axis: Axis, cut: int): Plan { Plan(axis, cut, cut + 1, true) }

  /** The longest axis, the first one on a tie. */
  function LongestAxis(box: Box): Axis {
    var a := if box.y.Span() > box.x.Span() then AxisY else AxisX;
    if box.z.Span() > box.At(a).Span() then AxisZ else a
  }

  function GeometricPlan(box: Box): Plan {
    var a := LongestAxis(box);
    Plan(a, GeometricLow(box.At(a)), GeometricHigh(box.At(a)), false)
  }

  /** The first axis around whose crowd a cut can be made. */
  function FirstCrowd(cx: Option<int>, cy: Option<int>, cz: Option<int>): Option<Plan> {
    if cx.Some? then Some(CutPlan(AxisX, cx.value))
    else if cy.Some? then Some(CutPlan(AxisY, cy.value))
    else if cz.Some? then Some(CutPlan(AxisZ, cz.value))
    else None
  }

  /** The population cut if there is one, else the cut around the crowd, else the middle of the box. */
  function Decide(box: Box, best: Option<Place>, crowd: Option<Plan>): Plan {
    match best
    case Some(w) => CutPlan(w.axis, BucketEnd(box.At(w.axis), w.b))
    case None => match crowd case Some(c) => c case None => GeometricPlan(box)
  }

  ghost predicate CrowdsOf(box: Box, prof: Profile, cx: Option<int>, cy: Option<int>, cz: Option<int>)
    requires prof.Valid()
  {
    CrowdOn(prof.x, box.x, cx) && CrowdOn(prof.y, box.y, cy) && CrowdOn(prof.z, box.z, cz)
  }

  ghost predicate IsCrowdPlan(box: Box, prof: Profile, crowd: Option<Plan>)
    requires prof.Valid()
  {
    exists cx, cy, cz :: CrowdsOf(box, prof, cx, cy, cz) && crowd == FirstCrowd(cx, cy, cz)
  }

  ghost predicate PlanFrom(box: Box, prof: Profile, best: Option<Place>, crowd: Option<Plan>, plan: Plan)
    requires prof.Valid()
  {
    BestBefore(box, prof, SCAN_END, best) && IsCrowdPlan(box, prof, crowd) && plan == Decide(box, best, crowd)
  }

  ghost predicate IsPlan(box: Box, prof: Option<Profile>, plan: Plan)
    requires prof.Some? ==> prof.value.Valid()
  {
    match prof
    case None => plan == GeometricPlan(box)
    case Some(p) => exists best, crowd :: PlanFrom(box, p, best, crowd, plan)
  }

  predicate SingleChunk(box: Box) { box.x.Span() <= 1 && box.y.Span() <= 1 && box.z.Span() <= 1 }

  /** One of the two is scanned before the other. */
  predicate Earlier(a: Axis, b: Axis) { (a.AxisX? && !b.AxisX?) || (a.AxisY? && b.AxisZ?) }

  ghost predicate OneChunk(box: Box) { forall c: Chunk, d: Chunk :: box.Has(c) && box.Has(d) ==> c == d }

  /** A box is down to a single chunk exactly if all its chunks are one. */
  lemma SingleChunkIff(box: Box)
    requires box.NonEmpty()
    ensures SingleChunk(box) <==> OneChunk(box)
  {
    var last := Chunk(box.x.hi, box.y.hi, box.z.hi);
    assert box.Has(box.Corner()) && box.Has(last);
  }

  /**
   A plan that is not populated cuts the longest axis, the first one on a tie, in the middle: no two chunks more on one
   side than on the other, and neither side longer than half the axis and a chunk.
   */
  lemma GeometricCutsTheLongest(box: Box, prof: Option<Profile>, plan: Plan)
    requires prof.Some? ==> prof.value.Valid()
    requires box.NonEmpty() && !SingleChunk(box) && IsPlan(box, prof, plan) && !plan.populated
    ensures forall a: Axis :: box.At(a).Span() <= box.At(plan.axis).Span()
    ensures forall a: Axis :: Earlier(a, plan.axis) ==> box.At(a).Span() < box.At(plan.axis).Span()
    ensures var n := box.At(plan.axis).Span();
            var l, h := LowHalf(box, plan.axis, plan.top), HighHalf(box, plan.axis, plan.bottom);
            var kept, given := l.At(plan.axis).Span(), h.At(plan.axis).Span();
            -1 <= kept - given <= 1 && 1 <= kept <= n / 2 + 1 && 1 <= given <= n / 2 + 1
  {
    UnpopulatedIsGeometric(box, prof, plan);
    LongestIsFirst(box);
    GeometricIsEven(box.At(plan.axis));
  }

  lemma LongestIsFirst(box: Box)
    requires box.NonEmpty() && !SingleChunk(box)
    ensures forall a: Axis :: box.At(a).Span() <= box.At(LongestAxis(box)).Span()
    ensures forall a: Axis :: Earlier(a, LongestAxis(box)) ==> box.At(a).Span() < box.At(LongestAxis(box)).Span()
    ensures box.At(LongestAxis(box)).Span() >= 2
  {
    assert box.At(AxisX) == box.x && box.At(AxisY) == box.y && box.At(AxisZ) == box.z;
  }

  lemma GeometricIsEven(r: Range)
    requires r.Span() >= 2
    ensures var kept, given := GeometricLow(r) - r.lo + 1, r.hi - GeometricHigh(r) + 1;
            -1 <= kept - given <= 1 && 1 <= kept <= r.Span() / 2 + 1 && 1 <= given <= r.Span() / 2 + 1
  {
  }

  /** Where to split a zone; nothing to do once it is down to a single chunk, the unit of routing. */
  method PlanSplit(box: Box, prof: Option<Profile>) returns (plan: Option<Plan>)
    requires prof.Some? ==> prof.value.Valid()
    ensures plan.None? <==> SingleChunk(box)
    ensures plan.Some? ==> IsPlan(box, prof, plan.value)
  {
    if box.At(LongestAxis(box)).Span() <= 1 {
      return None;
    }
    if prof.None? {
      return Some(GeometricPlan(box));
    }
    var populated := PlanFromProfile(box, prof.value);
    return Some(populated);
  }

  method PlanFromProfile(box: Box, prof: Profile) returns (plan: Plan)
    requires prof.Valid()
    ensures IsPlan(box, Some(prof), plan)
  {
    var best := PopulationCut(box, prof);
    var crowd := CrowdCut(box, prof);
    plan := Decide(box, best, crowd);
    assert PlanFrom(box, prof, best, crowd, plan);
  }

  method CrowdCut(box: Box, prof: Profile) returns (crowd: Option<Plan>)
    requires prof.Valid()
    ensures IsCrowdPlan(box, prof, crowd)
  {
    var cx := CrowdAxis(prof.x, box.x);
    var cy := CrowdAxis(prof.y, box.y);
    var cz := CrowdAxis(prof.z, box.z);
    crowd := FirstCrowd(cx, cy, cz);
    assert CrowdsOf(box, prof, cx, cy, cz);
  }

  /** What the zone reports for the entities standing in `chunks`. */
  function Report(chunks: seq<Chunk>, box: Box): (p: Profile)
    ensures p.Valid()
  {
    Profile(Tally(Coords(chunks, AxisX), box.x), Tally(Coords(chunks, AxisY), box.y),
            Tally(Coords(chunks, AxisZ), box.z))
  }

  predicate Faithful(chunks: seq<Chunk>, box: Box) {
    forall a: Axis :: Unsaturated(Coords(chunks, a), box.At(a))
  }

  /** How many entities a cut at `p` leaves on the low side. */
  function LowSide(chunks: seq<Chunk>, box: Box, p: Place): nat {
    UpTo(Coords(chunks, p.axis), BucketEnd(box.At(p.axis), p.b))
  }

  /** How far from an even division that is. */
  function Skew(chunks: seq<Chunk>, box: Box, p: Place): nat { Abs(2 * LowSide(chunks, box, p) - |chunks|) }

  predicate Separates(chunks: seq<Chunk>, box: Box, p: Place) { 0 < LowSide(chunks, box, p) < |chunks| }

  lemma ReportCounts(chunks: seq<Chunk>, box: Box, p: Place)
    requires Faithful(chunks, box) && Offered(box, Report(chunks, box), p)
    ensures var h := Report(chunks, box).At(p.axis);
            && Cum(h, p.b + 1) == LowSide(chunks, box, p) && Total(h) == |chunks|
    ensures Cost(box, Report(chunks, box), p) < 1.0 <==> Separates(chunks, box, p)
    ensures Cost(box, Report(chunks, box), p) == Skew(chunks, box, p) as real / |chunks| as real
  {
    CumIsLowSide(Coords(chunks, p.axis), box.At(p.axis), p.b);
    ImbalanceSeparates(Report(chunks, box).At(p.axis), p.b);
  }

  lemma DivMono(m: nat, n: nat, d: nat)
    requires d > 0 && m as real / d as real <= n as real / d as real
    ensures m <= n
  {
  }

  /**
   The population cut is optimal: when some boundary of some axis has entities on both sides, the plan is a
   boundary with entities on both sides, no boundary of any axis divides them more evenly, and none on an earlier axis
   or lower on the same one does so as evenly.
   */
  lemma PopulationCutIsOptimal(chunks: seq<Chunk>, box: Box, plan: Plan, s: Place) returns (w: Place)
    requires Faithful(chunks, box)
    requires Offered(box, Report(chunks, box), s) && Separates(chunks, box, s)
    requires IsPlan(box, Some(Report(chunks, box)), plan)
    ensures plan == CutPlan(w.axis, BucketEnd(box.At(w.axis), w.b))
    ensures box.At(plan.axis).lo <= plan.top < box.At(plan.axis).hi
    ensures Separates(chunks, box, w)
    ensures forall p: Place :: Offered(box, Report(chunks, box), p) ==> Skew(chunks, box, w) <= Skew(chunks, box, p)
    ensures forall p: Place :: Offered(box, Report(chunks, box), p) && Sooner(p, w) ==>
              Skew(chunks, box, w) < Skew(chunks, box, p)
  {
    var best, crowd :| PlanFrom(box, Report(chunks, box), best, crowd, plan);
    SeparatedIsFound(chunks, box, best, s);
    w := best.value;
    BestPlace(chunks, box, w);
  }

  predicate Sooner(p: Place, q: Place) { Earlier(p.axis, q.axis) || (p.axis == q.axis && p.b < q.b) }

  lemma BestPlace(chunks: seq<Chunk>, box: Box, w: Place)
    requires Faithful(chunks, box) && BestBefore(box, Report(chunks, box), SCAN_END, Some(w))
    ensures box.At(w.axis).lo <= BucketEnd(box.At(w.axis), w.b) < box.At(w.axis).hi
    ensures Separates(chunks, box, w)
    ensures forall p: Place :: Offered(box, Report(chunks, box), p) ==> Skew(chunks, box, w) <= Skew(chunks, box, p)
    ensures forall p: Place :: Offered(box, Report(chunks, box), p) && Sooner(p, w) ==>
              Skew(chunks, box, w) < Skew(chunks, box, p)
  {
    ReportCounts(chunks, box, w);
    forall p: Place | Offered(box, Report(chunks, box), p)
      ensures Skew(chunks, box, w) <= Skew(chunks, box, p)
      ensures Sooner(p, w) ==> Skew(chunks, box, w) < Skew(chunks, box, p)
    {
      NoneMoreEven(chunks, box, w, p);
    }
  }

  lemma SeparatedIsFound(chunks: seq<Chunk>, box: Box, best: Option<Place>, s: Place)
    requires Faithful(chunks, box)
    requires Offered(box, Report(chunks, box), s) && Separates(chunks, box, s)
    requires BestBefore(box, Report(chunks, box), SCAN_END, best)
    ensures best.Some?
  {
    ReportCounts(chunks, box, s);
    ScanIsExhaustive(box, Report(chunks, box), s);
  }

  lemma NoneMoreEven(chunks: seq<Chunk>, box: Box, w: Place, p: Place)
    requires Faithful(chunks, box) && |chunks| > 0
    requires BestBefore(box, Report(chunks, box), SCAN_END, Some(w)) && Offered(box, Report(chunks, box), p)
    ensures Skew(chunks, box, w) <= Skew(chunks, box, p)
    ensures Sooner(p, w) ==> Skew(chunks, box, w) < Skew(chunks, box, p)
  {
    ReportCounts(chunks, box, w);
    ReportCounts(chunks, box, p);
    ScanIsExhaustive(box, Report(chunks, box), p);
    DivMono(Skew(chunks, box, w), Skew(chunks, box, p), |chunks|);
  }

  // ------------------------------------------------------------------------------------------------
  // The crowd cut
  // ------------------------------------------------------------------------------------------------

  /** No boundary the head may use has entities on both sides. */
  ghost predicate Indivisible(chunks: seq<Chunk>, box: Box) {
    forall p: Place :: Offered(box, Report(chunks, box), p) ==> !Separates(chunks, box, p)
  }

  lemma {:induction false} NobodyUpTo(coords: seq<int>, bound: int, i: nat)
    requires i < |coords|
    ensures UpTo(coords, bound) == 0 ==> coords[i] > bound
    ensures UpTo(coords, bound) == |coords| ==> coords[i] <= bound
    ensures UpTo(coords, bound) <= |coords|
  {
    var init := coords[..|coords| - 1];
    if init != [] {
      NobodyUpTo(init, bound, if i < |init| then i else 0);
    }
  }

  lemma IndivisibleHasNoBest(chunks: seq<Chunk>, box: Box, best: Option<Place>)
    requires Faithful(chunks, box) && Indivisible(chunks, box)
    requires BestBefore(box, Report(chunks, box), SCAN_END, best)
    ensures best.None?
  {
    if best.Some? {
      ReportCounts(chunks, box, best.value);
    }
  }

  /** A crowd cut is made at a boundary of a populated axis. */
  lemma CrowdCutIsBoundary(box: Box, prof: Profile, crowd: Option<Plan>) returns (p: Place)
    requires prof.Valid() && IsCrowdPlan(box, prof, crowd) && crowd.Some?
    ensures Offered(box, prof, p) && crowd.value == CutPlan(p.axis, BucketEnd(box.At(p.axis), p.b))
  {
    var cx, cy, cz :| CrowdsOf(box, prof, cx, cy, cz) && crowd == FirstCrowd(cx, cy, cz);
    var a := crowd.value.axis;
    var b := CrowdOnBoundary(prof.At(a), box.At(a), Some(crowd.value.top));
    p := Place(a, b);
  }

  lemma CrowdOnBoundary(h: seq<nat>, r: Range, cut: Option<int>) returns (b: nat)
    requires |h| == BUCKETS && CrowdOn(h, r, cut) && cut.Some?
    ensures Boundary(h, r, b) && cut.value == BucketEnd(r, b)
  {
    var k: nat :| IsHeaviest(h, k) && cut == if r.Span() >= 2 && h[k] > 0 then CrowdPick(r, k) else None;
    CrowdPickExists(r, k);
    b :| b < BUCKETS - 1 && BucketEnd(r, b) == CrowdPick(r, k).value;
    CumMonotone(h, k + 1, |h|);
  }

  /** Whatever the profile says, a populated plan is a proper cut: it leaves both halves a chunk. */
  lemma PopulatedPlanIsProper(box: Box, prof: Option<Profile>, plan: Plan)
    requires prof.Some? ==> prof.value.Valid()
    requires IsPlan(box, prof, plan) && plan.populated
    ensures plan.bottom == plan.top + 1
    ensures box.At(plan.axis).lo <= plan.top < box.At(plan.axis).hi
  {
    if prof.Some? {
      var best, crowd :| PlanFrom(box, prof.value, best, crowd, plan);
      if best.None? {
        var p := CrowdCutIsBoundary(box, prof.value, crowd);
      }
    }
  }

  /** Whatever the profile says, the ends of both parts of a plan are chunks of the box. */
  lemma PlanIsInside(box: Box, prof: Option<Profile>, plan: Plan)
    requires prof.Some? ==> prof.value.Valid()
    requires box.NonEmpty() && !SingleChunk(box) && IsPlan(box, prof, plan)
    ensures box.At(plan.axis).Has(plan.top) && box.At(plan.axis).Has(plan.bottom)
  {
    if plan.populated {
      PopulatedPlanIsProper(box, prof, plan);
    } else {
      UnpopulatedIsGeometric(box, prof, plan);
      GeometricCut(box, LongestAxis(box));
    }
  }

  lemma UnpopulatedIsGeometric(box: Box, prof: Option<Profile>, plan: Plan)
    requires prof.Some? ==> prof.value.Valid()
    requires IsPlan(box, prof, plan) && !plan.populated
    ensures plan == GeometricPlan(box)
  {
    if prof.Some? {
      var best, crowd :| PlanFrom(box, prof.value, best, crowd, plan);
    }
  }

  /**
   When no boundary divides the population, a populated plan leaves every entity of the box together, inside
   one of the two halves; both halves are strictly smaller than the box (`CutShrinks`).
   */
  lemma CrowdCutKeepsTogether(chunks: seq<Chunk>, box: Box, plan: Plan)
    requires Faithful(chunks, box) && Indivisible(chunks, box)
    requires IsPlan(box, Some(Report(chunks, box)), plan) && plan.populated
    ensures box.At(plan.axis).lo <= plan.top < box.At(plan.axis).hi && plan.bottom == plan.top + 1
    ensures var low, high := LowHalf(box, plan.axis, plan.top), HighHalf(box, plan.axis, plan.bottom);
            || (forall i :: 0 <= i < |chunks| && box.Has(chunks[i]) ==> low.Has(chunks[i]))
            || (forall i :: 0 <= i < |chunks| && box.Has(chunks[i]) ==> high.Has(chunks[i]))
  {
    var prof := Report(chunks, box);
    var best, crowd :| PlanFrom(box, prof, best, crowd, plan);
    IndivisibleHasNoBest(chunks, box, best);
    var p := CrowdCutIsBoundary(box, prof, crowd);
    ReportCounts(chunks, box, p);
    OneSide(chunks, box, p);
  }

  lemma OneSide(chunks: seq<Chunk>, box: Box, p: Place)
    requires !Separates(chunks, box, p)
    ensures var cut := BucketEnd(box.At(p.axis), p.b);
            || (forall i :: 0 <= i < |chunks| && box.Has(chunks[i]) ==> LowHalf(box, p.axis, cut).Has(chunks[i]))
            || (forall i :: 0 <= i < |chunks| && box.Has(chunks[i]) ==> HighHalf(box, p.axis, cut + 1).Has(chunks[i]))
  {
    var coords, cut := Coords(chunks, p.axis), BucketEnd(box.At(p.axis), p.b);
    forall i | 0 <= i < |chunks|
      ensures UpTo(coords, cut) == 0 ==> chunks[i].At(p.axis) > cut
      ensures UpTo(coords, cut) == |chunks| ==> chunks[i].At(p.axis) <= cut
      ensures UpTo(coords, cut) <= |chunks|
    {
      NobodyUpTo(coords, cut, i);
    }
  }

  /** The axes on which a crowd cut can be made. */
  ghost predicate CrowdAxisUsable(h: seq<nat>, r: Range, k: nat) {
    IsHeaviest(h, k) && r.Span() >= 2 && h[k] > 0 && (k == 0 || (BUCKETS - k) * r.Span() >= BUCKETS)
  }

  lemma HeaviestIsUnique(h: seq<nat>, j: nat, k: nat)
    requires IsHeaviest(h, j) && IsHeaviest(h, k)
    ensures j == k
  {
    assert h[j] <= h[k] && h[k] <= h[j];
  }

  lemma CrowdOnIff(h: seq<nat>, r: Range, cut: Option<int>)
    requires |h| == BUCKETS && CrowdOn(h, r, cut)
    ensures cut.Some? <==> exists k: nat :: CrowdAxisUsable(h, r, k)
  {
    var k: nat :| IsHeaviest(h, k) && cut == if r.Span() >= 2 && h[k] > 0 then CrowdPick(r, k) else None;
    if r.Span() >= 2 && h[k] > 0 {
      CrowdPickExists(r, k);
      if cut.Some? {
        assert CrowdAxisUsable(h, r, k);
      }
    }
    if j: nat :| CrowdAxisUsable(h, r, j) {
      HeaviestIsUnique(h, j, k);
    }
  }

  /**
   Exactly when an indivisible population is cut around instead of through the middle of the box: some axis
   of more than one chunk is populated, and its fullest bucket is one that a chunk of the box falls into.
   */
  lemma CrowdCutExistsIff(chunks: seq<Chunk>, box: Box, plan: Plan)
    requires Faithful(chunks, box) && Indivisible(chunks, box)
    requires IsPlan(box, Some(Report(chunks, box)), plan)
    ensures plan.populated <==> exists a: Axis, k: nat :: CrowdAxisUsable(Report(chunks, box).At(a), box.At(a), k)
  {
    var prof := Report(chunks, box);
    var best, crowd :| PlanFrom(box, prof, best, crowd, plan);
    IndivisibleHasNoBest(chunks, box, best);
    var cx, cy, cz :| CrowdsOf(box, prof, cx, cy, cz) && crowd == FirstCrowd(cx, cy, cz);
    CrowdOnIff(prof.x, box.x, cx);
    CrowdOnIff(prof.y, box.y, cy);
    CrowdOnIff(prof.z, box.z, cz);
    assert prof.At(AxisX) == prof.x && prof.At(AxisY) == prof.y && prof.At(AxisZ) == prof.z;
    assert box.At(AxisX) == box.x && box.At(AxisY) == box.y && box.At(AxisZ) == box.z;
  }

  /**
   The crowd cut is made on the first axis that has one, beside the first of its fullest buckets: below it if there is
   anything below.
   */
  lemma CrowdCutIsFirst(box: Box, prof: Profile, plan: Plan) returns (k: nat)
    requires prof.Valid() && IsCrowdPlan(box, prof, Some(plan))
    ensures forall a: Axis, j: nat :: Earlier(a, plan.axis) ==> !CrowdAxisUsable(prof.At(a), box.At(a), j)
    ensures var h, r := prof.At(plan.axis), box.At(plan.axis);
            && k < BUCKETS && h[k] > 0
            && (forall j :: 0 <= j < BUCKETS ==> h[j] <= h[k] && (j < k ==> h[j] < h[k]))
            && (if Bucket(r.lo, r) < k then Bucket(plan.top, r) < k <= Bucket(plan.bottom, r)
                else Bucket(plan.top, r) <= k < Bucket(plan.bottom, r))
  {
    CrowdOnFirst(box, prof, plan);
    k := CrowdIsBeside(prof.At(plan.axis), box.At(plan.axis), plan.top);
  }

  lemma CrowdOnFirst(box: Box, prof: Profile, plan: Plan)
    requires prof.Valid() && IsCrowdPlan(box, prof, Some(plan))
    ensures CrowdOn(prof.At(plan.axis), box.At(plan.axis), Some(plan.top)) && plan.bottom == plan.top + 1
    ensures forall a: Axis, j: nat :: Earlier(a, plan.axis) ==> !CrowdAxisUsable(prof.At(a), box.At(a), j)
  {
    var cx, cy, cz :| CrowdsOf(box, prof, cx, cy, cz) && Some(plan) == FirstCrowd(cx, cy, cz);
    CrowdOnIff(prof.x, box.x, cx);
    CrowdOnIff(prof.y, box.y, cy);
    assert prof.At(AxisX) == prof.x && prof.At(AxisY) == prof.y && prof.At(AxisZ) == prof.z;
    assert box.At(AxisX) == box.x && box.At(AxisY) == box.y && box.At(AxisZ) == box.z;
  }

  lemma CrowdIsBeside(h: seq<nat>, r: Range, cut: int) returns (k: nat)
    requires |h| == BUCKETS && CrowdOn(h, r, Some(cut))
    ensures IsHeaviest(h, k) && h[k] > 0 && r.Has(cut) && r.Has(cut + 1)
    ensures if Bucket(r.lo, r) < k then Bucket(cut, r) < k <= Bucket(cut + 1, r)
            else Bucket(cut, r) <= k < Bucket(cut + 1, r)
  {
    k :| IsHeaviest(h, k) && Some(cut) == if r.Span() >= 2 && h[k] > 0 then CrowdPick(r, k) else None;
    CrowdPickIsBeside(r, k);
  }

  lemma {:induction false} BucketHasMember(coords: seq<int>, r: Range, b: int) returns (i: nat)
    requires InBucket(coords, r, b) > 0
    ensures i < |coords| && Bucket(coords[i], r) == b
  {
    if Bucket(coords[|coords| - 1], r) == b {
      i := |coords| - 1;
    } else {
      i := BucketHasMember(coords[..|coords| - 1], r, b);
    }
  }

  lemma {:induction false} MemberFillsBucket(coords: seq<int>, r: Range, i: nat)
    requires i < |coords|
    ensures InBucket(coords, r, Bucket(coords[i], r)) > 0
  {
    if i < |coords| - 1 {
      MemberFillsBucket(coords[..|coords| - 1], r, i);
    }
  }

  /** In particular it always is when the entities are where they belong, inside a box of more than one chunk. */
  lemma CrowdInsideIsCutAround(chunks: seq<Chunk>, box: Box, plan: Plan, a: Axis)
    requires Faithful(chunks, box) && Indivisible(chunks, box)
    requires IsPlan(box, Some(Report(chunks, box)), plan)
    requires chunks != [] && (forall i :: 0 <= i < |chunks| ==> box.Has(chunks[i])) && box.At(a).Span() >= 2
    ensures plan.populated
  {
    var k := InsideIsUsable(Coords(chunks, a), box.At(a));
    assert Report(chunks, box).At(a) == Tally(Coords(chunks, a), box.At(a));
    CrowdCutExistsIff(chunks, box, plan);
  }

  lemma InsideIsUsable(coords: seq<int>, r: Range) returns (k: nat)
    requires coords != [] && (forall i :: 0 <= i < |coords| ==> r.Has(coords[i])) && r.Span() >= 2
    ensures CrowdAxisUsable(Tally(coords, r), r, k)
  {
    var h := Tally(coords, r);
    k := FirstHeaviest(h, BUCKETS);
    MemberFillsBucket(coords, r, 0);
    assert h[k] > 0 by { assert h[Bucket(coords[0], r)] > 0; }
    var i := BucketHasMember(coords, r, k);
    InBoxBucket(coords[i], r);
  }

  lemma {:induction false} FirstHeaviest(h: seq<nat>, n: nat) returns (k: nat)
    requires 0 < n <= |h|
    ensures IsHeaviest(h[..n], k)
    ensures n == |h| ==> IsHeaviest(h, k)
  {
    k := 0;
    if n > 1 {
      k := FirstHeaviest(h, n - 1);
      assert h[..n - 1][k] == h[k];
      if h[n - 1] > h[k] {
        k := n - 1;
      }
    }
    assert n == |h| ==> h[..n] == h;
  }

  lemma InBucketOf3(u: int, v: int, w: int, r: Range, b: int)
    ensures InBucket([u, v, w], r, b) ==
            (if Bucket(u, r) == b then 1 else 0) + (if Bucket(v, r) == b then 1 else 0)
            + (if Bucket(w, r) == b then 1 else 0)
  {
    assert [u, v, w][..2] == [u, v] && [u, v][..1] == [u] && [u][..0] == [];
    assert InBucket([u], r, b) == if Bucket(u, r) == b then 1 else 0;
    assert InBucket([u, v], r, b) == InBucket([u], r, b) + if Bucket(v, r) == b then 1 else 0;
  }

  /**
   And it need not be when entities still wait outside the box to be handed over: here one entity stands in
   the last chunk of a two-chunk box and two others beyond it, no boundary divides them, and the plan is the
   geometric one.
   */
  lemma OutsideCrowdIsMissed(plan: Plan)
    requires var box := Box(Range(0, 1), Range(0, 0), Range(0, 0));
             IsPlan(box, Some(Report([Chunk(1, 0, 0), Chunk(5, 0, 0), Chunk(5, 0, 0)], box)), plan)
    ensures !plan.populated
  {
    var box := Box(Range(0, 1), Range(0, 0), Range(0, 0));
    var chunks := [Chunk(1, 0, 0), Chunk(5, 0, 0), Chunk(5, 0, 0)];
    assert Coords(chunks, AxisX) == [1, 5, 5];
    assert Coords(chunks, AxisY) == [0, 0, 0] && Coords(chunks, AxisZ) == [0, 0, 0];
    OutsideIsFaithful(box, chunks);
    OutsideIsIndivisible(box, chunks);
    forall a: Axis, k: nat ensures !CrowdAxisUsable(Report(chunks, box).At(a), box.At(a), k) {
      match a {
        case AxisX => OutsideIsUnusable(k);
        case AxisY =>
        case AxisZ =>
      }
    }
    CrowdCutExistsIff(chunks, box, plan);
  }

  lemma OutsideIsFaithful(box: Box, chunks: seq<Chunk>)
    requires Coords(chunks, AxisX) == [1, 5, 5] && Coords(chunks, AxisY) == [0, 0, 0] &&
             Coords(chunks, AxisZ) == [0, 0, 0]
    ensures Faithful(chunks, box)
  {
    forall a: Axis ensures Unsaturated(Coords(chunks, a), box.At(a)) {
      match a {
        case AxisX => ThreeAreFew(1, 5, 5, box.x);
        case AxisY => ThreeAreFew(0, 0, 0, box.y);
        case AxisZ => ThreeAreFew(0, 0, 0, box.z);
      }
    }
  }

  lemma ThreeAreFew(u: int, v: int, w: int, r: Range)
    ensures Unsaturated([u, v, w], r)
  {
    forall b | 0 <= b < BUCKETS ensures InBucket([u, v, w], r, b) < SATURATED {
      InBucketOf3(u, v, w, r, b);
    }
  }

  lemma OutsideIsUnusable(k: nat)
    ensures !CrowdAxisUsable(Tally([1, 5, 5], Range(0, 1)), Range(0, 1), k)
  {
    var r := Range(0, 1);
    if k < BUCKETS {
      InBucketOf3(1, 5, 5, r, k);
      InBucketOf3(1, 5, 5, r, 31);
      assert Bucket(1, r) == 16 && Bucket(5, r) == 31;
      assert Tally([1, 5, 5], r)[31] == 2;
    }
  }

  lemma OutsideIsIndivisible(box: Box, chunks: seq<Chunk>)
    requires box == Box(Range(0, 1), Range(0, 0), Range(0, 0)) && Coords(chunks, AxisX) == [1, 5, 5]
    ensures Indivisible(chunks, box)
  {
    forall p: Place | Offered(box, Report(chunks, box), p) ensures !Separates(chunks, box, p) {
      assert p.axis == AxisX && BucketEnd(box.x, p.b) == 0;
      assert [1, 5, 5][..2] == [1, 5] && [1, 5][..1] == [1] && [1][..0] == [];
      assert UpTo([1, 5, 5], 0) == 0;
    }
  }
}
