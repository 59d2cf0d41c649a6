/**
 The S1 pre-check: a bucket of metres that fills at the top speed with real time, up to a cap, and from which
 every accepted step takes its length. Lengths and times are exact reals. This is about one player for as long as the
 zone keeps its baseline; `MovementRuns` is about the zone, which also drops baselines.
 */
module MovementBudget {

  datatype Point = Point(x: real, y: real, z: real)

  /** Top speed in metres a second, seconds of saved-up margin, the length of a step, and the lease in milliseconds. */
  datatype Rules = Rules(speed: real, burst: real, metric: (Point, Point) -> real, lease: nat)

  ghost predicate Sane(r: Rules) {
    r.speed >= 0.0 && 0.0 < r.burst < 5.0 && forall p, q :: r.metric(p, q) >= 0.0
  }

  /** The baseline a step is judged against. */
  datatype Last = Last(at: Point, tsMs: nat, budget: real)

  function Cap(r: Rules): real { r.speed * r.burst + 1.0 }

  /** Metres earned in so many milliseconds. */
  function Gain(r: Rules, ms: int): real { r.speed * (ms as real / 1000.0) }

  /** Differences of clock readings are unsigned 64-bit. */
  function Elapsed(now: nat, ts: nat): nat { (now - ts) % 0x1_0000_0000_0000_0000 }

  function Refilled(r: Rules, l: Last, now: nat): real {
    var more := l.budget + Gain(r, Elapsed(now, l.tsMs));
    if more > Cap(r) then Cap(r) else more
  }

  /** A rejected step keeps what was refilled but not the time it was refilled for. */
  function Judge(r: Rules, l: Last, at: Point, now: nat): (bool, Last) {
    var budget := Refilled(r, l, now);
    var dist := r.metric(l.at, at);
    if dist > budget then (false, l.(budget := budget)) else (true, Last(at, now, budget - dist))
  }

  ghost predicate Within(r: Rules, l: Last) { 0.0 <= l.budget <= Cap(r) }

  /** A stamp ahead of the clock is a very long time ago: such a step is judged against a full budget. */
  lemma AheadIsLongAgo(r: Rules, l: Last, now: nat)
    requires Sane(r) && Within(r, l) && now < l.tsMs < 0x1_0000_0000_0000_0000
    requires Gain(r, 0x1_0000_0000_0000_0000 - (l.tsMs - now)) >= Cap(r)
    ensures Refilled(r, l, now) == Cap(r)
  {
    assert (now - l.tsMs) % 0x1_0000_0000_0000_0000 == now - l.tsMs + 0x1_0000_0000_0000_0000;
  }

  lemma GainIsPositive(r: Rules, ms: nat)
    requires r.speed >= 0.0
    ensures Gain(r, ms) >= 0.0
  {
  }

  lemma CapIsPositive(r: Rules)
    requires Sane(r)
    ensures Cap(r) >= 1.0
  {
  }

  lemma JudgeKeepsWithin(r: Rules, l: Last, at: Point, now: nat)
    requires Sane(r) && Within(r, l)
    ensures Within(r, Judge(r, l, at, now).1)
    ensures Judge(r, l, at, now).0 ==> r.metric(l.at, at) <= Cap(r)
  {
    GainIsPositive(r, Elapsed(now, l.tsMs));
    CapIsPositive(r);
  }

  // ------------------------------------------------------------------------------------------------
  // One player's packets
  // ------------------------------------------------------------------------------------------------

  datatype Stamp = Stamp(at: Point, ms: nat)

  /** The baseline after the first `k` packets that follow it. */
  function Run(r: Rules, l: Last, ps: seq<Stamp>, k: nat): Last
    requires k <= |ps|
  {
    if k == 0 then l else Judge(r, Run(r, l, ps, k - 1), ps[k - 1].at, ps[k - 1].ms).1
  }

  /** The k-th packet, counted from zero, is accepted. */
  predicate Accepts(r: Rules, l: Last, ps: seq<Stamp>, k: nat)
    requires k < |ps|
  {
    Judge(r, Run(r, l, ps, k), ps[k].at, ps[k].ms).0
  }

  predicate AllAccepted(r: Rules, l: Last, ps: seq<Stamp>, k: nat)
    requires k <= |ps|
  {
    forall i :: 0 <= i < k ==> Accepts(r, l, ps, i)
  }

  lemma {:induction false} RunOfPrefix(r: Rules, l: Last, ps: seq<Stamp>, more: seq<Stamp>, k: nat)
    requires k <= |ps|
    ensures Run(r, l, ps + more, k) == Run(r, l, ps, k)
  {
    if k > 0 {
      RunOfPrefix(r, l, ps, more, k - 1);
    }
  }

  // ------------------------------------------------------------------------------------------------
  // What is accepted, exactly
  // ------------------------------------------------------------------------------------------------

  /** When the k-th packet arrived; the zeroth is the baseline. */
  function Arrival(l: Last, ps: seq<Stamp>, k: nat): nat
    requires k <= |ps|
  {
    if k == 0 then l.tsMs else ps[k - 1].ms
  }

  function Place(l: Last, ps: seq<Stamp>, k: nat): Point
    requires k <= |ps|
  {
    if k == 0 then l.at else ps[k - 1].at
  }

  /** The length of the way through the baseline and the first `k` packets. */
  function Travelled(r: Rules, l: Last, ps: seq<Stamp>, k: nat): real
    requires k <= |ps|
  {
    if k == 0 then 0.0 else Travelled(r, l, ps, k - 1) + r.metric(Place(l, ps, k - 1), Place(l, ps, k))
  }

  predicate InOrder(l: Last, ps: seq<Stamp>) {
    && (forall i, j :: 0 <= i <= j <= |ps| ==> Arrival(l, ps, i) <= Arrival(l, ps, j))
    && Arrival(l, ps, |ps|) < 0x1_0000_0000_0000_0000
  }

  /**
   What is left of the allowance of a window after packet `j`. The window from the baseline is allowed the
   starting budget and the metres earned since; the window from packet `i` is allowed the cap and the metres
   earned since that packet arrived.
   */
  function Room(r: Rules, l: Last, ps: seq<Stamp>, i: nat, j: nat): real
    requires i <= j <= |ps|
  {
    if i == 0 then l.budget + Gain(r, Arrival(l, ps, j) - Arrival(l, ps, 0)) - Travelled(r, l, ps, j)
    else Cap(r) + Gain(r, Arrival(l, ps, j) - Arrival(l, ps, i)) - (Travelled(r, l, ps, j) - Travelled(r, l, ps, i - 1))
  }

  lemma GainAdds(r: Rules, a: int, b: int)
    ensures Gain(r, a + b) == Gain(r, a) + Gain(r, b)
  {
    assert (a + b) as real / 1000.0 == a as real / 1000.0 + b as real / 1000.0;
    assert r.speed * (a as real / 1000.0 + b as real / 1000.0) ==
           r.speed * (a as real / 1000.0) + r.speed * (b as real / 1000.0);
  }

  lemma ArrivalsBounded(l: Last, ps: seq<Stamp>, i: nat, j: nat)
    requires InOrder(l, ps) && i <= j <= |ps|
    ensures Arrival(l, ps, i) <= Arrival(l, ps, j) < 0x1_0000_0000_0000_0000
  {
    assert Arrival(l, ps, j) <= Arrival(l, ps, |ps|);
  }

  /** Every window moves with the next packet by the same amount. */
  lemma RoomMoves(r: Rules, l: Last, ps: seq<Stamp>, i: nat, j: nat)
    requires i <= j < |ps|
    ensures Room(r, l, ps, i, j + 1) == Room(r, l, ps, i, j) + Gain(r, Arrival(l, ps, j + 1) - Arrival(l, ps, j))
                                        - r.metric(Place(l, ps, j), Place(l, ps, j + 1))
  {
    GainAdds(r, Arrival(l, ps, j) - Arrival(l, ps, i), Arrival(l, ps, j + 1) - Arrival(l, ps, j));
  }

  /** The window that starts with a packet begins with the cap less that packet's own step. */
  lemma RoomStarts(r: Rules, l: Last, ps: seq<Stamp>, j: nat)
    requires 0 < j <= |ps|
    ensures Room(r, l, ps, j, j) == Cap(r) - r.metric(Place(l, ps, j - 1), Place(l, ps, j))
  {
    assert Gain(r, 0) == 0.0;
  }

  /** The step of the budget, as long as every packet so far was accepted. */
  lemma BudgetMoves(r: Rules, l: Last, ps: seq<Stamp>, j: nat)
    requires InOrder(l, ps) && j < |ps|
    requires Run(r, l, ps, j).at == Place(l, ps, j) && Run(r, l, ps, j).tsMs == Arrival(l, ps, j)
    ensures var d := r.metric(Place(l, ps, j), Place(l, ps, j + 1));
            var more := Run(r, l, ps, j).budget + Gain(r, Arrival(l, ps, j + 1) - Arrival(l, ps, j));
            var full := if more > Cap(r) then Cap(r) else more;
            && Accepts(r, l, ps, j) == (d <= full)
            && (Accepts(r, l, ps, j) ==>
                  Run(r, l, ps, j + 1) == Last(Place(l, ps, j + 1), Arrival(l, ps, j + 1), full - d))
  {
    ArrivalsBounded(l, ps, j, j + 1);
  }

  /** While everything is accepted the budget is the room of the tightest window, and `w` is that window. */
  lemma {:induction false} BudgetIsTightestRoom(r: Rules, l: Last, ps: seq<Stamp>, j: nat) returns (w: nat)
    requires InOrder(l, ps) && j <= |ps| && AllAccepted(r, l, ps, j) && l.budget <= Cap(r)
    ensures w <= j && Run(r, l, ps, j) == Last(Place(l, ps, j), Arrival(l, ps, j), Room(r, l, ps, w, j))
    ensures forall i :: 0 <= i <= j ==> Room(r, l, ps, w, j) <= Room(r, l, ps, i, j)
  {
    if j == 0 {
      assert Gain(r, 0) == 0.0;
      w := 0;
    } else {
      var v := BudgetIsTightestRoom(r, l, ps, j - 1);
      assert Accepts(r, l, ps, j - 1);
      BudgetMoves(r, l, ps, j - 1);
      RoomMoves(r, l, ps, v, j - 1);
      RoomStarts(r, l, ps, j);
      w := if Room(r, l, ps, v, j) <= Room(r, l, ps, j, j) then v else j;
      forall i | 0 <= i <= j ensures Room(r, l, ps, w, j) <= Room(r, l, ps, i, j) {
        if i < j {
          RoomMoves(r, l, ps, i, j - 1);
        }
      }
    }
  }

  ghost predicate Conforms(r: Rules, l: Last, ps: seq<Stamp>, n: nat)
    requires n <= |ps|
  {
    forall i, j :: 0 <= i <= j <= n ==> Room(r, l, ps, i, j) >= 0.0
  }

  lemma {:induction false} ConformingIsAccepted(r: Rules, l: Last, ps: seq<Stamp>, n: nat)
    requires InOrder(l, ps) && n <= |ps| && l.budget <= Cap(r) && Conforms(r, l, ps, n)
    ensures AllAccepted(r, l, ps, n)
  {
    if n > 0 {
      ConformingIsAccepted(r, l, ps, n - 1);
      var w := BudgetIsTightestRoom(r, l, ps, n - 1);
      BudgetMoves(r, l, ps, n - 1);
      RoomMoves(r, l, ps, w, n - 1);
      RoomStarts(r, l, ps, n);
      assert Room(r, l, ps, w, n) >= 0.0 && Room(r, l, ps, n, n) >= 0.0;
    }
  }

  lemma AcceptedStepLeavesRoom(r: Rules, l: Last, ps: seq<Stamp>, j: nat)
    requires Within(r, l) && InOrder(l, ps) && j <= |ps| && AllAccepted(r, l, ps, j)
    ensures Run(r, l, ps, j).budget >= 0.0
  {
    if j > 0 {
      assert Accepts(r, l, ps, j - 1);
    }
  }

  /**
   Exactly what the filter lets through: all packets of a player are accepted if and only if every window keeps
   to its allowance, the window from the baseline to the starting budget plus the metres earned, every later
   window to the cap plus the metres earned.
   */
  lemma AcceptedIffConforming(r: Rules, l: Last, ps: seq<Stamp>)
    requires Within(r, l) && InOrder(l, ps)
    ensures AllAccepted(r, l, ps, |ps|) <==> Conforms(r, l, ps, |ps|)
  {
    if AllAccepted(r, l, ps, |ps|) {
      forall i, j | 0 <= i <= j <= |ps| ensures Room(r, l, ps, i, j) >= 0.0 {
        var w := BudgetIsTightestRoom(r, l, ps, j);
        AcceptedStepLeavesRoom(r, l, ps, j);
      }
    }
    if Conforms(r, l, ps, |ps|) {
      ConformingIsAccepted(r, l, ps, |ps|);
    }
  }

  /**
   Over a stretch of acceptances the way is no longer than the starting budget and what was earned, so at most the cap
   and what was earned.
   */
  lemma StretchIsBounded(r: Rules, l: Last, ps: seq<Stamp>)
    requires Within(r, l) && InOrder(l, ps) && AllAccepted(r, l, ps, |ps|)
    ensures var earned := Gain(r, Arrival(l, ps, |ps|) - l.tsMs);
            Travelled(r, l, ps, |ps|) <= l.budget + earned <= Cap(r) + earned
  {
    AcceptedIffConforming(r, l, ps);
    assert Room(r, l, ps, 0, |ps|) >= 0.0;
  }

  // ------------------------------------------------------------------------------------------------
  // Across rejections
  // ------------------------------------------------------------------------------------------------

  /** The metres of the accepted steps among the first `k` packets. */
  function Spent(r: Rules, l: Last, ps: seq<Stamp>, k: nat): real
    requires k <= |ps|
  {
    if k == 0 then 0.0
    else
      Spent(r, l, ps, k - 1) +
      (if Accepts(r, l, ps, k - 1) then r.metric(Run(r, l, ps, k - 1).at, ps[k - 1].at) else 0.0)
  }

  /** The metres earned packet by packet, each time since the last accepted one. */
  function Earned(r: Rules, l: Last, ps: seq<Stamp>, k: nat): real
    requires k <= |ps|
  {
    if k == 0 then 0.0 else Earned(r, l, ps, k - 1) + Gain(r, Elapsed(ps[k - 1].ms, Run(r, l, ps, k - 1).tsMs))
  }

  /** Nothing is spent that was not earned; what is earned is `EarnedAgain`. */
  lemma {:induction false} SpentWasEarned(r: Rules, l: Last, ps: seq<Stamp>, k: nat)
    requires k <= |ps|
    ensures Spent(r, l, ps, k) + Run(r, l, ps, k).budget <= l.budget + Earned(r, l, ps, k)
  {
    if k > 0 {
      SpentWasEarned(r, l, ps, k - 1);
    }
  }

  /** Without rejections the baseline is the packet before. */
  lemma RunFollows(r: Rules, l: Last, ps: seq<Stamp>, k: nat)
    requires k <= |ps| && AllAccepted(r, l, ps, k)
    ensures Run(r, l, ps, k).at == Place(l, ps, k) && Run(r, l, ps, k).tsMs == Arrival(l, ps, k)
  {
    if k > 0 {
      assert Accepts(r, l, ps, k - 1);
    }
  }

  lemma EarnedStep(r: Rules, l: Last, ps: seq<Stamp>, k: nat)
    requires InOrder(l, ps) && 0 < k <= |ps| && Run(r, l, ps, k - 1).tsMs == Arrival(l, ps, k - 1)
    requires Earned(r, l, ps, k - 1) == Gain(r, Arrival(l, ps, k - 1) - l.tsMs)
    ensures Earned(r, l, ps, k) == Gain(r, Arrival(l, ps, k) - l.tsMs)
  {
    var a, b := Arrival(l, ps, k - 1), Arrival(l, ps, k);
    ArrivalsBounded(l, ps, k - 1, k);
    assert Elapsed(b, a) == b - a;
    GainAdds(r, a - l.tsMs, b - a);
  }

  /** Without rejections what is earned is the elapsed time at top speed, and what is spent is the whole way. */
  lemma {:induction false} EarnedIsElapsed(r: Rules, l: Last, ps: seq<Stamp>, k: nat)
    requires InOrder(l, ps) && k <= |ps| && AllAccepted(r, l, ps, k)
    ensures Earned(r, l, ps, k) == Gain(r, Arrival(l, ps, k) - l.tsMs) && Spent(r, l, ps, k) == Travelled(r, l, ps, k)
  {
    if k == 0 {
      assert Gain(r, 0) == 0.0;
    } else {
      EarnedIsElapsed(r, l, ps, k - 1);
      RunFollows(r, l, ps, k - 1);
      EarnedStep(r, l, ps, k);
      assert Accepts(r, l, ps, k - 1);
    }
  }

  /** The baseline carries the time of some packet up to now. */
  lemma {:induction false} BaselineIsPast(r: Rules, l: Last, ps: seq<Stamp>, k: nat)
    requires InOrder(l, ps) && k <= |ps|
    ensures Run(r, l, ps, k).tsMs <= Arrival(l, ps, k)
  {
    if k > 0 {
      BaselineIsPast(r, l, ps, k - 1);
      ArrivalsBounded(l, ps, k - 1, k);
    }
  }

  /** How far the baseline lags behind the k-th packet, in metres: nothing if that packet was accepted. */
  function Lag(r: Rules, l: Last, ps: seq<Stamp>, k: nat): real
    requires k <= |ps|
  {
    Gain(r, Arrival(l, ps, k) - Run(r, l, ps, k).tsMs)
  }

  function Lags(r: Rules, l: Last, ps: seq<Stamp>, k: nat): real
    requires k <= |ps|
  {
    if k == 0 then 0.0 else Lags(r, l, ps, k - 1) + Lag(r, l, ps, k - 1)
  }

  /**
   What is earned is the elapsed time at top speed, and once more the time since the last accepted packet for every
   rejected one before the last: that much is refilled again, and no more.
   */
  lemma {:induction false} EarnedAgain(r: Rules, l: Last, ps: seq<Stamp>, k: nat)
    requires InOrder(l, ps) && k <= |ps|
    ensures Earned(r, l, ps, k) == Gain(r, Arrival(l, ps, k) - l.tsMs) + Lags(r, l, ps, k)
  {
    if k == 0 {
      assert Gain(r, 0) == 0.0;
    } else {
      EarnedAgain(r, l, ps, k - 1);
      BaselineIsPast(r, l, ps, k - 1);
      ArrivalsBounded(l, ps, k - 1, k);
      RefillSplits(r, l.tsMs, Run(r, l, ps, k - 1).tsMs, Arrival(l, ps, k - 1), Arrival(l, ps, k));
    }
  }

  lemma RefillSplits(r: Rules, start: nat, base: nat, before: nat, now: nat)
    requires base <= before <= now < 0x1_0000_0000_0000_0000
    ensures Gain(r, before - start) + Gain(r, Elapsed(now, base)) == Gain(r, now - start) + Gain(r, before - base)
  {
    assert Elapsed(now, base) == now - base;
    GainAdds(r, now - before, before - base);
    GainAdds(r, before - start, now - before);
  }

  lemma {:induction false} NoLagIff(r: Rules, l: Last, ps: seq<Stamp>, k: nat)
    requires InOrder(l, ps) && k <= |ps| && r.speed > 0.0
    ensures Lags(r, l, ps, k) >= 0.0
    ensures Lags(r, l, ps, k) == 0.0 <==> forall j :: 0 <= j < k ==> Run(r, l, ps, j).tsMs == Arrival(l, ps, j)
  {
    if k > 0 {
      NoLagIff(r, l, ps, k - 1);
      BaselineIsPast(r, l, ps, k - 1);
      PositiveGain(r, Arrival(l, ps, k - 1) - Run(r, l, ps, k - 1).tsMs);
    }
  }

  lemma PositiveGain(r: Rules, ms: nat)
    requires r.speed > 0.0
    ensures Gain(r, ms) >= 0.0 && (Gain(r, ms) == 0.0 <==> ms == 0)
  {
  }

  /**
   The elapsed time at top speed bounds what is earned exactly if no packet before the last was rejected later than the
   packet accepted before it; then it bounds the way that was let through, too.
   */
  lemma ElapsedBoundsIff(r: Rules, l: Last, ps: seq<Stamp>, k: nat)
    requires InOrder(l, ps) && k <= |ps| && r.speed > 0.0
    ensures Earned(r, l, ps, k) <= Gain(r, Arrival(l, ps, k) - l.tsMs) <==>
            forall j :: 0 <= j < k ==> Run(r, l, ps, j).tsMs == Arrival(l, ps, j)
    ensures Spent(r, l, ps, k) + Run(r, l, ps, k).budget <=
            l.budget + Gain(r, Arrival(l, ps, k) - l.tsMs) + Lags(r, l, ps, k)
  {
    EarnedAgain(r, l, ps, k);
    NoLagIff(r, l, ps, k);
    SpentWasEarned(r, l, ps, k);
  }

  /**
   Across rejections the bound by elapsed time fails: two refused packets refill the same half second twice, and a
   step of six metres is accepted half a second after an empty budget at ten metres a second.
   */
  lemma RejectionsRefillTwice(far: Point, near: Point, r: Rules)
    requires r.speed == 10.0 && r.burst == 0.5
    requires r.metric(Point(0.0, 0.0, 0.0), far) == 100.0 && r.metric(Point(0.0, 0.0, 0.0), near) == 6.0
    ensures var l := Last(Point(0.0, 0.0, 0.0), 0, 0.0);
            var ps := [Stamp(far, 500), Stamp(far, 500), Stamp(near, 500)];
            && !Accepts(r, l, ps, 0) && !Accepts(r, l, ps, 1) && Accepts(r, l, ps, 2)
            && Spent(r, l, ps, 3) == 6.0 > l.budget + Gain(r, 500)
  {
    var o := Point(0.0, 0.0, 0.0);
    var l := Last(o, 0, 0.0);
    var ps := [Stamp(far, 500), Stamp(far, 500), Stamp(near, 500)];
    assert Gain(r, 500) == 5.0 && Cap(r) == 6.0;
    assert Run(r, l, ps, 1) == Last(o, 0, 5.0);
    assert Run(r, l, ps, 2) == Last(o, 0, 6.0);
    assert Spent(r, l, ps, 1) == 0.0;
    assert Spent(r, l, ps, 2) == 0.0;
  }

  // ------------------------------------------------------------------------------------------------
  // Honest players
  // ------------------------------------------------------------------------------------------------

  /** How late the k-th packet arrived, in seconds, for the given times of sending. */
  function Delay(l: Last, ps: seq<Stamp>, sent: seq<real>, k: nat): real
    requires k <= |ps| && |sent| == |ps| + 1
  {
    Arrival(l, ps, k) as real / 1000.0 - sent[k]
  }

  /**
   A player who keeps to the top speed between one sending and the next, leaves at most `gap` seconds between
   them, and whose packets are at most `jitter` later than the first, never earlier.
   */
  ghost predicate Honest(r: Rules, l: Last, ps: seq<Stamp>, sent: seq<real>, gap: real, jitter: real) {
    && |sent| == |ps| + 1 && InOrder(l, ps)
    && (forall k :: 0 < k <= |ps| ==> HonestStep(r, l, ps, sent, gap, k))
    && (forall k :: 0 <= k <= |ps| ==> Delay(l, ps, sent, 0) <= Delay(l, ps, sent, k) <= Delay(l, ps, sent, 0) + jitter)
  }

  predicate HonestStep(r: Rules, l: Last, ps: seq<Stamp>, sent: seq<real>, gap: real, k: nat)
    requires 0 < k <= |ps| && |sent| == |ps| + 1
  {
    && 0.0 <= sent[k] - sent[k - 1] <= gap
    && r.metric(Place(l, ps, k - 1), Place(l, ps, k)) <= r.speed * (sent[k] - sent[k - 1])
  }

  lemma Distributes(v: real, a: real, b: real, c: real)
    ensures v * (b - a) + v * (c - b) == v * (c - a)
  {
    assert (b - a) + (c - b) == c - a;
  }

  lemma OneMoreStep(v: real, way: real, step: real, a: real, b: real, c: real)
    requires way <= v * (b - a) && step <= v * (c - b)
    ensures way + step <= v * (c - a)
  {
    Distributes(v, a, b, c);
  }

  lemma {:induction false} HonestWay(
    r: Rules, l: Last, ps: seq<Stamp>, sent: seq<real>, gap: real, jitter: real, i: nat, j: nat)
    requires Honest(r, l, ps, sent, gap, jitter) && i <= j <= |ps|
    ensures Travelled(r, l, ps, j) - Travelled(r, l, ps, i) <= r.speed * (sent[j] - sent[i])
  {
    if i < j {
      HonestWay(r, l, ps, sent, gap, jitter, i, j - 1);
      assert HonestStep(r, l, ps, sent, gap, j);
      OneMoreStep(r.speed, Travelled(r, l, ps, j - 1) - Travelled(r, l, ps, i),
                  r.metric(Place(l, ps, j - 1), Place(l, ps, j)), sent[i], sent[j - 1], sent[j]);
    } else {
      assert r.speed * (sent[j] - sent[i]) == 0.0;
    }
  }

  lemma Scaled(v: real, a: real, b: real)
    requires v >= 0.0 && a <= b
    ensures v * a <= v * b
  {
  }

  /** A way walked in the time that was earned and owed, when the allowance pays for what is owed. */
  lemma Affordable(v: real, way: real, walked: real, earned: real, owed: real, allowance: real)
    requires v >= 0.0 && way <= v * walked && walked <= earned + owed && v * owed <= allowance
    ensures allowance + v * earned - way >= 0.0
  {
    Scaled(v, walked, earned + owed);
    assert v * (earned + owed) == v * earned + v * owed;
  }

  lemma HonestClock(r: Rules, l: Last, ps: seq<Stamp>, sent: seq<real>, gap: real, jitter: real, i: nat, j: nat)
    requires Honest(r, l, ps, sent, gap, jitter) && i <= j <= |ps|
    ensures var earned := (Arrival(l, ps, j) - Arrival(l, ps, i)) as real / 1000.0;
            && (i == 0 ==> sent[j] - sent[0] <= earned)
            && (i > 0 ==> sent[j] - sent[i - 1] <= earned + (jitter + gap))
  {
    var a, b := Arrival(l, ps, i) as real / 1000.0, Arrival(l, ps, j) as real / 1000.0;
    assert (Arrival(l, ps, j) - Arrival(l, ps, i)) as real / 1000.0 == b - a;
    if i > 0 {
      assert HonestStep(r, l, ps, sent, gap, i);
    }
    assert a == Delay(l, ps, sent, i) + sent[i] && b == Delay(l, ps, sent, j) + sent[j];
  }

  lemma RoomAffordable(r: Rules, l: Last, ps: seq<Stamp>, i: nat, j: nat, walked: real, owed: real, allowance: real)
    requires i <= j <= |ps| && r.speed >= 0.0
    requires allowance == if i == 0 then l.budget else Cap(r)
    requires Travelled(r, l, ps, j) - Travelled(r, l, ps, if i == 0 then 0 else i - 1) <= r.speed * walked
    requires walked <= (Arrival(l, ps, j) - Arrival(l, ps, i)) as real / 1000.0 + owed
    requires r.speed * owed <= allowance
    ensures Room(r, l, ps, i, j) >= 0.0
  {
    var way := Travelled(r, l, ps, j) - Travelled(r, l, ps, if i == 0 then 0 else i - 1);
    var earned := (Arrival(l, ps, j) - Arrival(l, ps, i)) as real / 1000.0;
    Affordable(r.speed, way, walked, earned, owed, allowance);
    assert Room(r, l, ps, i, j) == allowance + r.speed * earned - way;
  }

  lemma HonestRoom(r: Rules, l: Last, ps: seq<Stamp>, sent: seq<real>, gap: real, jitter: real, i: nat, j: nat)
    requires Sane(r) && Within(r, l) && Honest(r, l, ps, sent, gap, jitter) && i <= j <= |ps|
    requires r.speed * (jitter + gap) <= Cap(r)
    ensures Room(r, l, ps, i, j) >= 0.0
  {
    var from := if i == 0 then 0 else i - 1;
    HonestWay(r, l, ps, sent, gap, jitter, from, j);
    HonestClock(r, l, ps, sent, gap, jitter, i, j);
    var owed, allowance := if i == 0 then 0.0 else jitter + gap, if i == 0 then l.budget else Cap(r);
    RoomAffordable(r, l, ps, i, j, sent[j] - sent[from], owed, allowance);
  }

  /**
   An honest player is never rejected, whatever the budget to start from, when jitter and gap together are covered by
   the cap.
   */
  lemma HonestIsAccepted(r: Rules, l: Last, ps: seq<Stamp>, sent: seq<real>, gap: real, jitter: real)
    requires Sane(r) && Within(r, l) && Honest(r, l, ps, sent, gap, jitter)
    requires r.speed * (jitter + gap) <= Cap(r)
    ensures AllAccepted(r, l, ps, |ps|)
  {
    forall i, j | 0 <= i <= j <= |ps| ensures Room(r, l, ps, i, j) >= 0.0 {
      HonestRoom(r, l, ps, sent, gap, jitter, i, j);
    }
    AcceptedIffConforming(r, l, ps);
  }

  /** In particular when jitter and gap together fit the burst. */
  lemma BurstCoversHonest(r: Rules, l: Last, ps: seq<Stamp>, sent: seq<real>, gap: real, jitter: real)
    requires Sane(r) && Within(r, l) && Honest(r, l, ps, sent, gap, jitter)
    requires jitter + gap <= r.burst
    ensures AllAccepted(r, l, ps, |ps|)
  {
    Scaled(r.speed, jitter + gap, r.burst);
    HonestIsAccepted(r, l, ps, sent, gap, jitter);
  }

  /** Lengths along the x axis are what they should be. */
  ghost predicate MeasuresTheAxis(r: Rules) {
    forall a: real, b: real :: a <= b ==> r.metric(Point(a, 0.0, 0.0), Point(b, 0.0, 0.0)) == b - a
  }

  /** Where a player who walks at top speed is after so many milliseconds. */
  function Walker(r: Rules, ms: nat): Point { Point(Gain(r, ms), 0.0, 0.0) }

  /**
   The walker that is hardest on the filter: a gap, then a packet a millisecond, and all of them arrive together at
   the end of the jitter.
   */
  function Bunch(r: Rules, gapMs: nat, jitterMs: nat): seq<Stamp> {
    seq(jitterMs + 1, k requires 0 <= k => Stamp(Walker(r, gapMs + k), gapMs + jitterMs))
  }

  function BunchSent(gapMs: nat, jitterMs: nat): seq<real> {
    seq(jitterMs + 2, k requires 0 <= k => if k == 0 then 0.0 else (gapMs + k - 1) as real / 1000.0)
  }

  lemma WalkerStep(r: Rules, a: nat, b: nat)
    requires Sane(r) && MeasuresTheAxis(r) && a <= b
    ensures r.metric(Walker(r, a), Walker(r, b)) == Gain(r, b - a)
    ensures Gain(r, b - a) == r.speed * (b as real / 1000.0 - a as real / 1000.0)
  {
    GainAdds(r, a, b - a);
    GainIsPositive(r, b - a);
    assert (b - a) as real / 1000.0 == b as real / 1000.0 - a as real / 1000.0;
  }

  /** The k-th packet of the bunch was sent after so many milliseconds. */
  function BunchClock(gapMs: nat, k: nat): nat { if k == 0 then 0 else gapMs + k - 1 }

  lemma BunchPlaces(r: Rules, gapMs: nat, jitterMs: nat, k: nat)
    requires k <= jitterMs + 1
    ensures var l, ps := Last(Walker(r, 0), 0, 0.0), Bunch(r, gapMs, jitterMs);
            && |ps| == jitterMs + 1 && Place(l, ps, k) == Walker(r, BunchClock(gapMs, k))
            && Arrival(l, ps, k) == (if k == 0 then 0 else gapMs + jitterMs)
            && BunchSent(gapMs, jitterMs)[k] == BunchClock(gapMs, k) as real / 1000.0
  {
  }

  lemma BunchStep(r: Rules, gapMs: nat, jitterMs: nat, k: nat)
    requires Sane(r) && MeasuresTheAxis(r) && 0 < gapMs && 0 < k <= jitterMs + 1
    ensures var l, ps, sent := Last(Walker(r, 0), 0, 0.0), Bunch(r, gapMs, jitterMs), BunchSent(gapMs, jitterMs);
            |ps| == jitterMs + 1 && HonestStep(r, l, ps, sent, gapMs as real / 1000.0, k)
  {
    BunchPlaces(r, gapMs, jitterMs, k - 1);
    BunchPlaces(r, gapMs, jitterMs, k);
    WalkerStep(r, BunchClock(gapMs, k - 1), BunchClock(gapMs, k));
  }

  lemma BunchDelay(r: Rules, gapMs: nat, jitterMs: nat, k: nat)
    requires k <= jitterMs + 1
    ensures |Bunch(r, gapMs, jitterMs)| == jitterMs + 1
    ensures var delay := Delay(Last(Walker(r, 0), 0, 0.0), Bunch(r, gapMs, jitterMs), BunchSent(gapMs, jitterMs), k);
            0.0 <= delay <= jitterMs as real / 1000.0 && (k == 0 ==> delay == 0.0)
  {
    BunchPlaces(r, gapMs, jitterMs, k);
  }

  lemma BunchInOrder(r: Rules, gapMs: nat, jitterMs: nat)
    requires gapMs + jitterMs < 0x1_0000_0000_0000_0000
    ensures InOrder(Last(Walker(r, 0), 0, 0.0), Bunch(r, gapMs, jitterMs))
  {
  }

  lemma BunchIsHonest(r: Rules, gapMs: nat, jitterMs: nat)
    requires Sane(r) && MeasuresTheAxis(r) && 0 < gapMs && gapMs + jitterMs < 0x1_0000_0000_0000_0000
    ensures Honest(r, Last(Walker(r, 0), 0, 0.0), Bunch(r, gapMs, jitterMs), BunchSent(gapMs, jitterMs),
            gapMs as real / 1000.0, jitterMs as real / 1000.0)
  {
    var l, ps, sent := Last(Walker(r, 0), 0, 0.0), Bunch(r, gapMs, jitterMs), BunchSent(gapMs, jitterMs);
    BunchInOrder(r, gapMs, jitterMs);
    var gap := gapMs as real / 1000.0;
    forall k | 0 < k <= |ps| ensures HonestStep(r, l, ps, sent, gap, k) {
      BunchStep(r, gapMs, jitterMs, k);
    }
    BunchDelay(r, gapMs, jitterMs, 0);
    forall k | 0 <= k <= |ps|
      ensures Delay(l, ps, sent, 0) <= Delay(l, ps, sent, k) <= Delay(l, ps, sent, 0) + jitterMs as real / 1000.0
    {
      BunchDelay(r, gapMs, jitterMs, k);
    }
  }

  lemma {:induction false} BunchWay(r: Rules, gapMs: nat, jitterMs: nat, k: nat)
    requires Sane(r) && MeasuresTheAxis(r) && k <= jitterMs + 1
    ensures Travelled(r, Last(Walker(r, 0), 0, 0.0), Bunch(r, gapMs, jitterMs), k) ==
            if k == 0 then 0.0 else Gain(r, gapMs + k - 1)
  {
    if k > 0 {
      BunchWay(r, gapMs, jitterMs, k - 1);
      if k == 1 {
        WalkerStep(r, 0, gapMs);
      } else {
        WalkerStep(r, gapMs + k - 2, gapMs + k - 1);
        GainAdds(r, gapMs + k - 2, 1);
      }
    }
  }

  /** The condition is exact: as soon as the cap does not cover jitter and gap, an honest player is rejected. */
  lemma UncoveredHonestIsRejected(r: Rules, gapMs: nat, jitterMs: nat)
    requires Sane(r) && MeasuresTheAxis(r) && 0 < gapMs && gapMs + jitterMs < 0x1_0000_0000_0000_0000
    requires Gain(r, gapMs + jitterMs) > Cap(r)
    ensures var l, ps := Last(Walker(r, 0), 0, 0.0), Bunch(r, gapMs, jitterMs);
            && Honest(r, l, ps, BunchSent(gapMs, jitterMs), gapMs as real / 1000.0, jitterMs as real / 1000.0)
            && !AllAccepted(r, l, ps, |ps|)
  {
    var l, ps := Last(Walker(r, 0), 0, 0.0), Bunch(r, gapMs, jitterMs);
    BunchIsHonest(r, gapMs, jitterMs);
    CapIsPositive(r);
    AcceptedIffConforming(r, l, ps);
    BunchOverdraws(r, gapMs, jitterMs);
  }

  lemma BunchOverdraws(r: Rules, gapMs: nat, jitterMs: nat)
    requires Sane(r) && MeasuresTheAxis(r) && Gain(r, gapMs + jitterMs) > Cap(r)
    ensures var ps := Bunch(r, gapMs, jitterMs);
            |ps| == jitterMs + 1 && Room(r, Last(Walker(r, 0), 0, 0.0), ps, 1, |ps|) < 0.0
  {
    BunchWay(r, gapMs, jitterMs, jitterMs + 1);
    assert Gain(r, 0) == 0.0;
  }
}
