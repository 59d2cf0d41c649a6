/**
 Runs of the cluster from its base zone that show where its guarantees end: the time between a split and the
 registration of the child, a drain whose boxes do not make one, and a merge of copies that are out of date.
 */
module ClusterRuns {
  import opened Geometry
  import opened Topology
  import opened Cluster
  import Orchestration
  import Population

  /**
   All routable entries of the record are up to date with targets that are disjoint from `fd`'s, or are `fd`'s own.
   */
  lemma OthersMiss(s: State, u: State, fd: int, world: iset<Chunk>, c: Chunk, z: Zone)
    requires Sound(s) && Tiling(Owners(s), world) && AllInSync(s) && fd in Owners(s) && Owners(s)[fd].Has(c)
    requires UniqueFds(u.head.zones) && u.head.states == s.head.states
    requires z in u.head.zones && u.head.Routable(z.fd) && z.fd != fd &&
             Find(u.head.zones, z.fd) == Find(s.head.zones, z.fd)
    ensures !z.box.Has(c)
  {
    var i :| 0 <= i < |u.head.zones| && u.head.zones[i] == z;
    FindUnique(u.head.zones, i);
    var j := FoundAt(s.head.zones, z.fd);
    assert z.fd in Owners(s) && InSync(s, z.fd);
    assert Disjoint(Owners(s)[z.fd], Owners(s)[fd]);
  }

  /** The parent of a split has resized and reported; the child has not registered. */
  lemma ParentAlone(s: State, u: State, fd: int, axis: Axis, cut: int, child: int, world: iset<Chunk>, c: Chunk)
    requires Sound(s) && Tiling(Owners(s), world) && AllInSync(s) && Legal(s, Step.Split(fd, axis, cut, cut + 1, child))
    requires CopyOf(s, fd).At(axis).lo <= cut < CopyOf(s, fd).At(axis).hi
    requires HighHalf(s.nodes[fd].Target(), axis, cut + 1).Has(c) && fd in Owners(s)
    requires Sound(u) && OnlyTouches(Next(s, Step.Split(fd, axis, cut, cut + 1, child)), u, fd) && InSync(u, fd)
    ensures u.head.Route(c).None?
    ensures forall z :: z in u.head.zones && u.head.Routable(z.fd) ==> !z.box.Has(c)
  {
    var b := s.nodes[fd].Target();
    SendingTarget(s.nodes[fd], Resize(axis, b.At(axis).lo, cut));
    RouteIsServing(u.head.states, u.head.zones, c);
    forall z | z in u.head.zones && u.head.Routable(z.fd) ensures !z.box.Has(c) {
      if z.fd == fd {
        var i :| 0 <= i < |u.head.zones| && u.head.zones[i] == z;
        FindUnique(u.head.zones, i);
        assert z.box == LowHalf(b, axis, cut);
      } else {
        OthersMiss(s, u, fd, world, c, z);
      }
    }
  }

  /** A child that has been started for a chunk nobody answers for. */
  ghost predicate Awaited(u: State, child: int, c: Chunk) {
    && Sound(u) && child in u.nodes && u.head.Routable(child) && u.nodes[child].Target().Has(c)
    && forall z :: z in u.head.zones && u.head.Routable(z.fd) ==> !z.box.Has(c)
  }

  /**
   The window of every split: once the parent has resized and reported, and until the child has, no chunk of the
   child's half is routed anywhere.
   */
  lemma SplitWindow(s: State, fd: int, axis: Axis, cut: int, child: int, world: iset<Chunk>, c: Chunk)
    returns (quiet: seq<Step>)
    requires Sound(s) && Tiling(Owners(s), world) && AllInSync(s) && Legal(s, Step.Split(fd, axis, cut, cut + 1, child))
    requires CopyOf(s, fd).At(axis).lo <= cut < CopyOf(s, fd).At(axis).hi
    requires HighHalf(s.nodes[fd].Target(), axis, cut + 1).Has(c)
    ensures forall i :: 0 <= i < |quiet| ==> QuietMove(quiet[i], fd)
    ensures var t := Next(s, Step.Split(fd, axis, cut, cut + 1, child));
            AllLegal(t, quiet) && Awaited(Run(t, quiet), child, c)
  {
    var split := Step.Split(fd, axis, cut, cut + 1, child);
    var t := Next(s, split);
    StepIsSound(s, split);
    assert fd in Owners(s) && InSync(s, fd);
    quiet := CatchUp(t, fd);
    ParentAlone(s, Run(t, quiet), fd, axis, cut, child, world, c);
  }

  /** Such a chunk is routed to nobody. */
  lemma AwaitedIsUnrouted(u: State, child: int, c: Chunk)
    requires Awaited(u, child, c)
    ensures u.head.Route(c).None?
  {
    RouteIsServing(u.head.states, u.head.zones, c);
  }

  /** The window closes when the child has reported: its chunks are routed to it. */
  lemma WindowCloses(u: State, child: int, c: Chunk) returns (close: seq<Step>)
    requires Awaited(u, child, c)
    ensures AllLegal(u, close) && forall i :: 0 <= i < |close| ==> QuietMove(close[i], child)
    ensures var r := Run(u, close).head.Route(c); r.Some? && r.value.fd == child
  {
    close := CatchUp(u, child);
    ChildAnswers(u, Run(u, close), child, c);
  }

  /** The child registers: it is the only one that answers for its chunks. */
  lemma ChildAnswers(u: State, v: State, child: int, c: Chunk)
    requires Awaited(u, child, c) && Sound(v) && OnlyTouches(u, v, child) && InSync(v, child)
    ensures v.head.Route(c).Some? && v.head.Route(c).value.fd == child
  {
    RouteIsServing(v.head.states, v.head.zones, c);
    var z := Find(v.head.zones, child).value;
    assert z in v.head.zones && v.head.Routable(z.fd) && z.box.Has(c);
    var r := v.head.Route(c).value;
    var i :| 0 <= i < |v.head.zones| && v.head.zones[i] == r;
    FindUnique(v.head.zones, i);
    assert r.fd != child ==> Find(u.head.zones, r.fd) == Some(r);
  }

  /** The cluster as it starts: one zone, not yet heard of. */
  function Base(box: Box): State { State(EMPTY_HEAD, map[1 := Node(box, [], [])]) }

  ghost function Within(box: Box): iset<Chunk> { iset c: Chunk | box.Has(c) }

  /** The base zone is heard of. */
  lemma BaseInSync(box: Box) returns (steps: seq<Step>)
    requires box.NonEmpty() && InLimits(box)
    ensures AllLegal(Base(box), steps) && AllQuiet(steps)
    ensures var s := Run(Base(box), steps);
            && Sound(s) && AllInSync(s) && Owners(s) == map[1 := box] && Tiling(Owners(s), Within(box))
            && s.head.states == map[] && s.nodes.Keys == {1} && Idle(s.nodes[1])
  {
    BaseZoneTiles(1, box);
    assert Owners(Base(box)) == map[1 := box];
    steps := EveryoneCatchesUp(Base(box), {1});
  }

  /** From a base zone of two chunks: after the first split the second chunk is routed, then not, then to the child. */
  lemma BaseSplitUnroutes() returns (steps: seq<Step>, window: seq<Step>, more: seq<Step>)
    ensures var s0, c := Base(Box(Range(0, 1), Range(0, 0), Range(0, 0))), Chunk(1, 0, 0);
            && AllLegal(s0, steps) && Run(s0, steps).head.Route(c).Some?
            && AllLegal(Run(s0, steps), window) && Run(Run(s0, steps), window).head.Route(c).None?
            && AllLegal(Run(Run(s0, steps), window), more)
            && Run(Run(Run(s0, steps), window), more).head.Route(c).Some?
  {
    var box, c := Box(Range(0, 1), Range(0, 0), Range(0, 0)), Chunk(1, 0, 0);
    steps := BaseInSync(box);
    var s, split := Run(Base(box), steps), Step.Split(1, AxisX, 0, 1, 2);
    RoutingIsExact(s, Within(box), c);
    assert 1 in Owners(s) && InSync(s, 1) && s.nodes[1].Target() == box;
    assert s.head.State(1) == Ready && Find(s.head.zones, 2).None?;
    var quiet := SplitWindow(s, 1, AxisX, 0, 2, Within(box), c);
    RunCons(s, split, quiet);
    window := [split] + quiet;
    AwaitedIsUnrouted(Run(s, window), 2, c);
    more := WindowCloses(Run(s, window), 2, c);
  }

  // ------------------------------------------------------------------------------------------------
  // A refused drain
  // ------------------------------------------------------------------------------------------------

  const WHOLE: Box := Box(Range(0, 1), Range(0, 1), Range(0, 0))
  const LEFT: Box := Box(Range(0, 0), Range(0, 1), Range(0, 0))
  const RIGHT: Box := Box(Range(1, 1), Range(0, 1), Range(0, 0))
  const BELOW: Box := Box(Range(1, 1), Range(0, 0), Range(0, 0))
  const ABOVE: Box := Box(Range(1, 1), Range(1, 1), Range(0, 0))

  /** Everything in service is up to date with these boxes, which tile the base zone. */
  ghost predicate Caught(base: Box, s: State, owners: map<int, Box>) {
    && Sound(s) && AllInSync(s) && s.head.states == map[] && s.nodes.Keys == owners.Keys
    && Owners(s) == owners && Tiling(owners, Within(base)) && forall fd :: fd in owners ==> Idle(s.nodes[fd])
  }

  /** Splits and quiet moves only. */
  predicate Plain(steps: seq<Step>) { forall i :: 0 <= i < |steps| ==> steps[i].Split? || Quiet(steps[i]) }

  ghost predicate Reached(base: Box, steps: seq<Step>, s: State) {
    Plain(steps) && AllLegal(Base(base), steps) && Run(Base(base), steps) == s
  }

  lemma ReachedMore(base: Box, before: seq<Step>, s: State, more: seq<Step>)
    requires Reached(base, before, s) && Plain(more) && AllLegal(s, more)
    ensures Reached(base, before + more, Run(s, more))
  {
    RunConcat(Base(base), before, more);
  }

  lemma CaughtNode(base: Box, s: State, m: map<int, Box>, fd: int)
    requires Caught(base, s, m) && fd in m
    ensures fd in s.nodes && s.nodes[fd] == Node(m[fd], [], []) && s.nodes[fd].Target() == m[fd]
    ensures InSync(s, fd) && CopyOf(s, fd) == m[fd]
  {
    assert fd in Owners(s) && InSync(s, fd) && Owners(s)[fd] == s.nodes[fd].Target();
  }

  lemma SplitIsLegal(base: Box, s: State, m: map<int, Box>, fd: int, axis: Axis, cut: int, child: int)
    requires Caught(base, s, m) && fd in m && child !in m && m[fd].At(axis).lo <= cut < m[fd].At(axis).hi
    ensures var split := Step.Split(fd, axis, cut, cut + 1, child);
            && Legal(s, split) && Orderly(s, split) && Sound(Next(s, split))
            && Owners(Next(s, split)) == m[fd := LowHalf(m[fd], axis, cut)][child := HighHalf(m[fd], axis, cut + 1)]
            && Tiling(Owners(Next(s, split)), Within(base))
  {
    var split := Step.Split(fd, axis, cut, cut + 1, child);
    SplitAllowed(base, s, m, fd, axis, cut, child);
    ProperSplitIsOrderly(s, fd, axis, cut, child);
    StepIsSound(s, split);
    StepKeepsTiling(s, split, Within(base));
    SplitOwners(s, fd, axis, cut, cut + 1, child);
  }

  lemma SplitAllowed(base: Box, s: State, m: map<int, Box>, fd: int, axis: Axis, cut: int, child: int)
    requires Caught(base, s, m) && fd in m && child !in m && m[fd].At(axis).lo <= cut < m[fd].At(axis).hi
    ensures Legal(s, Step.Split(fd, axis, cut, cut + 1, child))
    ensures InSync(s, fd) && s.nodes[fd].Target() == CopyOf(s, fd) == m[fd]
  {
    assert fd in Owners(s) && InSync(s, fd) && s.head.State(fd) == Ready;
    assert Find(s.head.zones, child).None?;
  }

  predicate Halves(m: map<int, Box>, fd: int, axis: Axis, cut: int, child: int, m': map<int, Box>) {
    && fd in m && child !in m && m[fd].At(axis).lo <= cut < m[fd].At(axis).hi
    && m' == m[fd := LowHalf(m[fd], axis, cut)][child := HighHalf(m[fd], axis, cut + 1)]
  }

  /** One split of a caught-up cluster, caught up again. */
  lemma SplitAndSync(
    base: Box, before: seq<Step>, s: State, m: map<int, Box>, fd: int, axis: Axis, cut: int, child: int,
    m': map<int, Box>)
    returns (steps: seq<Step>, t: State)
    requires Reached(base, before, s) && Caught(base, s, m) && Halves(m, fd, axis, cut, child, m')
    ensures Reached(base, steps, t) && Caught(base, t, m')
  {
    var split := Step.Split(fd, axis, cut, cut + 1, child);
    SplitIsLegal(base, s, m, fd, axis, cut, child);
    var after := Next(s, split);
    var quiet := SyncAll(base, after);
    SplitReached(base, before, s, split, quiet);
    steps, t := before + ([split] + quiet), Run(after, quiet);
  }

  lemma SyncAll(base: Box, s: State) returns (quiet: seq<Step>)
    requires Sound(s) && Tiling(Owners(s), Within(base)) && s.head.states == map[] && s.nodes.Keys == Owners(s).Keys
    ensures AllLegal(s, quiet) && AllQuiet(quiet)
    ensures Caught(base, Run(s, quiet), Owners(s))
  {
    quiet := EveryoneCatchesUp(s, Owners(s).Keys);
  }

  lemma SplitReached(base: Box, before: seq<Step>, s: State, split: Step, quiet: seq<Step>)
    requires Reached(base, before, s) && split.Split? && Legal(s, split) && AllLegal(Next(s, split), quiet)
    requires AllQuiet(quiet)
    ensures Reached(base, before + ([split] + quiet), Run(Next(s, split), quiet))
  {
    RunCons(s, split, quiet);
    ReachedMore(base, before, s, [split] + quiet);
  }

  lemma BaseCaught(base: Box) returns (steps: seq<Step>, s: State)
    requires base.NonEmpty() && InLimits(base)
    ensures Reached(base, steps, s) && Caught(base, s, map[1 := base])
  {
    steps := BaseInSync(base);
    s := Run(Base(base), steps);
    assert map[1 := base].Keys == {1};
  }

  lemma OneSplit() returns (steps: seq<Step>, s: State)
    ensures Reached(WHOLE, steps, s) && Caught(WHOLE, s, map[1 := LEFT, 2 := RIGHT])
  {
    var first, base := BaseCaught(WHOLE);
    steps, s := SplitAndSync(WHOLE, first, base, map[1 := WHOLE], 1, AxisX, 0, 2, map[1 := LEFT, 2 := RIGHT]);
  }

  /** Two splits of a square: the left half, and the right half cut across. */
  lemma TwoSplits() returns (steps: seq<Step>, s: State)
    ensures Reached(WHOLE, steps, s) && Caught(WHOLE, s, map[1 := LEFT, 2 := BELOW, 3 := ABOVE])
  {
    var first, t := OneSplit();
    var m := map[1 := LEFT, 2 := BELOW, 3 := ABOVE];
    steps, s := SplitAndSync(WHOLE, first, t, map[1 := LEFT, 2 := RIGHT], 2, AxisY, 0, 3, m);
  }

  /**
   A reachable state in which the largest partner of a zone is not mergeable with it: the lower right quarter stands
   face to face with the whole left half. Its reassign opens a drain that leaves the quarter without an owner.
   */
  lemma LargestPartnerUnmergeable(now: int, timeout: int) returns (steps: seq<Step>, s: State, w: Zone)
    ensures AllLegal(Base(WHOLE), steps) && s == Run(Base(WHOLE), steps)
    ensures Sound(s) && Tiling(Owners(s), Within(WHOLE)) && s.head.State(2) == Ready
    ensures Orchestration.LargestPartner(s.head, 2, w) && w.fd == 1
    ensures Legal(s, Drain(2, 1, now, timeout)) && !CopiesMerge(s.head, 2, 1)
    ensures !Tiling(Owners(Next(s, Drain(2, 1, now, timeout))), Within(WHOLE))
  {
    steps, s := TwoSplits();
    ThreeTargets(s);
    w := Find(s.head.zones, 1).value;
    LargestIsLeft(s, w);
    assert Disjoint(Owners(s)[1], Owners(s)[2]);
    DrainIsOrderlyIff(s, 2, 1, now, timeout);
    StepKeepsTilingIff(s, Drain(2, 1, now, timeout), Within(WHOLE));
  }

  lemma ThreeTargets(s: State)
    requires Caught(WHOLE, s, map[1 := LEFT, 2 := BELOW, 3 := ABOVE])
    ensures s.nodes.Keys == {1, 2, 3} && InSync(s, 1) && InSync(s, 2) && InSync(s, 3)
    ensures s.nodes[1].Target() == LEFT && s.nodes[2].Target() == BELOW && s.nodes[3].Target() == ABOVE
    ensures !CopiesMerge(s.head, 2, 1)
  {
    var m := map[1 := LEFT, 2 := BELOW, 3 := ABOVE];
    CaughtNode(WHOLE, s, m, 1);
    CaughtNode(WHOLE, s, m, 2);
    CaughtNode(WHOLE, s, m, 3);
  }

  lemma LargestIsLeft(s: State, w: Zone)
    requires Sound(s) && s.nodes.Keys == {1, 2, 3} && s.head.states == map[]
    requires InSync(s, 1) && InSync(s, 2) && InSync(s, 3)
    requires s.nodes[1].Target() == LEFT && s.nodes[2].Target() == BELOW && s.nodes[3].Target() == ABOVE
    requires w == Find(s.head.zones, 1).value
    ensures Orchestration.LargestPartner(s.head, 2, w)
  {
    assert LEFT.Volume() == 2 && ABOVE.Volume() == 1;
    assert Orchestration.Partner(s.head, 2, w);
    forall z | Orchestration.Partner(s.head, 2, z) ensures z.box.Volume() <= w.box.Volume() {
      var i :| 0 <= i < |s.head.zones| && s.head.zones[i] == z;
      FindUnique(s.head.zones, i);
      assert z.fd in s.nodes && z.fd != 2;
    }
  }

  // ------------------------------------------------------------------------------------------------
  // A merge of stale copies
  // ------------------------------------------------------------------------------------------------

  const LINE: Box := Box(Range(0, 3), Range(0, 0), Range(0, 0))
  const WEST: Box := Box(Range(0, 1), Range(0, 0), Range(0, 0))
  const EAST: Box := Box(Range(2, 3), Range(0, 0), Range(0, 0))

  lemma LineSplit() returns (steps: seq<Step>, s: State)
    ensures Reached(LINE, steps, s) && Caught(LINE, s, map[1 := WEST, 2 := EAST])
  {
    var first, base := BaseCaught(LINE);
    steps, s := SplitAndSync(LINE, first, base, map[1 := LINE], 1, AxisX, 1, 2, map[1 := WEST, 2 := EAST]);
  }

  /**
   A reachable tiled state in which a merge of mergeable copies breaks the tiling. The eastern zone has just split and
   has not reported yet, so that the head's copy of it is still whole; the western zone is up to date, and the eastern
   one is its smallest partner. The merge resizes it over the child.
   */
  lemma StaleMergeBreaksTiling(now: int, timeout: int) returns (steps: seq<Step>, s: State, v: Zone)
    ensures AllLegal(Base(LINE), steps) && s == Run(Base(LINE), steps)
    ensures Sound(s) && Tiling(Owners(s), Within(LINE)) && InSync(s, 1) && s.head.State(1) == Ready
    ensures Orchestration.SmallestPartner(s.head, 1, v) && v.fd == 2 && CopiesMerge(s.head, 2, 1)
    ensures Legal(s, Drain(2, 1, now, timeout)) && LeftByDrain(s, 2, 1) == LINE
    ensures !Tiling(Owners(Next(s, Drain(2, 1, now, timeout))), Within(LINE))
  {
    var first, t := LineSplit();
    var split := Step.Split(2, AxisX, 2, 3, 3);
    var m := map[1 := WEST, 2 := EAST];
    SplitIsLegal(LINE, t, m, 2, AxisX, 2, 3);
    s := Next(t, split);
    RunCons(t, split, []);
    ReachedMore(LINE, first, t, [split] + []);
    steps := first + ([split] + []);
    v := Find(s.head.zones, 2).value;
    TwoKnown(t);
    assert 2 in Owners(s) && s.nodes[2].Target() == Owners(s)[2] == LowHalf(EAST, AxisX, 2);
    StaleDrain(s, now, timeout);
    StepKeepsTilingIff(s, Drain(2, 1, now, timeout), Within(LINE));
  }

  /** The head knows the two zones, and nobody else. */
  ghost predicate KnowsTwo(s: State) {
    && InSync(s, 1) && s.nodes[1].Target() == WEST && Find(s.head.zones, 2).Some? && CopyOf(s, 2) == EAST
    && s.head.states == map[] && UniqueFds(s.head.zones)
    && forall i :: 0 <= i < |s.head.zones| ==> s.head.zones[i].fd == 1 || s.head.zones[i].fd == 2
  }

  lemma TwoKnown(t: State)
    requires Caught(LINE, t, map[1 := WEST, 2 := EAST])
    ensures KnowsTwo(t)
  {
    CaughtNode(LINE, t, map[1 := WEST, 2 := EAST], 1);
    CaughtNode(LINE, t, map[1 := WEST, 2 := EAST], 2);
  }

  lemma StaleDrain(s: State, now: int, timeout: int)
    requires KnowsTwo(s) && 2 in s.nodes && s.nodes[2].Target() == Box(Range(2, 2), Range(0, 0), Range(0, 0))
    ensures Legal(s, Drain(2, 1, now, timeout)) && CopiesMerge(s.head, 2, 1) && LeftByDrain(s, 2, 1) == LINE
    ensures !Orderly(s, Drain(2, 1, now, timeout))
    ensures Orchestration.SmallestPartner(s.head, 1, Find(s.head.zones, 2).value)
  {
    assert MergeableAxis(WEST, EAST) == Some(AxisX) && Absorb(WEST, EAST, AxisX) == LINE;
    assert LINE.Has(Chunk(3, 0, 0)) && !WEST.Has(Chunk(3, 0, 0)) && !s.nodes[2].Target().Has(Chunk(3, 0, 0));
    var v := Find(s.head.zones, 2).value;
    assert Orchestration.Partner(s.head, 1, v);
    forall z | Orchestration.Partner(s.head, 1, z) ensures v.box.Volume() <= z.box.Volume() {
      var i :| 0 <= i < |s.head.zones| && s.head.zones[i] == z;
      FindUnique(s.head.zones, i);
    }
  }

  // ------------------------------------------------------------------------------------------------
  // A report that overwrites what a merge has just recorded
  // ------------------------------------------------------------------------------------------------

  const TRIO: Box := Box(Range(0, 2), Range(0, 0), Range(0, 0))
  const FIRST: Box := Box(Range(0, 0), Range(0, 0), Range(0, 0))
  const MIDDLE: Box := Box(Range(1, 1), Range(0, 0), Range(0, 0))
  const LAST: Box := Box(Range(2, 2), Range(0, 0), Range(0, 0))
  const UNION: Box := Box(Range(1, 2), Range(0, 0), Range(0, 0))

  lemma TrioSplit() returns (steps: seq<Step>, s: State)
    ensures Reached(TRIO, steps, s) && Caught(TRIO, s, map[1 := FIRST, 2 := MIDDLE, 3 := LAST])
  {
    var first, t := TrioHalved();
    var m := map[1 := FIRST, 2 := MIDDLE, 3 := LAST];
    steps, s := SplitAndSync(TRIO, first, t, map[1 := FIRST, 2 := UNION], 2, AxisX, 1, 3, m);
  }

  lemma TrioHalved() returns (steps: seq<Step>, s: State)
    ensures Reached(TRIO, steps, s) && Caught(TRIO, s, map[1 := FIRST, 2 := UNION])
  {
    var first, base := BaseCaught(TRIO);
    steps, s := SplitAndSync(TRIO, first, base, map[1 := TRIO], 1, AxisX, 0, 2, map[1 := FIRST, 2 := UNION]);
  }

  /** The head's copies of the three, the states of the first two, and the middle zone itself. */
  ghost predicate Trio(s: State, last: ZoneState, middle: Box, n: Node) {
    && s.nodes.Keys == {1, 2, 3} && s.nodes[2] == n && s.nodes[1].Target() == FIRST
    && KnowsTrio(s.head, last, middle)
  }

  ghost predicate KnowsTrio(h: Head, last: ZoneState, middle: Box) {
    && UniqueFds(h.zones) && h.State(1) == Ready && h.State(2) == Ready && h.State(3) == last
    && Find(h.zones, 1).Some? && Find(h.zones, 1).value.box == FIRST
    && Find(h.zones, 2).Some? && Find(h.zones, 2).value.box == middle
    && Find(h.zones, 3).Some? && Find(h.zones, 3).value.box == LAST
    && forall i :: 0 <= i < |h.zones| ==> h.zones[i].fd == 1 || h.zones[i].fd == 2 || h.zones[i].fd == 3
  }

  lemma TrioKnown(s: State)
    requires Caught(TRIO, s, map[1 := FIRST, 2 := MIDDLE, 3 := LAST])
    ensures Trio(s, Ready, MIDDLE, Node(MIDDLE, [], []))
  {
    var m := map[1 := FIRST, 2 := MIDDLE, 3 := LAST];
    CaughtNode(TRIO, s, m, 1);
    CaughtNode(TRIO, s, m, 2);
    CaughtNode(TRIO, s, m, 3);
  }

  /** The last zone is merged into the middle one, with a report of the middle one on its way. */
  lemma TrioMerged(s: State, now: int, timeout: int)
    requires Trio(s, Ready, MIDDLE, Node(MIDDLE, [], [MIDDLE]))
    ensures Legal(s, Drain(3, 2, now, timeout))
    ensures Trio(Next(s, Drain(3, 2, now, timeout)), Draining, UNION, Node(MIDDLE, [Resize(AxisX, 1, 2)], [MIDDLE]))
  {
    TrioHeadMerged(s.head, now, timeout);
  }

  lemma TrioHeadMerged(h: Head, now: int, timeout: int)
    requires KnowsTrio(h, Ready, MIDDLE)
    ensures KnowsTrio(StartDrain(h, 3, 2, now, timeout), Draining, UNION)
    ensures AbsorbMessage(h.zones, 2, 3) == Some(Resize(AxisX, 1, 2))
  {
    LastFits();
    DrainZones(h, 3, 2, now, timeout);
    PutMiddle(h.zones, Find(h.zones, 2).value.(box := UNION));
  }

  lemma LastFits()
    ensures MergeableAxis(MIDDLE, LAST) == Some(AxisX) && Absorb(MIDDLE, LAST, AxisX) == UNION
  {
  }

  lemma PutMiddle(zones: seq<Zone>, z: Zone)
    requires UniqueFds(zones) && z.fd == 2 && Find(zones, 2).Some?
    ensures var after := Put(zones, z);
            && UniqueFds(after) && |after| == |zones|
            && Find(after, 1) == Find(zones, 1) && Find(after, 2) == Some(z) && Find(after, 3) == Find(zones, 3)
            && forall i :: 0 <= i < |zones| ==> after[i].fd == zones[i].fd
  {
    FindPut(zones, z, 1);
    FindPut(zones, z, 2);
    FindPut(zones, z, 3);
  }

  /** Then the head hears that report. */
  lemma TrioHeard(s: State, addr: string, port: int, profile: Population.Profile)
    requires Trio(s, Draining, UNION, Node(MIDDLE, [Resize(AxisX, 1, 2)], [MIDDLE]))
    ensures Legal(s, Hears(2, addr, port, profile))
    ensures Trio(Next(s, Hears(2, addr, port, profile)), Draining, MIDDLE, Node(MIDDLE, [Resize(AxisX, 1, 2)], []))
  {
    var r := Topology.Report(MIDDLE, addr, port, profile);
    HearFinds(s.head, 2, r, 1);
    HearFinds(s.head, 2, r, 2);
    HearFinds(s.head, 2, r, 3);
  }

  /** The head takes the middle zone for smaller than it has told it to be, and reassigns the first zone to it. */
  lemma TrioShrinks(s: State, now: int, timeout: int)
    requires Trio(s, Draining, MIDDLE, Node(MIDDLE, [Resize(AxisX, 1, 2)], []))
    ensures s.nodes[2].Target() == UNION && Legal(s, Drain(1, 2, now, timeout)) && CopiesMerge(s.head, 1, 2)
    ensures LeftByDrain(s, 1, 2) == Box(Range(0, 1), Range(0, 0), Range(0, 0))
    ensures Orchestration.LargestPartner(s.head, 1, Find(s.head.zones, 2).value)
  {
    SendingTarget(Node(MIDDLE, [], []), Resize(AxisX, 1, 2));
    assert [] + [Resize(AxisX, 1, 2)] == [Resize(AxisX, 1, 2)];
    assert MergeableAxis(MIDDLE, FIRST) == Some(AxisX);
    var w := Find(s.head.zones, 2).value;
    assert Orchestration.Partner(s.head, 1, w);
    forall z | Orchestration.Partner(s.head, 1, z) ensures z.box.Volume() <= w.box.Volume() {
      var i :| 0 <= i < |s.head.zones| && s.head.zones[i] == z;
      FindUnique(s.head.zones, i);
      assert z.fd == 2;
    }
  }

  lemma ShrunkLosesLast(s: State, now: int, timeout: int)
    requires Trio(s, Draining, MIDDLE, Node(MIDDLE, [Resize(AxisX, 1, 2)], []))
    requires Legal(s, Drain(1, 2, now, timeout)) && LeftByDrain(s, 1, 2) == Box(Range(0, 1), Range(0, 0), Range(0, 0))
    ensures !OwnedBy(Owners(Next(s, Drain(1, 2, now, timeout))), Chunk(2, 0, 0))
  {
    DrainOwners(s, 1, 2, now, timeout);
  }

  /** The run up to the report, state by state. */
  lemma TrioRun(now: int, timeout: int) returns (steps: seq<Step>, s: State)
    ensures AllLegal(Base(TRIO), steps) && s == Run(Base(TRIO), steps) && Sound(s)
    ensures Trio(s, Draining, MIDDLE, Node(MIDDLE, [Resize(AxisX, 1, 2)], [])) && Tiling(Owners(s), Within(TRIO))
  {
    var first, t := TrioSplit();
    TrioKnown(t);
    var drain, hear := Drain(3, 2, now, timeout), Hears(2, "", 0, Population.Profile([], [], []));
    var u := Next(t, Reports(2));
    assert [] + [MIDDLE] == [MIDDLE];
    TrioMerged(u, now, timeout);
    var v := Next(u, drain);
    TrioHeard(v, "", 0, Population.Profile([], [], []));
    s := Next(v, hear);
    TrioTiles(t, u, v, now, timeout);
    RunCons(v, hear, []);
    RunCons(u, drain, [hear] + []);
    RunCons(t, Reports(2), [drain] + ([hear] + []));
    var more := [Reports(2)] + ([drain] + ([hear] + []));
    RunConcat(Base(TRIO), first, more);
    steps := first + more;
  }

  lemma TrioTiles(t: State, u: State, v: State, now: int, timeout: int)
    requires Sound(t) && Tiling(Owners(t), Within(TRIO)) && t.nodes.Keys == {1, 2, 3} && t.nodes[3].Target() == LAST
    requires u == Next(t, Reports(2)) && Trio(u, Ready, MIDDLE, Node(MIDDLE, [], [MIDDLE]))
    requires Legal(u, Drain(3, 2, now, timeout)) && v == Next(u, Drain(3, 2, now, timeout)) && v.nodes[2].outbox != []
    ensures Sound(v) && Tiling(Owners(v), Within(TRIO))
    ensures var s := Next(v, Hears(2, "", 0, Population.Profile([], [], [])));
            Sound(s) && Tiling(Owners(s), Within(TRIO))
  {
    var drain, hear := Drain(3, 2, now, timeout), Hears(2, "", 0, Population.Profile([], [], []));
    StepIsSound(t, Reports(2));
    StepKeepsTiling(t, Reports(2), Within(TRIO));
    assert MergeableAxis(MIDDLE, LAST) == Some(AxisX) && Absorb(MIDDLE, LAST, AxisX) == UNION;
    assert Orderly(u, drain);
    StepIsSound(u, drain);
    StepKeepsTiling(u, drain, Within(TRIO));
    StepIsSound(v, hear);
    StepKeepsTiling(v, hear, Within(TRIO));
  }

  /**
   A reachable tiled state in which a reassign between mergeable copies leaves a chunk without an owner. The last zone
   has been merged into the middle one, and a report sent before that has overwritten the recorded union. The middle one
   is the first zone's only partner, and the resize of that reassign takes the last chunk away again.
   */
  lemma StaleReportLosesChunk(now: int, timeout: int) returns (steps: seq<Step>, s: State, w: Zone)
    ensures AllLegal(Base(TRIO), steps) && s == Run(Base(TRIO), steps)
    ensures Sound(s) && Tiling(Owners(s), Within(TRIO)) && s.head.State(1) == Ready
    ensures Orchestration.LargestPartner(s.head, 1, w) && w.fd == 2 && CopiesMerge(s.head, 1, 2)
    ensures Legal(s, Drain(1, 2, now, timeout))
    ensures !OwnedBy(Owners(Next(s, Drain(1, 2, now, timeout))), Chunk(2, 0, 0))
  {
    steps, s := TrioRun(now, timeout);
    TrioShrinks(s, now, timeout);
    ShrunkLosesLast(s, now, timeout);
    w := Find(s.head.zones, 2).value;
  }
}
