/**
 Runs of the whole system from its base zone that lose an entity, one for each way the guarantee of `Joint` can end.
 */
module JointRuns {
  import opened Geometry
  import opened Topology
  import opened Roster
  import opened Handoff
  import opened HandoffProtocol
  import opened Joint
  import opened ClusterRuns
  import Cluster

  type Zones = map<int, HandoffProtocol.Zone>

  /** The whole system, with the handoff routed as the head's record says. */
  ghost function Both(cs: Cluster.State, zones: Zones, history: set<Entity>, next: nat): Joint.State {
    Joint.State(cs, HandoffProtocol.State(zones, RouteTable(cs.head), history, next))
  }

  /** As it starts: one zone, not yet heard of. */
  ghost function Start(base: Box): Joint.State { Joint.State(Base(base), START) }

  ghost predicate Reaches(base: Box, moves: seq<Move>, s: Joint.State) {
    Good(Start(base)) && Joint.AllLegal(Start(base), moves) && Joint.Run(Start(base), moves) == s
  }

  ghost predicate Reachable(base: Box, s: Joint.State) { exists moves :: Reaches(base, moves, s) }

  /** The entity was there once; now no zone holds it and no link carries it. */
  ghost predicate Vanished(s: HandoffProtocol.State, u: nat) {
    && u in Live(s.history)
    && forall z :: z in s.zones ==>
         && u !in s.zones[z].held
         && (forall i :: 0 <= i < |s.zones[z].up| && s.zones[z].up[i].UpEntity? ==> s.zones[z].up[i].entity.uuid != u)
         && (forall i :: 0 <= i < |s.zones[z].down| && s.zones[z].down[i].DownEntity? ==>
               s.zones[z].down[i].entity.uuid != u)
  }

  lemma VanishedIsLost(s: HandoffProtocol.State, u: nat)
    requires Vanished(s, u)
    ensures !NothingLost(s)
  {
    if c :| Safe(s, u, c) {
      if c.In? {
        var i := NotAwayIsSent(s.zones[c.z].down, u);
      }
    }
  }

  // ------------------------------------------------------------------------------------------------
  // Going on
  // ------------------------------------------------------------------------------------------------

  lemma StartIsReachable(base: Box)
    requires base.NonEmpty() && InLimits(base)
    ensures Good(Start(base)) && Reachable(base, Start(base))
  {
    Cluster.BaseZoneTiles(1, base);
    assert RouteTable(EMPTY_HEAD) == imap[];
    StartIsOk();
    assert Reaches(base, [], Start(base));
  }

  lemma {:induction false} RunSnoc(s: Joint.State, moves: seq<Move>, m: Move)
    requires Good(s) && Joint.AllLegal(s, moves) && Good(Joint.Run(s, moves)) && Joint.Legal(Joint.Run(s, moves), m)
    ensures Joint.AllLegal(s, moves + [m]) && Joint.Run(s, moves + [m]) == Joint.Next(Joint.Run(s, moves), m)
    decreases |moves|
  {
    if moves == [] {
      RunOne(s, m);
      assert moves + [m] == [m];
    } else {
      var t := RunHead(s, moves);
      RunSnoc(t, moves[1..], m);
      RunCons(s, moves[0], t, moves[1..] + [m]);
      assert moves + [m] == [moves[0]] + (moves[1..] + [m]);
    }
  }

  lemma RunOne(s: Joint.State, m: Move)
    requires Good(s) && Joint.Legal(s, m)
    ensures Joint.AllLegal(s, [m]) && Joint.Run(s, [m]) == Joint.Next(s, m)
  {
    NextIsGood(s, m);
    assert [m][1..] == [];
  }

  lemma RunHead(s: Joint.State, moves: seq<Move>) returns (t: Joint.State)
    requires Good(s) && moves != [] && Joint.AllLegal(s, moves)
    ensures Joint.Legal(s, moves[0]) && t == Joint.Next(s, moves[0])
    ensures Good(t) && Joint.AllLegal(t, moves[1..]) && Joint.Run(s, moves) == Joint.Run(t, moves[1..])
  {
    NextIsGood(s, moves[0]);
    t := Joint.Next(s, moves[0]);
  }

  lemma RunCons(s: Joint.State, m: Move, t: Joint.State, rest: seq<Move>)
    requires Good(s) && Joint.Legal(s, m) && t == Joint.Next(s, m) && Good(t) && Joint.AllLegal(t, rest)
    ensures Joint.AllLegal(s, [m] + rest) && Joint.Run(s, [m] + rest) == Joint.Run(t, rest)
  {
    assert ([m] + rest)[1..] == rest;
  }

  lemma {:induction false} RunIsGood(s: Joint.State, moves: seq<Move>)
    requires Good(s) && Joint.AllLegal(s, moves)
    ensures Good(Joint.Run(s, moves))
    decreases |moves|
  {
    if moves != [] {
      NextIsGood(s, moves[0]);
      RunIsGood(Joint.Next(s, moves[0]), moves[1..]);
    }
  }

  lemma ReachableIsGood(base: Box, s: Joint.State)
    requires Reachable(base, s)
    ensures Good(s)
  {
    var moves :| Reaches(base, moves, s);
    RunIsGood(Start(base), moves);
  }

  lemma Onward(base: Box, s: Joint.State, m: Move)
    requires Reachable(base, s) && Joint.Legal(s, m)
    ensures Good(s) && Reachable(base, Joint.Next(s, m))
  {
    ReachableIsGood(base, s);
    var moves :| Reaches(base, moves, s);
    RunSnoc(Start(base), moves, m);
    assert Reaches(base, moves + [m], Joint.Next(s, m));
  }

  /** A packet of the handoff that acknowledges nothing leaves the topology alone. */
  lemma OnWire(base: Box, cs: Cluster.State, zones: Zones, history: set<Entity>, next: nat, p: HandoffProtocol.Step)
    returns (t: HandoffProtocol.State)
    requires Reachable(base, Both(cs, zones, history, next))
    requires Joint.Legal(Both(cs, zones, history, next), Wire(p, 0))
    requires !Acknowledges(Both(cs, zones, history, next).handoff, p)
    ensures t == HandoffProtocol.Next(Both(cs, zones, history, next).handoff, p)
    ensures Reachable(base, Both(cs, t.zones, t.history, t.nextId))
  {
    var s := Both(cs, zones, history, next);
    Onward(base, s, Wire(p, 0));
    t := HandoffProtocol.Next(s.handoff, p);
    NextIsGood(s, Wire(p, 0));
    assert Joint.Next(s, Wire(p, 0)) == Both(cs, t.zones, t.history, t.nextId);
  }

  // ------------------------------------------------------------------------------------------------
  // Runs of the topology are runs of the system
  // ------------------------------------------------------------------------------------------------

  /** Whoever was started since has joined. */
  ghost function JoinedBy(zones: Zones, started: set<int>): Zones {
    map fd | fd in started :: if fd in zones then zones[fd] else JOINED
  }

  lemma PlainReached(base: Box, s: Joint.State, step: Cluster.Step)
    requires Reachable(base, s) && Joint.Legal(s, Move.Topology(step)) && (step.Split? || Cluster.Quiet(step))
    ensures var t := Cluster.Next(s.cluster, step);
            Reachable(base, Both(t, s.handoff.zones, s.handoff.history, s.handoff.nextId))
  {
    Onward(base, s, Move.Topology(step));
    NextIsGood(s, Move.Topology(step));
  }

  /** One split or quiet move of the topology; the child of a split joins at once. */
  lemma OnTopology(base: Box, cs: Cluster.State, zones: Zones, history: set<Entity>, next: nat, step: Cluster.Step)
    requires Reachable(base, Both(cs, zones, history, next)) && zones.Keys == cs.nodes.Keys
    requires Cluster.Legal(cs, step) && (step.Split? || Cluster.Quiet(step))
    ensures var t := Cluster.Next(cs, step); Reachable(base, Both(t, JoinedBy(zones, t.nodes.Keys), history, next))
  {
    var s, t := Both(cs, zones, history, next), Cluster.Next(cs, step);
    PlainReached(base, s, step);
    if step.Split? {
      OnJoin(base, t, zones, history, next, step.child);
      assert zones[step.child := JOINED] == JoinedBy(zones, t.nodes.Keys);
    } else {
      assert zones == JoinedBy(zones, t.nodes.Keys);
    }
  }

  lemma OnJoin(base: Box, cs: Cluster.State, zones: Zones, history: set<Entity>, next: nat, fd: int)
    requires Reachable(base, Both(cs, zones, history, next)) && fd in cs.nodes && fd !in zones
    ensures Reachable(base, Both(cs, zones[fd := JOINED], history, next))
  {
    var t := OnWire(base, cs, zones, history, next, Join(fd));
  }

  lemma {:induction false} OnPlain(
    base: Box, cs: Cluster.State, zones: Zones, history: set<Entity>, next: nat, steps: seq<Cluster.Step>)
    requires Reachable(base, Both(cs, zones, history, next)) && zones.Keys == cs.nodes.Keys
    requires Plain(steps) && Cluster.AllLegal(cs, steps)
    ensures var t := Cluster.Run(cs, steps); Reachable(base, Both(t, JoinedBy(zones, t.nodes.Keys), history, next))
    decreases |steps|
  {
    if steps == [] {
      assert zones == JoinedBy(zones, cs.nodes.Keys);
    } else {
      var t := Cluster.Next(cs, steps[0]);
      OnTopology(base, cs, zones, history, next, steps[0]);
      OnPlain(base, t, JoinedBy(zones, t.nodes.Keys), history, next, steps[1..]);
      NodesStay(cs, steps);
      NodesStay(t, steps[1..]);
      JoinedTwice(zones, t.nodes.Keys, Cluster.Run(cs, steps).nodes.Keys);
    }
  }

  lemma JoinedTwice(zones: Zones, a: set<int>, b: set<int>)
    requires zones.Keys <= a <= b
    ensures JoinedBy(JoinedBy(zones, a), b) == JoinedBy(zones, b)
  {
  }

  lemma {:induction false} NodesStay(cs: Cluster.State, steps: seq<Cluster.Step>)
    requires Cluster.AllLegal(cs, steps)
    ensures cs.nodes.Keys <= Cluster.Run(cs, steps).nodes.Keys
    decreases |steps|
  {
    if steps != [] {
      NodesStay(Cluster.Next(cs, steps[0]), steps[1..]);
    }
  }

  /** Every state the topology reaches by splits and quiet moves is reached with all zones joined and idle. */
  lemma ReachedTogether(base: Box, steps: seq<Cluster.Step>, cs: Cluster.State)
    requires base.NonEmpty() && InLimits(base) && Reached(base, steps, cs)
    ensures Reachable(base, Both(cs, JoinedBy(map[], cs.nodes.Keys), {}, 1))
  {
    StartIsReachable(base);
    assert RouteTable(EMPTY_HEAD) == imap[];
    assert Start(base) == Both(Base(base), map[], {}, 1);
    var zones := map[][1 := JOINED];
    OnJoin(base, Base(base), map[], {}, 1, 1);
    OnPlain(base, Base(base), zones, {}, 1, steps);
    assert JoinedBy(zones, cs.nodes.Keys) == JoinedBy(map[], cs.nodes.Keys);
  }

  // ------------------------------------------------------------------------------------------------
  // Single moves
  // ------------------------------------------------------------------------------------------------

  lemma OnUpdate(base: Box, cs: Cluster.State, zones: Zones, history: set<Entity>, next: nat, z: int, e: Entity)
    requires Reachable(base, Both(cs, zones, history, next)) && z in zones && zones[z].phase != Gone
    ensures Reachable(base, Both(cs, zones[z := Updated(zones[z], e)], history + {e}, next))
  {
    var t := OnWire(base, cs, zones, history, next, Update(z, e));
  }

  lemma OnHand(base: Box, cs: Cluster.State, zones: Zones, history: set<Entity>, next: nat, z: int, e: Entity)
    requires Reachable(base, Both(cs, zones, history, next)) && z in zones && zones[z].phase != Gone
    requires e.uuid in zones[z].held && e in history
    ensures Reachable(base, Both(cs, zones[z := zones[z].(up := zones[z].up + Offer(e))], history, next))
  {
    assert Offers([e]) == Offer(e) by { assert [e][..0] == []; }
    var t := OnWire(base, cs, zones, history, next, Hand(z, [e]));
  }

  lemma OnRead(
    base: Box, cs: Cluster.State, zones: Zones, history: set<Entity>, next: nat, z: int, order: seq<Entity>)
    requires Reachable(base, Both(cs, zones, history, next)) && z in zones && zones[z].phase != Gone
    requires zones[z].down != [] && (zones[z].down[0].DownDrain? ==> Publishes(zones[z].held, zones[z].leased, order))
    ensures Reachable(base, Both(cs, zones[z := ZoneReads(zones[z], order)], history, next))
  {
    var t := OnWire(base, cs, zones, history, next, ZoneTakes(z, order));
  }

  /** The head reads a state on a chunk it routes to nobody. */
  lemma OnDropped(base: Box, cs: Cluster.State, zones: Zones, history: set<Entity>, next: nat, z: int, e: Entity)
    requires Reachable(base, Both(cs, zones, history, next)) && z in zones && zones[z].up != []
    requires zones[z].up[0] == UpEntity(e) && cs.head.Route(e.spot.chunk).None?
    ensures Reachable(base, Both(cs, zones[z := zones[z].(up := zones[z].up[1..])], history, next))
  {
    var t := OnWire(base, cs, zones, history, next, HeadTakes(z));
    assert t.zones == zones[z := zones[z].(up := zones[z].up[1..])];
  }

  /** The head reads a request and names the owner of the chunk. */
  lemma OnRouted(base: Box, cs: Cluster.State, zones: Zones, history: set<Entity>, next: nat, z: int, e: Entity, y: int)
    requires Reachable(base, Both(cs, zones, history, next)) && z in zones && zones[z].up != [] && y in zones && y != z
    requires zones[z].up[0] == UpReassign(e.uuid, e.spot.chunk)
    requires cs.head.Route(e.spot.chunk).Some? && cs.head.Route(e.spot.chunk).value.fd == y
    ensures Reachable(base, Both(cs, Routed(zones, z, e.uuid, y), history, next))
  {
    var t := OnWire(base, cs, zones, history, next, HeadTakes(z));
    RoutedZones(Both(cs, zones, history, next).handoff, z, e, y);
  }

  lemma RoutedZones(s: HandoffProtocol.State, z: int, e: Entity, y: int)
    requires z in s.zones && s.zones[z].up != [] && y in s.zones && y != z
    requires s.zones[z].up[0] == UpReassign(e.uuid, e.spot.chunk)
    requires e.spot.chunk in s.route && s.route[e.spot.chunk] == y
    ensures HeadReads(s, z).zones == Routed(s.zones, z, e.uuid, y)
  {
    forall x | x in s.zones ensures HeadLeaves(s, z, x) == Routed(s.zones, z, e.uuid, y)[x] {
    }
  }

  ghost function Routed(zones: Zones, z: int, u: nat, y: int): Zones
    requires z in zones && y in zones && zones[z].up != []
  {
    zones[y := zones[y].(down := zones[y].down + [DownReassign(u)])]
    [z := zones[z].(up := zones[z].up[1..], down := zones[z].down + [DownAnswer(u, true)])]
  }

  /** The head reads the confirmation of a drain. */
  lemma OnConfirmed(base: Box, cs: Cluster.State, zones: Zones, history: set<Entity>, next: nat, z: int)
    requires Reachable(base, Both(cs, zones, history, next)) && z in zones && zones[z].up != []
    requires zones[z].up[0].UpDrained?
    ensures z in cs.nodes
    ensures var t := Cluster.Next(cs, Cluster.Ack(z, zones[z].up[0].id, 0));
            Reachable(base, Both(t, zones[z := AfterConfirming(zones[z])], history, next))
  {
    var s, m := Both(cs, zones, history, next), Wire(HeadTakes(z), 0);
    Onward(base, s, m);
    ConfirmedZones(s.handoff, z);
    WireAgrees(cs, s.handoff, HeadTakes(z), 0);
  }

  lemma ConfirmedZones(s: HandoffProtocol.State, z: int)
    requires z in s.zones && s.zones[z].up != [] && s.zones[z].up[0].UpDrained?
    ensures HeadReads(s, z).zones == s.zones[z := AfterConfirming(s.zones[z])]
  {
    forall y | y in s.zones ensures HeadLeaves(s, z, y) == if y == z then AfterConfirming(s.zones[z]) else s.zones[y] {
    }
  }

  function AfterConfirming(zone: HandoffProtocol.Zone): HandoffProtocol.Zone
    requires zone.up != []
  {
    var after := zone.(up := zone.up[1..], phase := Confirmed(zone));
    if after.phase == zone.phase then after else after.(down := zone.down + [DownDelete])
  }

  lemma OnDrain(base: Box, cs: Cluster.State, zones: Zones, history: set<Entity>, next: nat, v: int, w: int)
    requires Reachable(base, Both(cs, zones, history, next)) && Cluster.Legal(cs, Cluster.Drain(v, w, 0, 0))
    ensures v in zones && zones[v].phase == Serving
    ensures var t := Cluster.Next(cs, Cluster.Drain(v, w, 0, 0));
            Reachable(base, Both(t, zones[v := Retired(zones[v], next)], history, next + 1))
  {
    var s, m := Both(cs, zones, history, next), Move.Topology(Cluster.Drain(v, w, 0, 0));
    Onward(base, s, m);
    NextIsGood(s, m);
  }

  lemma OnExpiry(base: Box, cs: Cluster.State, zones: Zones, history: set<Entity>, next: nat, z: int, now: int)
    requires Reachable(base, Both(cs, zones, history, next)) && z in cs.nodes && Cluster.Expires(cs.head, z, now)
    ensures z in zones
    ensures var t := Cluster.Next(cs, Cluster.Expire(z, now));
            Reachable(base, Both(t, zones[z := zones[z].(phase := Serving)], history, next))
  {
    var s, m := Both(cs, zones, history, next), Move.Topology(Cluster.Expire(z, now));
    Onward(base, s, m);
    NextIsGood(s, m);
  }

  lemma OnMiss(base: Box, cs: Cluster.State, zones: Zones, history: set<Entity>, next: nat, c: Chunk)
    requires Reachable(base, Both(cs, zones, history, next))
    ensures Reachable(base, Both(Cluster.Next(cs, Cluster.Miss(c)), zones, history, next))
  {
    var s, m := Both(cs, zones, history, next), Move.Topology(Cluster.Miss(c));
    Onward(base, s, m);
    NextIsGood(s, m);
  }

  // ------------------------------------------------------------------------------------------------
  // A split between a request and the state behind it
  // ------------------------------------------------------------------------------------------------

  const ROW: Box := Box(Range(0, 2), Range(0, 0), Range(0, 0))
  const NEAR: Box := Box(Range(0, 0), Range(0, 0), Range(0, 0))
  const FAR: Box := Box(Range(1, 2), Range(0, 0), Range(0, 0))
  const EDGE: Chunk := Chunk(2, 0, 0)

  const PAIR: Zones := map[1 := JOINED, 2 := JOINED]

  /** Two idle zones, after one split of a base zone. */
  lemma SplitBase(base: Box, axis: Axis, cut: int, m: map<int, Box>) returns (cs: Cluster.State)
    requires base.NonEmpty() && InLimits(base) && Halves(map[1 := base], 1, axis, cut, 2, m)
    ensures Caught(base, cs, m) && cs.nodes.Keys == {1, 2} && Reachable(base, Both(cs, PAIR, {}, 1))
  {
    var steps, t := SplitCaught(base, axis, cut, m);
    cs := t;
    assert JoinedBy(map[], {1, 2}) == PAIR;
    ReachedTogether(base, steps, cs);
  }

  lemma SplitCaught(base: Box, axis: Axis, cut: int, m: map<int, Box>) returns (steps: seq<Cluster.Step>,
                                                                                cs: Cluster.State)
    requires base.NonEmpty() && InLimits(base) && Halves(map[1 := base], 1, axis, cut, 2, m)
    ensures Reached(base, steps, cs) && Caught(base, cs, m) && cs.nodes.Keys == {1, 2}
  {
    var first, s := BaseCaught(base);
    steps, cs := SplitAndSync(base, first, s, map[1 := base], 1, axis, cut, 2, m);
  }

  lemma EdgeIsRouted(cs: Cluster.State)
    requires Caught(ROW, cs, map[1 := NEAR, 2 := FAR])
    ensures cs.head.Route(EDGE).Some? && cs.head.Route(EDGE).value.fd == 2
  {
    Cluster.RoutingIsExact(cs, Within(ROW), EDGE);
    var m := Cluster.Owners(cs);
    assert m == map[1 := NEAR, 2 := FAR] && 2 in m && m[2].Has(EDGE);
  }

  /** Zone 1 was told to let go of `e`; the state is still on its way to the head. */
  function LettingGo(e: Entity, up: seq<Up>): Zones { Holding(e, up, [DownAnswer(e.uuid, true)], JOINED) }

  function Named(e: Entity): HandoffProtocol.Zone { JOINED.(down := [DownReassign(e.uuid)]) }

  function Holding(e: Entity, up: seq<Up>, down: seq<Down>, two: HandoffProtocol.Zone): Zones {
    map[1 := Holder(e, up, down), 2 := two]
  }

  lemma HoldingZones(e: Entity)
    ensures PAIR[1 := Updated(PAIR[1], e)] == Holding(e, [], [], JOINED) && {} + {e} == {e}
    ensures var zones := Holding(e, [], [], JOINED);
            zones[1 := zones[1].(up := zones[1].up + Offer(e))] == Holding(e, Offer(e), [], JOINED)
    ensures Routed(Holding(e, Offer(e), [], JOINED), 1, e.uuid, 2) == LettingGo(e, [UpEntity(e)])[2 := Named(e)]
  {
    assert Updated(JOINED, e) == Holder(e, [], []);
    assert Holder(e, [] + Offer(e), []) == Holder(e, Offer(e), []) && Offer(e)[1..] == [UpEntity(e)];
    assert [] + [DownAnswer(e.uuid, true)] == [DownAnswer(e.uuid, true)];
    assert [] + [DownReassign(e.uuid)] == [DownReassign(e.uuid)];
  }

  /** Zone 1 is given an entity on the far chunk. */
  lemma EntityWalksOut(e: Entity) returns (cs: Cluster.State)
    ensures Caught(ROW, cs, map[1 := NEAR, 2 := FAR]) && cs.nodes.Keys == {1, 2}
    ensures Reachable(ROW, Both(cs, Holding(e, [], [], JOINED), {e}, 1))
  {
    cs := SplitBase(ROW, AxisX, 0, map[1 := NEAR, 2 := FAR]);
    HoldingZones(e);
    OnUpdate(ROW, cs, PAIR, {}, 1, 1, e);
  }

  lemma EntityIsOffered(e: Entity) returns (cs: Cluster.State)
    ensures Caught(ROW, cs, map[1 := NEAR, 2 := FAR]) && cs.nodes.Keys == {1, 2}
    ensures Reachable(ROW, Both(cs, Holding(e, Offer(e), [], JOINED), {e}, 1))
  {
    cs := EntityWalksOut(e);
    HoldingZones(e);
    OnHand(ROW, cs, Holding(e, [], [], JOINED), {e}, 1, 1, e);
  }

  /** The head names zone 2 its owner. */
  lemma OfferIsRouted(e: Entity) returns (cs: Cluster.State)
    requires e.spot.chunk == EDGE
    ensures Caught(ROW, cs, map[1 := NEAR, 2 := FAR]) && cs.nodes.Keys == {1, 2}
    ensures Reachable(ROW, Both(cs, LettingGo(e, [UpEntity(e)])[2 := Named(e)], {e}, 1))
  {
    cs := EntityIsOffered(e);
    EdgeIsRouted(cs);
    HoldingZones(e);
    OnRouted(ROW, cs, Holding(e, Offer(e), [], JOINED), {e}, 1, 1, e, 2);
  }

  /** Zone 2 reads that, and has nothing to lease yet. */
  lemma OwnerIsTold(e: Entity) returns (cs: Cluster.State)
    requires e.spot.chunk == EDGE
    ensures Caught(ROW, cs, map[1 := NEAR, 2 := FAR]) && cs.nodes.Keys == {1, 2}
    ensures Reachable(ROW, Both(cs, LettingGo(e, [UpEntity(e)]), {e}, 1))
  {
    cs := OfferIsRouted(e);
    NamedReads(e);
    OnRead(ROW, cs, LettingGo(e, [UpEntity(e)])[2 := Named(e)], {e}, 1, 2, []);
  }

  lemma NamedReads(e: Entity)
    ensures ZoneReads(Named(e), []) == JOINED
    ensures var zones := LettingGo(e, [UpEntity(e)]); zones[2 := Named(e)][2 := JOINED] == zones
  {
    assert [DownReassign(e.uuid)][1..] == [];
  }

  /** Zone 2 can split, resize and report before its child has. */
  lemma WindowOpens(before: Cluster.State) returns (steps: seq<Cluster.Step>)
    requires Caught(ROW, before, map[1 := NEAR, 2 := FAR]) && before.nodes.Keys == {1, 2}
    ensures Plain(steps) && Cluster.AllLegal(before, steps)
    ensures Cluster.Run(before, steps).head.Route(EDGE).None? && Cluster.Run(before, steps).nodes.Keys == {1, 2, 3}
  {
    var split := Cluster.Step.Split(2, AxisX, 1, 2, 3);
    SplitAllowed(ROW, before, map[1 := NEAR, 2 := FAR], 2, AxisX, 1, 3);
    var quiet := SplitWindow(before, 2, AxisX, 1, 3, Within(ROW), EDGE);
    Cluster.RunCons(before, split, quiet);
    steps := [split] + quiet;
    AwaitedIsUnrouted(Cluster.Run(before, steps), 3, EDGE);
    NodesOfSplit(before, split, quiet);
  }

  lemma SplitInBetween(e: Entity) returns (cs: Cluster.State)
    requires e.spot.chunk == EDGE
    ensures cs.head.Route(EDGE).None? && Reachable(ROW, Both(cs, LettingGo(e, [UpEntity(e)])[3 := JOINED], {e}, 1))
  {
    var before := OwnerIsTold(e);
    cs := OnWindow(before, LettingGo(e, [UpEntity(e)]), {e});
  }

  lemma OnWindow(before: Cluster.State, zones: Zones, history: set<Entity>) returns (cs: Cluster.State)
    requires Caught(ROW, before, map[1 := NEAR, 2 := FAR]) && zones.Keys == before.nodes.Keys == {1, 2}
    requires Reachable(ROW, Both(before, zones, history, 1))
    ensures cs.head.Route(EDGE).None? && Reachable(ROW, Both(cs, zones[3 := JOINED], history, 1))
  {
    var steps := WindowOpens(before);
    cs := Cluster.Run(before, steps);
    OnThree(before, zones, history, steps);
  }

  lemma OnThree(before: Cluster.State, zones: Zones, history: set<Entity>, steps: seq<Cluster.Step>)
    requires Reachable(ROW, Both(before, zones, history, 1)) && zones.Keys == before.nodes.Keys == {1, 2}
    requires Plain(steps) && Cluster.AllLegal(before, steps) && Cluster.Run(before, steps).nodes.Keys == {1, 2, 3}
    ensures Reachable(ROW, Both(Cluster.Run(before, steps), zones[3 := JOINED], history, 1))
  {
    assert JoinedBy(zones, {1, 2, 3}) == zones[3 := JOINED];
    OnPlain(ROW, before, zones, history, 1, steps);
  }

  lemma NodesOfSplit(cs: Cluster.State, split: Cluster.Step, quiet: seq<Cluster.Step>)
    requires cs.nodes.Keys == {1, 2} && split.Split? && split.child == 3 && Cluster.AllLegal(cs, [split] + quiet)
    requires forall i :: 0 <= i < |quiet| ==> Cluster.Quiet(quiet[i])
    ensures Cluster.Run(cs, [split] + quiet).nodes.Keys == {1, 2, 3}
  {
    assert ([split] + quiet)[1..] == quiet;
    QuietKeepsNodes(Cluster.Next(cs, split), quiet);
  }

  lemma {:induction false} QuietKeepsNodes(cs: Cluster.State, quiet: seq<Cluster.Step>)
    requires Cluster.AllLegal(cs, quiet) && forall i :: 0 <= i < |quiet| ==> Cluster.Quiet(quiet[i])
    ensures Cluster.Run(cs, quiet).nodes.Keys == cs.nodes.Keys
    decreases |quiet|
  {
    if quiet != [] {
      QuietKeepsNodes(Cluster.Next(cs, quiet[0]), quiet[1..]);
    }
  }

  /**
   From a base zone: an entity is offered, the head routes the request, the zone it names splits, and the state behind
   the request falls into the window of that split. The zone that offered it lets go, and it is nowhere.
   */
  lemma SplitBetweenLoses(e: Entity) returns (s: Joint.State, t: Joint.State)
    requires e.spot.chunk == EDGE
    ensures Reachable(ROW, s) && Good(s) && NothingLost(s.handoff)
    ensures Joint.Legal(s, Wire(HeadTakes(1), 0)) && !NothingLost(Joint.Next(s, Wire(HeadTakes(1), 0)).handoff)
    ensures Reachable(ROW, t) && Vanished(t.handoff, e.uuid) && !NothingLost(t.handoff) && t.cluster == s.cluster
  {
    var cs := SplitInBetween(e);
    s := Both(cs, LettingGo(e, [UpEntity(e)])[3 := JOINED], {e}, 1);
    ReachableIsGood(ROW, s);
    LastIsHarmful(s, e);
    t := LetGoOfAll(cs, e);
    VanishedIsLost(t.handoff, e.uuid);
  }

  lemma LetGoOfAll(cs: Cluster.State, e: Entity) returns (t: Joint.State)
    requires e.spot.chunk == EDGE && cs.head.Route(EDGE).None?
    requires Reachable(ROW, Both(cs, LettingGo(e, [UpEntity(e)])[3 := JOINED], {e}, 1))
    ensures Reachable(ROW, t) && Vanished(t.handoff, e.uuid) && t.cluster == cs
  {
    var zones, dropped := LettingGo(e, [UpEntity(e)])[3 := JOINED], LettingGo(e, [])[3 := JOINED];
    assert Holder(e, [UpEntity(e)][1..], [DownAnswer(e.uuid, true)]) == Holder(e, [], [DownAnswer(e.uuid, true)]);
    assert zones[1 := zones[1].(up := zones[1].up[1..])] == dropped;
    OnDropped(ROW, cs, zones, {e}, 1, 1, e);
    var after := dropped[1 := ZoneReads(dropped[1], [])];
    t := Both(cs, after, {e}, 1);
    NowhereAtAll(t.handoff, e);
    OnRead(ROW, cs, dropped, {e}, 1, 1, []);
  }

  lemma NowhereAtAll(s: HandoffProtocol.State, e: Entity)
    requires s.history == {e}
    requires var dropped := LettingGo(e, [])[3 := JOINED]; s.zones == dropped[1 := ZoneReads(dropped[1], [])]
    ensures Vanished(s, e.uuid)
  {
    assert e.uuid in Live(s.history);
  }

  lemma LastIsHarmful(s: Joint.State, e: Entity)
    requires Good(s) && s.handoff.history == {e}
    requires s.handoff.zones == LettingGo(e, [UpEntity(e)])[3 := JOINED] && e.spot.chunk !in s.handoff.route
    ensures NothingLost(s.handoff)
    ensures Joint.Legal(s, Wire(HeadTakes(1), 0)) && !NothingLost(Joint.Next(s, Wire(HeadTakes(1), 0)).handoff)
  {
    LastIsRead(s.handoff, e);
    MoveLosesNothingIff(s, Wire(HeadTakes(1), 0));
  }

  lemma LastIsRead(s: HandoffProtocol.State, e: Entity)
    requires s.zones == LettingGo(e, [UpEntity(e)])[3 := JOINED] && s.history == {e} && e.spot.chunk !in s.route
    ensures NothingLost(s) && HandoffProtocol.Legal(s, HeadTakes(1)) && !Harmless(s, HeadTakes(1))
  {
    OnlyOnLink(s, e);
    assert s.zones[1].up == [UpEntity(e)];
  }

  lemma OnlyOnLink(s: HandoffProtocol.State, e: Entity)
    requires s.zones == LettingGo(e, [UpEntity(e)])[3 := JOINED] && s.history == {e}
    ensures NothingLost(s) && !SafeBeside(s, OnUp(1, 0), e.uuid)
  {
    assert Live({e}) == {e.uuid} && Safe(s, e.uuid, OnUp(1, 0));
    ReleasedFates(e);
    assert s.zones[1] == Holder(e, [UpEntity(e)], [DownAnswer(e.uuid, true)]);
    assert s.zones[2] == JOINED && s.zones[3] == JOINED;
  }

  lemma ReleasedFates(e: Entity)
    ensures FateOf(Holder(e, [UpEntity(e)], [DownAnswer(e.uuid, true)]), e.uuid) == Away
    ensures FateOf(JOINED, e.uuid) == Away
  {
    assert [DownAnswer(e.uuid, true)] == [] + [DownAnswer(e.uuid, true)];
    TurnsSnoc(Leased, [], DownAnswer(e.uuid, true), e.uuid);
  }

  // ------------------------------------------------------------------------------------------------
  // A creation after the drain was answered
  // ------------------------------------------------------------------------------------------------

  const PILLAR: Box := Box(Range(0, 0), Range(0, 1), Range(0, 0))
  const LOWER: Box := Box(Range(0, 0), Range(0, 0), Range(0, 0))
  const UPPER: Box := Box(Range(0, 0), Range(1, 1), Range(0, 0))
  const MERGE: Cluster.Step := Cluster.Drain(2, 1, 0, 0)

  /** Zone 2, on a quiet link but for what it has sent. */
  function Leaving(held: map<nat, Entity>, up: seq<Up>, phase: Phase): HandoffProtocol.Zone {
    HandoffProtocol.Zone(held, {}, up, [], phase)
  }

  /** It has answered that drain. */
  function Answered(held: map<nat, Entity>, id: nat): HandoffProtocol.Zone {
    Leaving(held, [UpDrained(id)], Phase.Draining(id))
  }

  lemma PillarMerges(cs: Cluster.State)
    requires Caught(PILLAR, cs, map[1 := LOWER, 2 := UPPER])
    ensures Cluster.Legal(cs, MERGE) && Cluster.InSync(cs, 1) && Cluster.InSync(cs, 2)
    ensures cs.nodes[1].Target() == LOWER && cs.nodes[2].Target() == UPPER
  {
    var m := Cluster.Owners(cs);
    assert m == map[1 := LOWER, 2 := UPPER];
    assert 1 in m && m[1] == LOWER && cs.nodes[1].Target() == m[1];
    assert 2 in m && m[2] == UPPER && cs.nodes[2].Target() == m[2];
  }

  /** A zone that is drained with nothing under a lease confirms at once. */
  lemma Confirms(base: Box, cs: Cluster.State, zones: Zones, history: set<Entity>, next: nat, held: map<nat, Entity>)
    requires Reachable(base, Both(cs, zones, history, next)) && Cluster.Legal(cs, MERGE)
    requires 2 in zones && zones[2] == Leaving(held, [], Serving)
    ensures var t := Cluster.Next(cs, MERGE);
            Reachable(base, Both(t, zones[2 := Answered(held, next)], history, next + 1))
  {
    OnDrain(base, cs, zones, history, next, 2, 1);
    ReadsDrain(base, Cluster.Next(cs, MERGE), zones, history, next + 1, held, next);
  }

  lemma ReadsDrain(base: Box, cs: Cluster.State, zones: Zones, history: set<Entity>, next: nat, held: map<nat, Entity>,
                   id: nat)
    requires Reachable(base, Both(cs, zones[2 := Retired(Leaving(held, [], Serving), id)], history, next))
    ensures Reachable(base, Both(cs, zones[2 := Answered(held, id)], history, next))
  {
    var drained := zones[2 := Retired(Leaving(held, [], Serving), id)];
    ConfirmsAtOnce(held, id);
    OnRead(base, cs, drained, history, next, 2, []);
    assert drained[2 := Answered(held, id)] == zones[2 := Answered(held, id)];
  }

  lemma ConfirmsAtOnce(held: map<nat, Entity>, id: nat)
    ensures var drained := Retired(Leaving(held, [], Serving), id);
            && drained.down != [] && drained.down[0].DownDrain? && Publishes(held, {}, [])
            && ZoneReads(drained, []) == Answered(held, id)
  {
    assert [] + Publication([], id) == [UpDrained(id)] && ([] + [DownDrain(id)])[1..] == [];
  }

  /** The head reads the confirmation, the zone is told to exit and does. */
  lemma Exits(base: Box, cs: Cluster.State, zones: Zones, history: set<Entity>, next: nat, id: nat)
    returns (t: Cluster.State)
    requires Reachable(base, Both(cs, zones, history, next)) && 2 in zones
    requires zones[2].up == [UpDrained(id)] && zones[2].down == [] && zones[2].phase == Phase.Draining(id)
    ensures Reachable(base, Both(t, zones[2 := Leaving(map[], [], Gone)], history, next))
  {
    OnConfirmed(base, cs, zones, history, next, 2);
    t := Cluster.Next(cs, Cluster.Ack(2, id, 0));
    var closing := zones[2 := AfterConfirming(zones[2])];
    ExitsAtOnce(zones[2], id);
    OnRead(base, t, closing, history, next, 2, []);
    assert closing[2 := ZoneReads(closing[2], [])] == zones[2 := Leaving(map[], [], Gone)];
  }

  lemma ExitsAtOnce(zone: HandoffProtocol.Zone, id: nat)
    requires zone.up == [UpDrained(id)] && zone.down == [] && zone.phase == Phase.Draining(id)
    ensures var closing := AfterConfirming(zone);
            && closing.phase == Closing && closing.down == [DownDelete]
            && ZoneReads(closing, []) == Leaving(map[], [], Gone)
  {
    assert [UpDrained(id)][1..] == [] && [] + [DownDelete] == [DownDelete] && [DownDelete][1..] == [];
  }

  lemma NobodyHas(s: HandoffProtocol.State, e: Entity)
    requires s.zones == PAIR[2 := Leaving(map[], [], Gone)] && s.history == {e}
    ensures Vanished(s, e.uuid)
  {
    assert e.uuid in Live(s.history);
  }

  /**
   From a base zone: the upper zone is merged into the lower one, and answers its drain. Then an entity is created in
   it, by an approved action for instance, and the zone exits with it.
   */
  lemma LateCreationLoses(e: Entity) returns (s: Joint.State, t: Joint.State)
    ensures Reachable(PILLAR, s) && Good(s) && NothingLost(s.handoff) && Joint.Legal(s, Wire(Update(2, e), 0))
    ensures !NothingLost(Joint.Next(s, Wire(Update(2, e), 0)).handoff)
    ensures Reachable(PILLAR, t) && Vanished(t.handoff, e.uuid) && !NothingLost(t.handoff)
  {
    var cs := SplitBase(PILLAR, AxisY, 0, map[1 := LOWER, 2 := UPPER]);
    PillarMerges(cs);
    Confirms(PILLAR, cs, PAIR, {}, 1, map[]);
    var answered := PAIR[2 := Answered(map[], 1)];
    s := Both(Cluster.Next(cs, MERGE), answered, {}, 2);
    ReachableIsGood(PILLAR, s);
    LateIsHarmful(s, e);
    t := LateExits(Cluster.Next(cs, MERGE), e);
    VanishedIsLost(t.handoff, e.uuid);
  }

  lemma LateIsHarmful(s: Joint.State, e: Entity)
    requires Good(s) && s.handoff.history == {}
    requires s.handoff.zones == PAIR[2 := Answered(map[], 1)]
    ensures NothingLost(s.handoff) && Joint.Legal(s, Wire(Update(2, e), 0))
    ensures !NothingLost(Joint.Next(s, Wire(Update(2, e), 0)).handoff)
  {
    LateIsLate(s.handoff, e);
    MoveLosesNothingIff(s, Wire(Update(2, e), 0));
  }

  lemma LateIsLate(s: HandoffProtocol.State, e: Entity)
    requires s.zones == PAIR[2 := Answered(map[], 1)] && s.history == {}
    ensures NothingLost(s) && HandoffProtocol.Legal(s, Update(2, e)) && !Harmless(s, Update(2, e))
  {
    assert s.zones[2] == Answered(map[], 1) && Live({}) == {};
  }

  lemma LateExits(cs: Cluster.State, e: Entity) returns (t: Joint.State)
    requires Reachable(PILLAR, Both(cs, PAIR[2 := Answered(map[], 1)], {}, 2))
    ensures Reachable(PILLAR, t) && Vanished(t.handoff, e.uuid)
  {
    OnUpdate(PILLAR, cs, PAIR[2 := Answered(map[], 1)], {}, 2, 2, e);
    UpperAgain(Answered(map[], 1), Updated(Answered(map[], 1), e));
    assert {} + {e} == {e};
    t := PairExits(cs, Updated(Answered(map[], 1), e), e, 2, 1);
  }

  lemma UpperAgain(x: HandoffProtocol.Zone, y: HandoffProtocol.Zone)
    ensures PAIR[2 := x][2] == x && PAIR[2 := x][2 := y] == PAIR[2 := y]
  {
  }

  lemma PairExits(cs: Cluster.State, zone: HandoffProtocol.Zone, e: Entity, next: nat, id: nat)
    returns (t: Joint.State)
    requires Reachable(PILLAR, Both(cs, PAIR[2 := zone], {e}, next))
    requires zone.up == [UpDrained(id)] && zone.down == [] && zone.phase == Phase.Draining(id)
    ensures Reachable(PILLAR, t) && Vanished(t.handoff, e.uuid)
  {
    var last := Exits(PILLAR, cs, PAIR[2 := zone], {e}, next, id);
    UpperAgain(zone, Leaving(map[], [], Gone));
    t := Both(last, PAIR[2 := Leaving(map[], [], Gone)], {e}, next);
    NobodyHas(t.handoff, e);
  }

  // ------------------------------------------------------------------------------------------------
  // A second drain after one that timed out
  // ------------------------------------------------------------------------------------------------

  const ASIDE: Chunk := Chunk(1, 0, 0)

  /** The lower zone has taken over everything, and the upper one is back in service. */
  ghost predicate KnowsPillar(h: Head) {
    && UniqueFds(h.zones) && h.State(1) == Ready && h.State(2) == Ready
    && Find(h.zones, 1).Some? && Find(h.zones, 1).value.box == PILLAR
    && Find(h.zones, 2).Some? && Find(h.zones, 2).value.box == UPPER
    && forall i :: 0 <= i < |h.zones| ==> h.zones[i].fd == 1 || h.zones[i].fd == 2
  }

  ghost predicate KnowsHalves(h: Head) {
    && UniqueFds(h.zones) && h.states == map[]
    && Find(h.zones, 1).Some? && Find(h.zones, 1).value.box == LOWER
    && Find(h.zones, 2).Some? && Find(h.zones, 2).value.box == UPPER
    && forall i :: 0 <= i < |h.zones| ==> h.zones[i].fd == 1 || h.zones[i].fd == 2
  }

  lemma HalvesKnown(cs: Cluster.State)
    requires Caught(PILLAR, cs, map[1 := LOWER, 2 := UPPER]) && cs.nodes.Keys == {1, 2}
    ensures KnowsHalves(cs.head) && Cluster.Legal(cs, MERGE)
  {
    PillarMerges(cs);
  }

  lemma PillarTimesOut(h: Head)
    requires KnowsHalves(h)
    ensures var k := StartDrain(h, 2, 1, 0, 0); Cluster.Expires(k, 2, 1) && KnowsPillar(ExpireDrain(k, 2, 1))
  {
    DrainZones(h, 2, 1, 0, 0);
    assert MergeableAxis(LOWER, UPPER) == Some(AxisY) && Absorb(LOWER, UPPER, AxisY) == PILLAR;
    var z := Find(h.zones, 1).value.(box := PILLAR);
    FindPut(h.zones, z, 1);
    FindPut(h.zones, z, 2);
  }

  /** The chunk beside the pillar is nobody's, and a miss on it stretches the lower zone. */
  lemma PillarStretches(h: Head)
    requires KnowsPillar(h)
    ensures h.Route(ASIDE).None?
    ensures var k := RelocateHead(h, ASIDE);
            && k.Route(ASIDE).Some? && k.Route(ASIDE).value.fd == 1 && k.states == h.states
            && Find(k.zones, 1).Some? && Find(k.zones, 2).Some?
  {
    RouteIsServing(h.states, h.zones, ASIDE);
    forall i | 0 <= i < |h.zones| ensures h.zones[i].box == if h.zones[i].fd == 1 then PILLAR else UPPER {
      FindUnique(h.zones, i);
    }
    RelocationServesMiss(h, ASIDE, ASIDE);
    ChoiceIsLower(h);
    var z := RelocationChoice(h, ASIDE).value;
    FindPut(h.zones, z.(box := Stretch(z.box, ASIDE)), 1);
    FindPut(h.zones, z.(box := Stretch(z.box, ASIDE)), 2);
  }

  lemma ChoiceIsLower(h: Head)
    requires KnowsPillar(h)
    requires forall i :: 0 <= i < |h.zones| ==> h.zones[i].box == if h.zones[i].fd == 1 then PILLAR else UPPER
    ensures RelocationChoice(h, ASIDE).Some? && RelocationChoice(h, ASIDE).value.fd == 1
  {
    var i := FoundAt(h.zones, 1);
    FirstLevelIs(h.states, h.zones, i);
  }

  lemma {:induction false} FirstLevelIs(states: States, zones: seq<Topology.Zone>, i: nat)
    requires i < |zones| && RoutableIn(states, zones[i].fd) && Level(zones[i], ASIDE)
    requires forall j :: 0 <= j < |zones| && zones[j].fd != 1 ==> !Level(zones[j], ASIDE)
    ensures FirstLevel(states, zones, ASIDE).Some? && FirstLevel(states, zones, ASIDE).value.fd == 1
  {
    if !(RoutableIn(states, zones[0].fd) && Level(zones[0], ASIDE)) {
      assert i != 0;
      FirstLevelIs(states, zones[1..], i - 1);
    }
  }

  /** The upper zone holds `e`; the first drain has opened. */
  lemma FirstDrain(e: Entity) returns (cs: Cluster.State)
    ensures Cluster.Expires(cs.head, 2, 1) && KnowsPillar(ExpireDrain(cs.head, 2, 1)) && cs.nodes.Keys == {1, 2}
    ensures Reachable(PILLAR, Both(cs, PAIR[2 := Retired(Holder(e, [], []), 1)], {e}, 2))
  {
    var before := SplitBase(PILLAR, AxisY, 0, map[1 := LOWER, 2 := UPPER]);
    HalvesKnown(before);
    PillarTimesOut(before.head);
    OnUpdate(PILLAR, before, PAIR, {}, 1, 2, e);
    cs := HolderIsDrained(before, e);
  }

  lemma HolderIsDrained(before: Cluster.State, e: Entity) returns (cs: Cluster.State)
    requires Reachable(PILLAR, Both(before, PAIR[2 := Updated(JOINED, e)], {} + {e}, 1))
    requires Cluster.Legal(before, MERGE)
    ensures cs == Cluster.Next(before, MERGE) && cs.nodes.Keys == before.nodes.Keys
    ensures Reachable(PILLAR, Both(cs, PAIR[2 := Retired(Holder(e, [], []), 1)], {e}, 2))
  {
    assert Updated(JOINED, e) == Holder(e, [], []) && {} + {e} == {e};
    UpperAgain(Holder(e, [], []), Retired(Holder(e, [], []), 1));
    OnDrain(PILLAR, before, PAIR[2 := Holder(e, [], [])], {e}, 1, 2, 1);
    cs := Cluster.Next(before, MERGE);
  }

  /** The upper zone has published `e` under its lease; it holds it still. */
  function Publisher(e: Entity, up: seq<Up>, phase: Phase): HandoffProtocol.Zone {
    Leaving(map[e.uuid := e], up, phase)
  }

  lemma PublishesIt(e: Entity)
    ensures var zone, up := Retired(Holder(e, [], []), 1), [UpEntity(e), UpDrained(1)];
            && zone.down != [] && Publishes(zone.held, zone.leased, [e])
            && ZoneReads(zone, [e]) == Publisher(e, up, Phase.Draining(1))
  {
    assert [] + Publication([e], 1) == [UpEntity(e), UpDrained(1)] && ([] + [DownDrain(1)])[1..] == [];
  }

  lemma FirstAnswer(e: Entity) returns (cs: Cluster.State)
    ensures Cluster.Expires(cs.head, 2, 1) && KnowsPillar(ExpireDrain(cs.head, 2, 1)) && cs.nodes.Keys == {1, 2}
    ensures var up := [UpEntity(e), UpDrained(1)];
            Reachable(PILLAR, Both(cs, PAIR[2 := Publisher(e, up, Phase.Draining(1))], {e}, 2))
  {
    cs := FirstDrain(e);
    PublishesIt(e);
    UpperAgain(Retired(Holder(e, [], []), 1), Publisher(e, [UpEntity(e), UpDrained(1)], Phase.Draining(1)));
    OnRead(PILLAR, cs, PAIR[2 := Retired(Holder(e, [], []), 1)], {e}, 2, 2, [e]);
  }

  /** The drain times out: the zone serves again. */
  lemma FirstExpires(e: Entity) returns (cs: Cluster.State)
    ensures KnowsPillar(cs.head) && cs.nodes.Keys == {1, 2}
    ensures Reachable(PILLAR, Both(cs, PAIR[2 := Publisher(e, [UpEntity(e), UpDrained(1)], Serving)], {e}, 2))
  {
    var before := FirstAnswer(e);
    var up := [UpEntity(e), UpDrained(1)];
    UpperAgain(Publisher(e, up, Phase.Draining(1)), Publisher(e, up, Serving));
    OnExpiry(PILLAR, before, PAIR[2 := Publisher(e, up, Phase.Draining(1))], {e}, 2, 2, 1);
    cs := Cluster.Next(before, Cluster.Expire(2, 1));
  }

  /** Nobody covers the chunk when the head reads the published state, and the confirmation behind it is stale. */
  lemma PublishedInVain(e: Entity) returns (cs: Cluster.State)
    requires e.spot.chunk == ASIDE
    ensures KnowsPillar(cs.head) && cs.nodes.Keys == {1, 2}
    ensures Reachable(PILLAR, Both(cs, PAIR[2 := Publisher(e, [UpDrained(1)], Serving)], {e}, 2))
  {
    cs := FirstExpires(e);
    var up := [UpEntity(e), UpDrained(1)];
    PillarStretches(cs.head);
    assert up[1..] == [UpDrained(1)];
    UpperAgain(Publisher(e, up, Serving), Publisher(e, up[1..], Serving));
    OnDropped(PILLAR, cs, PAIR[2 := Publisher(e, up, Serving)], {e}, 2, 2, e);
  }

  lemma StaleConfirmation(e: Entity) returns (cs: Cluster.State)
    requires e.spot.chunk == ASIDE
    ensures KnowsPillar(cs.head) && cs.nodes.Keys == {1, 2}
    ensures Reachable(PILLAR, Both(cs, PAIR[2 := Publisher(e, [], Serving)], {e}, 2))
  {
    var before := PublishedInVain(e);
    assert [UpDrained(1)][1..] == [];
    UpperAgain(Publisher(e, [UpDrained(1)], Serving), Publisher(e, [], Serving));
    OnConfirmed(PILLAR, before, PAIR[2 := Publisher(e, [UpDrained(1)], Serving)], {e}, 2, 2);
    cs := Cluster.Next(before, Cluster.Ack(2, 1, 0));
  }

  /** A player asks for the chunk, and the lower zone is stretched over it. */
  lemma ChunkIsServed(e: Entity) returns (cs: Cluster.State)
    requires e.spot.chunk == ASIDE
    ensures cs.head.Route(ASIDE).Some? && cs.head.Route(ASIDE).value.fd == 1 && Cluster.Legal(cs, MERGE)
    ensures Reachable(PILLAR, Both(cs, PAIR[2 := Publisher(e, [], Serving)], {e}, 2))
  {
    var before := StaleConfirmation(e);
    PillarStretches(before.head);
    OnMiss(PILLAR, before, PAIR[2 := Publisher(e, [], Serving)], {e}, 2, ASIDE);
    cs := Cluster.Next(before, Cluster.Miss(ASIDE));
  }

  /**
   From a base zone: a drain is answered and times out, and the state the zone published was dropped because nobody
   covered its chunk. The zone holds the entity still, but has no lease on it any more. When the chunk is covered and
   the zone is drained again, it publishes nothing, and exits with the only copy.
   */
  lemma SecondDrainLoses(e: Entity) returns (s: Joint.State, t: Joint.State)
    requires e.spot.chunk == ASIDE
    ensures Reachable(PILLAR, s) && Good(s) && NothingLost(s.handoff)
    ensures ASIDE in s.handoff.route && s.handoff.route[ASIDE] == 1
    ensures Joint.Legal(s, Move.Topology(MERGE)) && !NothingLost(Joint.Next(s, Move.Topology(MERGE)).handoff)
    ensures Reachable(PILLAR, t) && Vanished(t.handoff, e.uuid) && !NothingLost(t.handoff)
  {
    var cs := ChunkIsServed(e);
    s := Both(cs, PAIR[2 := Publisher(e, [], Serving)], {e}, 2);
    ReachableIsGood(PILLAR, s);
    SecondIsHarmful(s, e);
    t := SecondExits(cs, e);
    VanishedIsLost(t.handoff, e.uuid);
  }

  lemma SecondIsHarmful(s: Joint.State, e: Entity)
    requires Good(s) && s.handoff.history == {e} && s.handoff.zones == PAIR[2 := Publisher(e, [], Serving)]
    requires Cluster.Legal(s.cluster, MERGE)
    ensures NothingLost(s.handoff)
    ensures Joint.Legal(s, Move.Topology(MERGE)) && !NothingLost(Joint.Next(s, Move.Topology(MERGE)).handoff)
  {
    OnlyUnleased(s.handoff, e);
    MoveLosesNothingIff(s, Move.Topology(MERGE));
  }

  lemma OnlyUnleased(s: HandoffProtocol.State, e: Entity)
    requires s.history == {e} && s.zones == PAIR[2 := Publisher(e, [], Serving)]
    ensures NothingLost(s) && !RetiresNothing(s, 2)
  {
    assert s.zones[1] == JOINED && s.zones[2] == Publisher(e, [], Serving);
    assert Live({e}) == {e.uuid} && e.uuid in Live(s.history);
    assert FateOf(s.zones[2], e.uuid) == Unleased && FateOf(s.zones[1], e.uuid) == Away;
    assert Safe(s, e.uuid, In(2));
    assert !SafeBeside(s, In(2), e.uuid);
  }

  lemma SecondExits(cs: Cluster.State, e: Entity) returns (t: Joint.State)
    requires Reachable(PILLAR, Both(cs, PAIR[2 := Publisher(e, [], Serving)], {e}, 2)) && Cluster.Legal(cs, MERGE)
    ensures Reachable(PILLAR, t) && Vanished(t.handoff, e.uuid)
  {
    Confirms(PILLAR, cs, PAIR[2 := Publisher(e, [], Serving)], {e}, 2, map[e.uuid := e]);
    UpperAgain(Publisher(e, [], Serving), Answered(map[e.uuid := e], 2));
    t := PairExits(Cluster.Next(cs, MERGE), Answered(map[e.uuid := e], 2), e, 3, 2);
  }
}
