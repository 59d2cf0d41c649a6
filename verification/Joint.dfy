/**
 The two protocols together: the head routes handoffs by its own copies of the boxes, every step of the topology is a
 change of that routing under the entities in flight, and a zone leaves the topology when the head reads that it has
 answered its drain.
 */
module Joint {
  import opened Geometry
  import opened Topology
  import Cluster
  import HandoffProtocol

  /** Whom the head routes each chunk to. */
  ghost function RouteTable(h: Head): imap<Chunk, int> {
    imap c: Chunk | h.Route(c).Some? :: h.Route(c).value.fd
  }

  /** The phase of a zone in the handoff is what the head's record says of it. */
  predicate PhaseFits(states: States, requests: map<int, nat>, fd: int, phase: HandoffProtocol.Phase) {
    match phase
    case Serving => RoutableIn(states, fd)
    case Draining(id) => StateIn(states, fd) == Draining && fd in requests && requests[fd] == id
    case Closing => !RoutableIn(states, fd) && StateIn(states, fd) != Draining
    case Evicted => !RoutableIn(states, fd) && StateIn(states, fd) != Draining
    case Gone => !RoutableIn(states, fd) && StateIn(states, fd) != Draining
  }

  /** Every zone that has joined the handoff was started and is in the recorded phase; the others are still new. */
  ghost predicate PhasesFit(
    states: States, requests: map<int, nat>, started: set<int>, zones: map<int, HandoffProtocol.Zone>)
  {
    && (forall fd :: fd in zones ==> fd in started && PhaseFits(states, requests, fd, zones[fd].phase))
    && (forall fd :: fd in started && fd !in zones ==> RoutableIn(states, fd))
  }

  ghost predicate ListedHaveJoined(list: seq<Zone>, zones: map<int, HandoffProtocol.Zone>) {
    forall i :: 0 <= i < |list| ==> list[i].fd in zones
  }

  /** The handoff is routed as the head's record says, among zones in the phases it says. */
  ghost predicate Agrees(cs: Cluster.State, ps: HandoffProtocol.State) {
    && ps.route == RouteTable(cs.head) && ps.nextId == cs.head.nextRequest
    && PhasesFit(cs.head.states, cs.head.requests, cs.nodes.Keys, ps.zones) && ListedHaveJoined(cs.head.zones, ps.zones)
  }

  /** A zone that reports has joined, and only one that has reported is ever evicted. */
  predicate Known(step: Cluster.Step, ps: HandoffProtocol.State) { step.Hears? || step.Evict? ==> step.fd in ps.zones }

  /**
   What a step of the topology is to the handoff: a change of the routing, which may retire a zone, put one back to
   work or give one up.
   */
  ghost function Shift(cs: Cluster.State, step: Cluster.Step): HandoffProtocol.Step
    requires Cluster.Legal(cs, step)
  {
    var table := RouteTable(Cluster.Next(cs, step).head);
    if step.Drain? then HandoffProtocol.Retire(step.victim, table)
    else if step.Expire? && Cluster.Expires(cs.head, step.fd, step.now) then HandoffProtocol.Restore(step.fd, table)
    else if step.Evict? then HandoffProtocol.Evict(step.fd, table)
    else HandoffProtocol.Reroute(table)
  }

  lemma KeysKeptIff(h: Head, k: Head)
    ensures RouteTable(h).Keys <= RouteTable(k).Keys <==> RoutedKept(h, k)
  {
    assert forall c: Chunk :: c in RouteTable(h).Keys <==> h.Route(c).Some?;
    assert forall c: Chunk :: c in RouteTable(k).Keys <==> k.Route(c).Some?;
  }

  /** Whom the head routes to has joined and serves. */
  lemma TableFits(h: Head, started: set<int>, zones: map<int, HandoffProtocol.Zone>)
    requires PhasesFit(h.states, h.requests, started, zones) && ListedHaveJoined(h.zones, zones)
    ensures HandoffProtocol.RouteFits(zones, RouteTable(h))
  {
    forall c: Chunk | c in RouteTable(h)
      ensures RouteTable(h)[c] in zones && zones[RouteTable(h)[c]].phase == HandoffProtocol.Serving
    {
      RouteIsServing(h.states, h.zones, c);
      var i :| 0 <= i < |h.zones| && h.zones[i] == h.Route(c).value;
      assert PhaseFits(h.states, h.requests, h.zones[i].fd, zones[h.zones[i].fd].phase);
    }
  }

  lemma DroppedHaveJoined(list: seq<Zone>, fd: int, zones: map<int, HandoffProtocol.Zone>)
    requires ListedHaveJoined(list, zones)
    ensures ListedHaveJoined(Drop(list, fd), zones)
  {
    var after := Drop(list, fd);
    forall i | 0 <= i < |after| ensures after[i].fd in zones {
      assert after[i] in list;
    }
  }

  /** Acknowledgements and evictions take a zone off the list, and only a report puts one on it. */
  lemma ListedStays(cs: Cluster.State, step: Cluster.Step, zones: map<int, HandoffProtocol.Zone>)
    requires Cluster.Legal(cs, step) && ListedHaveJoined(cs.head.zones, zones) && (step.Hears? ==> step.fd in zones)
    ensures ListedHaveJoined(Cluster.Next(cs, step).head.zones, zones)
  {
    match step {
      case Drain(v, w, now, timeout) => DrainZones(cs.head, v, w, now, timeout);
      case Ack(fd, id, now) => DroppedHaveJoined(cs.head.zones, fd, zones);
      case Evict(fd) => DroppedHaveJoined(cs.head.zones, fd, zones);
      case _ =>
    }
  }

  /** A step that is neither a drain nor its end nor an eviction leaves all phases alone. */
  lemma OtherPhases(cs: Cluster.State, step: Cluster.Step)
    requires Cluster.Legal(cs, step) && !step.Drain? && !step.Ack? && !step.Evict?
    requires step.Expire? ==> !Cluster.Expires(cs.head, step.fd, step.now)
    ensures var k := Cluster.Next(cs, step).head;
            k.states == cs.head.states && k.requests == cs.head.requests && k.nextRequest == cs.head.nextRequest
  {
    match step {
      case Hears(fd, addr, port, profile) =>
        HearKeepsRequests(cs.head, fd, Report(cs.nodes[fd].outbox[0], addr, port, profile));
      case Miss(c) => RelocateKeepsRequests(cs.head, c);
      case _ =>
    }
  }

  /** The zones of the handoff after a step of the topology. */
  ghost function ShiftedZones(
    cs: Cluster.State, step: Cluster.Step, ps: HandoffProtocol.State): map<int, HandoffProtocol.Zone>
  {
    if step.Drain? && step.victim in ps.zones
    then ps.zones[step.victim := HandoffProtocol.Retired(ps.zones[step.victim], ps.nextId)]
    else if step.Expire? && Cluster.Expires(cs.head, step.fd, step.now) && step.fd in ps.zones
    then ps.zones[step.fd := ps.zones[step.fd].(phase := HandoffProtocol.Serving)]
    else if step.Evict? && step.fd in ps.zones
    then ps.zones[step.fd := HandoffProtocol.Abandoned(ps.zones[step.fd])]
    else ps.zones
  }

  lemma DrainPhases(cs: Cluster.State, v: int, w: int, now: int, timeout: int, ps: HandoffProtocol.State)
    requires Cluster.Sound(cs) && Cluster.Legal(cs, Cluster.Drain(v, w, now, timeout)) && Agrees(cs, ps)
    ensures v in ps.zones && ps.zones[v].phase == HandoffProtocol.Serving
    ensures var t, step := Cluster.Next(cs, Cluster.Drain(v, w, now, timeout)), Cluster.Drain(v, w, now, timeout);
            PhasesFit(t.head.states, t.head.requests, t.nodes.Keys, ShiftedZones(cs, step, ps)) &&
            t.head.nextRequest == ps.nextId + 1
  {
    var step := Cluster.Drain(v, w, now, timeout);
    var i := FoundAt(cs.head.zones, v);
    assert v in ps.zones && PhaseFits(cs.head.states, cs.head.requests, v, ps.zones[v].phase);
    var t := Cluster.Next(cs, step);
    Cluster.DrainNodes(cs, v, w, now, timeout);
    DrainZones(cs.head, v, w, now, timeout);
    DrainedPhases(cs.head.states, cs.head.requests, cs.nodes.Keys, ps.zones, v, w, ps.nextId);
  }

  lemma DrainedPhases(states: States, requests: map<int, nat>, started: set<int>,
                      zones: map<int, HandoffProtocol.Zone>, v: int, w: int, id: nat)
    requires PhasesFit(states, requests, started, zones) && v in zones && StateIn(states, w) == Ready && v != w
    ensures PhasesFit(states[v := Draining][w := Ready], requests[v := id], started,
                      zones[v := HandoffProtocol.Retired(zones[v], id)])
  {
  }

  lemma ExpirePhases(cs: Cluster.State, fd: int, now: int, ps: HandoffProtocol.State)
    requires Cluster.Legal(cs, Cluster.Expire(fd, now)) && Cluster.Expires(cs.head, fd, now) && Agrees(cs, ps)
    ensures fd in ps.zones && ps.zones[fd].phase.Draining?
    ensures var t, step := Cluster.Next(cs, Cluster.Expire(fd, now)), Cluster.Expire(fd, now);
            PhasesFit(t.head.states, t.head.requests, t.nodes.Keys, ShiftedZones(cs, step, ps)) &&
            t.head.nextRequest == ps.nextId
  {
    assert fd in ps.zones && PhaseFits(cs.head.states, cs.head.requests, fd, ps.zones[fd].phase);
  }

  lemma EvictPhases(cs: Cluster.State, fd: int, ps: HandoffProtocol.State)
    requires Cluster.Legal(cs, Cluster.Step.Evict(fd)) && fd in ps.zones && Agrees(cs, ps)
    ensures var t, step := Cluster.Next(cs, Cluster.Step.Evict(fd)), Cluster.Step.Evict(fd);
            PhasesFit(t.head.states, t.head.requests, t.nodes.Keys, ShiftedZones(cs, step, ps)) &&
            t.head.nextRequest == ps.nextId
  {
    AbandonedPhases(cs.head.states, cs.head.requests, cs.nodes.Keys, ps.zones, fd);
  }

  lemma AbandonedPhases(
    states: States, requests: map<int, nat>, started: set<int>, zones: map<int, HandoffProtocol.Zone>, fd: int)
    requires PhasesFit(states, requests, started, zones) && fd in zones
    ensures PhasesFit(states[fd := Dead], requests - {fd}, started, zones[fd := HandoffProtocol.Abandoned(zones[fd])])
  {
  }

  lemma ShiftedFits(cs: Cluster.State, step: Cluster.Step, ps: HandoffProtocol.State)
    requires Cluster.Sound(cs) && Cluster.Legal(cs, step) && !step.Ack? && Agrees(cs, ps) && Known(step, ps)
    ensures var t, zones := Cluster.Next(cs, step), ShiftedZones(cs, step, ps);
            && PhasesFit(t.head.states, t.head.requests, t.nodes.Keys, zones) && ListedHaveJoined(t.head.zones, zones)
            && HandoffProtocol.RouteFits(zones, RouteTable(t.head))
    ensures step.Drain? ==> step.victim in ps.zones && ps.zones[step.victim].phase == HandoffProtocol.Serving
    ensures step.Expire? && Cluster.Expires(cs.head, step.fd, step.now) ==>
              step.fd in ps.zones && ps.zones[step.fd].phase.Draining?
    ensures Cluster.Next(cs, step).head.nextRequest == if step.Drain? then ps.nextId + 1 else ps.nextId
  {
    var t, zones := Cluster.Next(cs, step), ShiftedZones(cs, step, ps);
    ListedStays(cs, step, zones);
    if step.Drain? {
      DrainPhases(cs, step.victim, step.survivor, step.now, step.timeout, ps);
    } else if step.Expire? && Cluster.Expires(cs.head, step.fd, step.now) {
      ExpirePhases(cs, step.fd, step.now, ps);
    } else if step.Evict? {
      EvictPhases(cs, step.fd, ps);
    } else {
      OtherPhases(cs, step);
    }
    TableFits(t.head, t.nodes.Keys, zones);
  }

  /**
   Every step of the topology, time-outs that put a zone back and evictions included, is a legal step of the handoff
   with the two in agreement afterwards. It is an orderly one exactly if it keeps every routed chunk routed
   (`Cluster.StepKeepsRoutesIff`), retires no zone that is the only one to hold something, without a lease, and evicts
   none that is the only one to keep something.
   */
  lemma TopologyStepIsHandoffStep(cs: Cluster.State, step: Cluster.Step, ps: HandoffProtocol.State)
    requires Cluster.Sound(cs) && Cluster.Legal(cs, step) && !step.Ack? && Agrees(cs, ps) && Known(step, ps)
    ensures HandoffProtocol.Legal(ps, Shift(cs, step))
    ensures Agrees(Cluster.Next(cs, step), HandoffProtocol.Next(ps, Shift(cs, step)))
    ensures HandoffProtocol.Orderly(ps, Shift(cs, step)) <==> Cluster.KeepsRoutes(cs, step) && SparesCovered(ps, step)
  {
    ShiftIsLegal(cs, step, ps);
    KeysKeptIff(cs.head, Cluster.Next(cs, step).head);
    Cluster.StepKeepsRoutesIff(cs, step);
  }

  /** What a drain or an eviction takes out of reach is covered elsewhere. */
  ghost predicate SparesCovered(ps: HandoffProtocol.State, step: Cluster.Step) {
    && (step.Drain? ==> step.victim in ps.zones && HandoffProtocol.Retirable(ps, step.victim))
    && (step.Evict? ==> step.fd in ps.zones && HandoffProtocol.Dispensable(ps, step.fd))
  }

  lemma ShiftIsLegal(cs: Cluster.State, step: Cluster.Step, ps: HandoffProtocol.State)
    requires Cluster.Sound(cs) && Cluster.Legal(cs, step) && !step.Ack? && Agrees(cs, ps) && Known(step, ps)
    ensures HandoffProtocol.Legal(ps, Shift(cs, step))
    ensures Agrees(Cluster.Next(cs, step), HandoffProtocol.Next(ps, Shift(cs, step)))
  {
    ShiftedFits(cs, step, ps);
    ShiftedBy(cs, step, ps);
  }

  /** Given the zones the step leaves, the step is legal if the new routing fits them. */
  lemma ShiftedBy(cs: Cluster.State, step: Cluster.Step, ps: HandoffProtocol.State)
    requires Cluster.Legal(cs, step) && Known(step, ps)
    requires step.Drain? ==> step.victim in ps.zones && ps.zones[step.victim].phase == HandoffProtocol.Serving
    requires step.Expire? && Cluster.Expires(cs.head, step.fd, step.now) ==>
               step.fd in ps.zones && ps.zones[step.fd].phase.Draining?
    requires HandoffProtocol.RouteFits(ShiftedZones(cs, step, ps), RouteTable(Cluster.Next(cs, step).head))
    ensures HandoffProtocol.Legal(ps, Shift(cs, step))
    ensures var t := HandoffProtocol.Next(ps, Shift(cs, step));
            && t.zones == ShiftedZones(cs, step, ps) && t.route == RouteTable(Cluster.Next(cs, step).head)
            && t.nextId == if step.Drain? then ps.nextId + 1 else ps.nextId
  {
    if step.Drain? {
      assert Shift(cs, step).Retire?;
    } else if step.Expire? && Cluster.Expires(cs.head, step.fd, step.now) {
      assert Shift(cs, step).Restore?;
    } else if step.Evict? {
      assert Shift(cs, step).Evict?;
    } else {
      assert Shift(cs, step).Reroute?;
    }
  }

  // ------------------------------------------------------------------------------------------------
  // The end of a drain
  // ------------------------------------------------------------------------------------------------

  /** The zone that leaves was not routed to any more. */
  lemma AckKeepsTable(h: Head, fd: int, id: nat, now: int)
    ensures RouteTable(AckDrain(h, fd, id, now)) == RouteTable(h)
  {
    if AckAccepted(h, fd, id) {
      forall c: Chunk ensures AckDrain(h, fd, id, now).Route(c) == h.Route(c) {
        DropUnrouted(h.states, h.zones, fd, c);
        SameServing(h.states, h.states[fd := Destroyed], Drop(h.zones, fd), c);
      }
    }
  }

  /** A packet of the handoff that the head reads as the acknowledgement of a drain. */
  ghost predicate Acknowledges(ps: HandoffProtocol.State, p: HandoffProtocol.Step)
    requires HandoffProtocol.Legal(ps, p)
  {
    p.HeadTakes? && ps.zones[p.z].up[0].UpDrained?
  }

  /** What a packet of the handoff does to the topology. */
  ghost function Acknowledged(cs: Cluster.State, ps: HandoffProtocol.State, p: HandoffProtocol.Step, now: int):
    Cluster.State
    requires Agrees(cs, ps) && HandoffProtocol.Legal(ps, p)
  {
    if Acknowledges(ps, p)
    then Cluster.Next(cs, Cluster.Ack(p.z, ps.zones[p.z].up[0].id, now))
    else cs
  }

  predicate Rewires(p: HandoffProtocol.Step) { p.Reroute? || p.Retire? || p.Restore? || p.Evict? }

  /** The record says the confirmation is of the open drain exactly if the handoff does. */
  lemma AcknowledgedPhases(cs: Cluster.State, ps: HandoffProtocol.State, z: int, now: int)
    requires Agrees(cs, ps) && HandoffProtocol.Legal(ps, HandoffProtocol.HeadTakes(z)) && ps.zones[z].up[0].UpDrained?
    ensures var t := Acknowledged(cs, ps, HandoffProtocol.HeadTakes(z), now);
            PhasesFit(t.head.states, t.head.requests, t.nodes.Keys, HandoffProtocol.HeadReads(ps, z).zones)
  {
    var id, h := ps.zones[z].up[0].id, cs.head;
    AcceptedIffOpen(cs, ps, z, id);
    var after := HandoffProtocol.HeadReads(ps, z).zones;
    if AckAccepted(h, z, id) {
      ClosedPhases(h.states, h.requests, cs.nodes.Keys, ps.zones, after, z);
    } else {
      SamePhases(h.states, h.requests, cs.nodes.Keys, ps.zones, after);
    }
  }

  lemma AcceptedIffOpen(cs: Cluster.State, ps: HandoffProtocol.State, z: int, id: nat)
    requires Agrees(cs, ps) && z in ps.zones
    ensures z in cs.nodes && (AckAccepted(cs.head, z, id) <==> ps.zones[z].phase == HandoffProtocol.Draining(id))
  {
    assert PhaseFits(cs.head.states, cs.head.requests, z, ps.zones[z].phase);
  }

  predicate SamePhase(p: HandoffProtocol.Phase, q: HandoffProtocol.Phase) {
    p == q || ((p.Closing? || p.Evicted?) && q.Gone?)
  }

  lemma SamePhases(states: States, requests: map<int, nat>, started: set<int>,
                   zones: map<int, HandoffProtocol.Zone>, after: map<int, HandoffProtocol.Zone>)
    requires PhasesFit(states, requests, started, zones) && after.Keys == zones.Keys
    requires forall fd :: fd in zones ==> SamePhase(zones[fd].phase, after[fd].phase)
    ensures PhasesFit(states, requests, started, after)
  {
  }

  lemma ClosedPhases(states: States, requests: map<int, nat>, started: set<int>,
                     zones: map<int, HandoffProtocol.Zone>, after: map<int, HandoffProtocol.Zone>, z: int)
    requires PhasesFit(states, requests, started, zones) && after.Keys == zones.Keys
    requires z in zones && after[z].phase == HandoffProtocol.Closing
    requires forall fd :: fd in zones && fd != z ==> after[fd].phase == zones[fd].phase
    ensures PhasesFit(states[z := Destroyed], requests - {z}, started, after)
  {
  }

  lemma WireAgrees(cs: Cluster.State, ps: HandoffProtocol.State, p: HandoffProtocol.Step, now: int)
    requires Agrees(cs, ps) && HandoffProtocol.Ok(ps) && HandoffProtocol.Legal(ps, p) && !Rewires(p)
    requires p.Join? ==> p.z in cs.nodes
    ensures Agrees(Acknowledged(cs, ps, p, now), HandoffProtocol.Next(ps, p))
  {
    var t := HandoffProtocol.Next(ps, p);
    if Acknowledges(ps, p) {
      var id := ps.zones[p.z].up[0].id;
      AckKeepsTable(cs.head, p.z, id, now);
      AcknowledgedPhases(cs, ps, p.z, now);
      ListedStays(cs, Cluster.Ack(p.z, id, now), t.zones);
    } else {
      WireKeepsPhases(cs, ps, p);
    }
  }

  lemma WireKeepsPhase(ps: HandoffProtocol.State, p: HandoffProtocol.Step, fd: int)
    requires HandoffProtocol.Ok(ps) && HandoffProtocol.Legal(ps, p) && !Rewires(p) && !Acknowledges(ps, p) && !p.Join?
    requires fd in ps.zones
    ensures HandoffProtocol.Next(ps, p).zones.Keys == ps.zones.Keys
    ensures SamePhase(ps.zones[fd].phase, HandoffProtocol.Next(ps, p).zones[fd].phase)
  {
    if p.ZoneTakes? {
      assert HandoffProtocol.ZoneOk(ps.zones[p.z], ps.history, ps.nextId);
    }
  }

  lemma WireKeepsPhases(cs: Cluster.State, ps: HandoffProtocol.State, p: HandoffProtocol.Step)
    requires Agrees(cs, ps) && HandoffProtocol.Ok(ps) && HandoffProtocol.Legal(ps, p) && !Rewires(p)
    requires !Acknowledges(ps, p) && (p.Join? ==> p.z in cs.nodes)
    ensures PhasesFit(cs.head.states, cs.head.requests, cs.nodes.Keys, HandoffProtocol.Next(ps, p).zones)
  {
    if !p.Join? {
      var after := HandoffProtocol.Next(ps, p).zones;
      assert after.Keys == ps.zones.Keys;
      forall fd | fd in ps.zones ensures SamePhase(ps.zones[fd].phase, after[fd].phase) {
        WireKeepsPhase(ps, p, fd);
      }
      SamePhases(cs.head.states, cs.head.requests, cs.nodes.Keys, ps.zones, after);
    }
  }

  // ------------------------------------------------------------------------------------------------
  // Joint runs
  // ------------------------------------------------------------------------------------------------

  datatype State = State(cluster: Cluster.State, handoff: HandoffProtocol.State)

  /** A step of the topology, or one of the handoff, at some time of the head's clock. */
  datatype Move = Topology(step: Cluster.Step) | Wire(packet: HandoffProtocol.Step, now: int)

  /**
   The topology changes the routing and the handoff does not; drains are acknowledged by the handoff; whoever reports
   has joined, and whoever joins was started.
   */
  ghost predicate Legal(s: State, m: Move) {
    match m
    case Topology(step) => Cluster.Legal(s.cluster, step) && !step.Ack? && Known(step, s.handoff)
    case Wire(p, _) => HandoffProtocol.Legal(s.handoff, p) && !Rewires(p) && (p.Join? ==> p.z in s.cluster.nodes)
  }

  ghost predicate Good(s: State) {
    Cluster.Sound(s.cluster) && Agrees(s.cluster, s.handoff) && HandoffProtocol.Ok(s.handoff)
  }

  ghost function Next(s: State, m: Move): State
    requires Good(s) && Legal(s, m)
  {
    match m
    case Topology(step) =>
      TopologyStepIsHandoffStep(s.cluster, step, s.handoff);
      State(Cluster.Next(s.cluster, step), HandoffProtocol.Next(s.handoff, Shift(s.cluster, step)))
    case Wire(p, now) => State(Acknowledged(s.cluster, s.handoff, p, now), HandoffProtocol.Next(s.handoff, p))
  }

  /** The handoff's side of a move. */
  ghost function PacketOf(s: State, m: Move): HandoffProtocol.Step
    requires Legal(s, m)
  {
    if m.Wire? then m.packet else Shift(s.cluster, m.step)
  }

  lemma NextIsGood(s: State, m: Move)
    requires Good(s) && Legal(s, m)
    ensures Good(Next(s, m))
    ensures HandoffProtocol.Legal(s.handoff, PacketOf(s, m))
    ensures Next(s, m).handoff == HandoffProtocol.Next(s.handoff, PacketOf(s, m))
  {
    match m {
      case Topology(step) =>
        TopologyStepIsHandoffStep(s.cluster, step, s.handoff);
        Cluster.StepIsSound(s.cluster, step);
      case Wire(p, now) =>
        WireAgrees(s.cluster, s.handoff, p, now);
        if Acknowledges(s.handoff, p) {
          Cluster.StepIsSound(s.cluster, Cluster.Ack(p.z, s.handoff.zones[p.z].up[0].id, now));
        }
    }
    HandoffProtocol.StepOk(s.handoff, PacketOf(s, m));
  }

  ghost predicate AllLegal(s: State, moves: seq<Move>)
    requires Good(s)
    decreases |moves|
  {
    moves != [] ==> Legal(s, moves[0]) && (NextIsGood(s, moves[0]); AllLegal(Next(s, moves[0]), moves[1..]))
  }

  ghost function Run(s: State, moves: seq<Move>): State
    requires Good(s) && AllLegal(s, moves)
    decreases |moves|
  {
    if moves == [] then s
    else
      NextIsGood(s, moves[0]);
      Run(Next(s, moves[0]), moves[1..])
  }

  /**
   The moves of the handoff are harmless, no zone is retired that is the only one to hold something, without a lease,
   and none is evicted that is the only one to keep something; every other move of the topology is harmless by itself.
   */
  ghost predicate AllHarmless(s: State, moves: seq<Move>)
    requires Good(s) && AllLegal(s, moves)
    decreases |moves|
  {
    moves != [] ==>
      && HarmlessMove(s, moves[0])
      && (NextIsGood(s, moves[0]); AllHarmless(Next(s, moves[0]), moves[1..]))
  }

  ghost predicate HarmlessMove(s: State, m: Move)
    requires Good(s) && Legal(s, m)
  {
    match m
    case Topology(step) =>
      && (step.Drain? ==> RetiresNothing(s.handoff, step.victim))
      && (step.Evict? ==> EvictsNothing(s.handoff, step.fd))
    case Wire(p, _) => HandoffProtocol.Harmless(s.handoff, p)
  }

  /** Whatever the zone would be left with without a lease is safe elsewhere. */
  ghost predicate RetiresNothing(ps: HandoffProtocol.State, z: int) {
    z in ps.zones ==>
      forall u :: u in HandoffProtocol.Live(ps.history) &&
                  HandoffProtocol.FateOf(ps.zones[z], u) == HandoffProtocol.Unleased ==>
        HandoffProtocol.SafeBeside(ps, HandoffProtocol.In(z), u)
  }

  /** Whatever the zone would keep is safe elsewhere. */
  ghost predicate EvictsNothing(ps: HandoffProtocol.State, z: int) {
    z in ps.zones ==>
      forall u :: u in HandoffProtocol.Live(ps.history) &&
                  HandoffProtocol.Kept(ps.zones[z].phase, HandoffProtocol.FateOf(ps.zones[z], u)) ==>
        HandoffProtocol.SafeBeside(ps, HandoffProtocol.In(z), u)
  }

  lemma HarmlessMoveIff(s: State, m: Move)
    requires Good(s) && Legal(s, m)
    ensures HandoffProtocol.Legal(s.handoff, PacketOf(s, m))
    ensures HarmlessMove(s, m) <==> HandoffProtocol.Harmless(s.handoff, PacketOf(s, m))
  {
    NextIsGood(s, m);
  }

  /** Exactly the harmless moves lose nothing. */
  lemma MoveLosesNothingIff(s: State, m: Move)
    requires Good(s) && HandoffProtocol.NothingLost(s.handoff) && Legal(s, m)
    ensures HandoffProtocol.NothingLost(Next(s, m).handoff) <==> HarmlessMove(s, m)
  {
    NextIsGood(s, m);
    HarmlessMoveIff(s, m);
    HandoffProtocol.StepLosesNothingIff(s.handoff, PacketOf(s, m));
  }

  /**
   Over every run of topology and handoff together, splits and their windows, stale merges, refused drains and drains
   that time out included, nothing is lost as long as no new id is put into a zone too late, the head reads no last
   copy on a chunk its record does not route, no zone is retired with a last copy it has no lease on, and none is
   evicted with a last copy.
   */
  lemma {:induction false} NeverLostTogether(s: State, moves: seq<Move>)
    requires Good(s) && HandoffProtocol.NothingLost(s.handoff) && AllLegal(s, moves) && AllHarmless(s, moves)
    ensures Good(Run(s, moves)) && HandoffProtocol.NothingLost(Run(s, moves).handoff)
    decreases |moves|
  {
    if moves != [] {
      NextIsGood(s, moves[0]);
      MoveLosesNothingIff(s, moves[0]);
      NeverLostTogether(Next(s, moves[0]), moves[1..]);
    }
  }

  ghost predicate SteadyMove(s: State, m: Move)
    requires Good(s) && Legal(s, m)
  {
    match m
    case Topology(step) => Cluster.KeepsRoutes(s.cluster, step) && SparesCovered(s.handoff, step)
    case Wire(p, _) => HandoffProtocol.Orderly(s.handoff, p)
  }

  /** The topology keeps every routed chunk routed, and the handoff is orderly. */
  ghost predicate AllSteady(s: State, moves: seq<Move>)
    requires Good(s) && AllLegal(s, moves)
    decreases |moves|
  {
    moves != [] ==>
      SteadyMove(s, moves[0]) && (NextIsGood(s, moves[0]); AllSteady(Next(s, moves[0]), moves[1..]))
  }

  /** And while the topology keeps every routed chunk routed, nobody has to look for other copies of what is read. */
  lemma {:induction false} SteadyTogether(s: State, moves: seq<Move>)
    requires Good(s) && HandoffProtocol.AllCovered(s.handoff) && AllLegal(s, moves) && AllSteady(s, moves)
    ensures AllHarmless(s, moves) && Good(Run(s, moves)) && HandoffProtocol.AllCovered(Run(s, moves).handoff)
    decreases |moves|
  {
    if moves != [] {
      var m := moves[0];
      NextIsGood(s, m);
      if m.Topology? {
        TopologyStepIsHandoffStep(s.cluster, m.step, s.handoff);
      }
      HandoffProtocol.CoveredIsHarmless(s.handoff, PacketOf(s, m));
      HandoffProtocol.OrderlyKeepsCovered(s.handoff, PacketOf(s, m));
      HarmlessMoveIff(s, m);
      SteadyTogether(Next(s, m), moves[1..]);
    }
  }
}
