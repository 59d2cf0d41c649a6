/**
 The handoff as a message-passing protocol, and the theorem it exists for: no entity is ever lost.

 A zone that is being retired publishes the state of everything it holds a lease on before it confirms, and is told to
 exit after the head has seen the confirmation of the drain that is open. A drain that is not confirmed in time is
 given up and the zone serves again, with its leases gone. A zone that has been silent for too long is evicted: it may
 go on for a while, but nobody can count on it. Lease expiry is no step of this model.
 */
module HandoffProtocol {
  import opened Geometry
  import opened Roster
  import opened Handoff

  /**
   Draining: the head has sent that drain. Closing: it has read the confirmation. Evicted: it has given the zone up and
   has it killed. Gone: the zone has exited.
   */
  datatype Phase = Serving | Draining(id: nat) | Closing | Evicted | Gone

  /** A zone as the protocol sees it: what it holds, under which leases, and the two halves of its link to the head. */
  datatype Zone = Zone(held: map<nat, Entity>, leased: set<nat>, up: seq<Up>, down: seq<Down>, phase: Phase)

  /** `history` records every state any zone ever gave an entity; its ids are the live ones. */
  datatype State = State(zones: map<int, Zone>, route: imap<Chunk, int>, history: set<Entity>, nextId: nat)

  ghost function Live(history: set<Entity>): set<nat> { set e | e in history :: e.uuid }

  datatype Step =
    | Join(z: int)
    | Update(z: int, e: Entity)
    | Hand(z: int, es: seq<Entity>)
    | HeadTakes(z: int)
    | ZoneTakes(z: int, order: seq<Entity>)
    | Reroute(route: imap<Chunk, int>)
    | Retire(z: int, route: imap<Chunk, int>)
    | Restore(z: int, route: imap<Chunk, int>)
    | Evict(z: int, route: imap<Chunk, int>)
    | Dies(z: int)

  const JOINED: Zone := Zone(map[], {}, [], [], Serving)

  /** A routing table sends every chunk it covers to a zone in service. */
  ghost predicate RouteFits(zones: map<int, Zone>, route: imap<Chunk, int>) {
    forall c :: c in route ==> route[c] in zones && zones[route[c]].phase == Serving
  }

  ghost predicate Legal(s: State, step: Step) {
    match step
    case Join(z) => z !in s.zones
    case Update(z, e) => z in s.zones && s.zones[z].phase != Gone
    case Hand(z, es) =>
      && z in s.zones && s.zones[z].phase != Gone
      && forall i :: 0 <= i < |es| ==> es[i].uuid in s.zones[z].held && es[i] in s.history
    case HeadTakes(z) => z in s.zones && s.zones[z].up != []
    case ZoneTakes(z, order) =>
      && z in s.zones && s.zones[z].phase != Gone && s.zones[z].down != []
      && (s.zones[z].down[0].DownDrain? ==> Publishes(s.zones[z].held, s.zones[z].leased, order))
    case Reroute(route) => RouteFits(s.zones, route)
    case Retire(z, route) =>
      && z in s.zones && s.zones[z].phase == Serving
      && RouteFits(s.zones[z := Retired(s.zones[z], s.nextId)], route)
    case Restore(z, route) =>
      && z in s.zones && s.zones[z].phase.Draining?
      && RouteFits(s.zones[z := s.zones[z].(phase := Serving)], route)
    case Evict(z, route) => z in s.zones && RouteFits(s.zones[z := Abandoned(s.zones[z])], route)
    case Dies(z) => z in s.zones && s.zones[z].phase == Evicted
  }

  /** What the head sends to zone `y` when it reads the first packet of zone `z`. */
  ghost function Sent(s: State, z: int, y: int): seq<Down>
    requires z in s.zones && s.zones[z].up != []
  {
    match s.zones[z].up[0]
    case UpReassign(u, c) =>
      if c in s.route && s.route[c] != z
      then if y == s.route[c] then [DownReassign(u)] else if y == z then [DownAnswer(u, true)] else []
      else if y == z then [DownAnswer(u, false)] else []
    case UpEntity(e) => if e.spot.chunk in s.route && y == s.route[e.spot.chunk] then [DownEntity(e)] else []
    case UpDrained(id) => if y == z && s.zones[z].phase == Draining(id) then [DownDelete] else []
  }

  /** The confirmation of the open drain closes the zone; that of a drain that was given up changes nothing. */
  function Confirmed(zone: Zone): Phase
    requires zone.up != []
  {
    if zone.up[0].UpDrained? && zone.phase == Draining(zone.up[0].id) then Closing else zone.phase
  }

  /** Zone `y` once the head has read the first packet of zone `z`. */
  ghost function HeadLeaves(s: State, z: int, y: int): (r: Zone)
    requires z in s.zones && s.zones[z].up != [] && y in s.zones
    ensures Sent(s, z, y) == [] ==> r.down == s.zones[y].down
  {
    var told := s.zones[y].(down := s.zones[y].down + Sent(s, z, y));
    if y == z then told.(up := told.up[1..], phase := Confirmed(s.zones[z])) else told
  }

  /** The head reads one packet of zone `z`. */
  ghost function HeadReads(s: State, z: int): State
    requires z in s.zones && s.zones[z].up != []
  {
    s.(zones := map y | y in s.zones :: HeadLeaves(s, z, y))
  }

  /** A zone reads one packet of the head. */
  function ZoneReads(zone: Zone, order: seq<Entity>): Zone
    requires zone.down != []
  {
    var z := zone.(down := zone.down[1..]);
    match zone.down[0]
    case DownAnswer(u, routed) => if routed then z.(held := z.held - {u}, leased := z.leased - {u}) else z
    case DownReassign(u) => if u in z.held then z.(leased := z.leased + {u}) else z
    case DownEntity(e) => z.(held := z.held[e.uuid := e], leased := z.leased + {e.uuid})
    case DownDrain(id) => z.(up := z.up + Publication(order, id), leased := {})
    case DownDelete => z.(held := map[], leased := {}, phase := Gone)
  }

  function Updated(zone: Zone, e: Entity): Zone {
    zone.(held := zone.held[e.uuid := e], leased := zone.leased + {e.uuid})
  }

  function Abandoned(zone: Zone): Zone { if zone.phase == Gone then zone else zone.(phase := Evicted) }

  function Retired(zone: Zone, id: nat): Zone { zone.(phase := Draining(id), down := zone.down + [DownDrain(id)]) }

  ghost function Next(s: State, step: Step): State
    requires Legal(s, step)
  {
    match step
    case Join(z) => s.(zones := s.zones[z := JOINED])
    case Update(z, e) => s.(zones := s.zones[z := Updated(s.zones[z], e)], history := s.history + {e})
    case Hand(z, es) => s.(zones := s.zones[z := s.zones[z].(up := s.zones[z].up + Offers(es))])
    case HeadTakes(z) => HeadReads(s, z)
    case ZoneTakes(z, order) => s.(zones := s.zones[z := ZoneReads(s.zones[z], order)])
    case Reroute(route) => s.(route := route)
    case Retire(z, route) =>
      s.(zones := s.zones[z := Retired(s.zones[z], s.nextId)], route := route, nextId := s.nextId + 1)
    case Restore(z, route) => s.(zones := s.zones[z := s.zones[z].(phase := Serving)], route := route)
    case Evict(z, route) => s.(zones := s.zones[z := Abandoned(s.zones[z])], route := route)
    case Dies(z) => s.(zones := s.zones[z := s.zones[z].(held := map[], leased := {}, down := [], phase := Gone)])
  }

  // ------------------------------------------------------------------------------------------------
  // What becomes of an entity in a zone
  // ------------------------------------------------------------------------------------------------

  /** Not there; held without a lease; held under a lease; or put on the link to the head by a drain. */
  datatype Fate = Away | Unleased | Leased | Published {
    function Rank(): nat {
      match this
      case Away => 0
      case Unleased => 1
      case Leased => 2
      case Published => 3
    }
  }

  function Turn(f: Fate, m: Down, u: nat): Fate {
    if f == Published then Published
    else
      match m
      case DownAnswer(v, routed) => if v == u && routed then Away else f
      case DownReassign(v) => if v == u && f == Unleased then Leased else f
      case DownEntity(e) => if e.uuid == u then Leased else f
      case DownDrain(_) => if f == Leased then Published else f
      case DownDelete => Away
  }

  /** After the zone has read a whole queue. */
  function Turns(f: Fate, down: seq<Down>, u: nat): Fate {
    if down == [] then f else Turn(Turns(f, down[..|down| - 1], u), down[|down| - 1], u)
  }

  function Standing(zone: Zone, u: nat): Fate {
    if u !in zone.held then Away else if u in zone.leased then Leased else Unleased
  }

  /** What becomes of `u` in this zone when it reads everything already sent to it. */
  function FateOf(zone: Zone, u: nat): Fate { Turns(Standing(zone, u), zone.down, u) }

  /** A zone in service keeps what it holds; one that is leaving must publish it; an evicted one may not get to that. */
  predicate Kept(phase: Phase, f: Fate) {
    !phase.Gone? && !phase.Evicted? && (f == Published || (phase == Serving && f != Away))
  }

  /** A zone that still serves, or that has a drain to answer. */
  predicate Listening(zone: Zone) {
    zone.phase == Serving || (!zone.phase.Evicted? && exists i :: 0 <= i < |zone.down| && zone.down[i].DownDrain?)
  }

  lemma TurnsSnoc(f: Fate, down: seq<Down>, m: Down, u: nat)
    ensures Turns(f, down + [m], u) == Turn(Turns(f, down, u), m, u)
  {
    assert (down + [m])[..|down|] == down;
  }

  lemma {:induction false} TurnsTail(f: Fate, down: seq<Down>, u: nat)
    requires down != []
    ensures Turns(f, down, u) == Turns(Turn(f, down[0], u), down[1..], u)
  {
    if |down| == 1 {
      assert down[..0] == [] && down[1..] == [];
    } else {
      var init, last := down[..|down| - 1], down[|down| - 1];
      TurnsTail(f, init, u);
      assert down[1..] == init[1..] + [last];
      TurnsSnoc(Turn(f, down[0], u), init[1..], last, u);
    }
  }

  /** Holding more, or holding it under a lease, never makes things worse. */
  lemma {:induction false} TurnsMonotone(f: Fate, g: Fate, down: seq<Down>, u: nat)
    requires f.Rank() <= g.Rank()
    ensures Turns(f, down, u).Rank() <= Turns(g, down, u).Rank()
  {
    if down != [] {
      TurnsMonotone(f, g, down[..|down| - 1], u);
    }
  }

  lemma {:induction false} PublishedStays(down: seq<Down>, u: nat)
    ensures Turns(Published, down, u) == Published
  {
    if down != [] {
      PublishedStays(down[..|down| - 1], u);
    }
  }

  /** Without a drain in the queue nothing is published. */
  lemma {:induction false} NothingPublished(f: Fate, down: seq<Down>, u: nat)
    requires f != Published && forall i :: 0 <= i < |down| ==> !down[i].DownDrain?
    ensures Turns(f, down, u) != Published
  {
    if down != [] {
      NothingPublished(f, down[..|down| - 1], u);
    }
  }

  /** An id the queue never lets go of is published if there is a drain in it, and stays under its lease if not. */
  lemma {:induction false} LeasedThrough(down: seq<Down>, u: nat)
    requires forall i :: 0 <= i < |down| ==> down[i] != DownAnswer(u, true) && !down[i].DownDelete?
    ensures Turns(Leased, down, u) ==
            if exists i :: 0 <= i < |down| && down[i].DownDrain? then Published else Leased
  {
    if down != [] {
      var init, last := down[..|down| - 1], down[|down| - 1];
      LeasedThrough(init, u);
      assert last == down[|down| - 1];
      assert forall i :: 0 <= i < |init| ==> init[i] == down[i];
    }
  }

  // ------------------------------------------------------------------------------------------------
  // Safe copies
  // ------------------------------------------------------------------------------------------------

  datatype Copy = OnUp(z: int, i: nat) | In(z: int)

  /**
   A copy of `u` that nothing on the links takes away: a state on its way to the head, or a zone that keeps or
   publishes `u` when it reads everything already sent to it.
   */
  predicate Safe(s: State, u: nat, c: Copy) {
    && c.z in s.zones
    && var zone := s.zones[c.z];
       match c
       case OnUp(_, i) => i < |zone.up| && zone.up[i].UpEntity? && zone.up[i].entity.uuid == u
       case In(_) => Kept(zone.phase, FateOf(zone, u))
  }

  /** The zone, or its queue, has this state of `u`. */
  predicate Carries(zone: Zone, u: nat, e: Entity) {
    e.uuid == u && ((u in zone.held && zone.held[u] == e) || DownEntity(e) in zone.down)
  }

  // ------------------------------------------------------------------------------------------------
  // What holds of every zone
  // ------------------------------------------------------------------------------------------------

  /** Every request is immediately followed by the state it is about. */
  predicate Paired(up: seq<Up>) {
    forall i :: 0 <= i < |up| && up[i].UpReassign? ==>
      && i + 1 < |up| && up[i + 1].UpEntity?
      && up[i + 1].entity.uuid == up[i].uuid && up[i + 1].entity.spot.chunk == up[i].chunk
  }

  /** Only states that were really given to an entity travel or are held, and only live ids are talked about. */
  ghost predicate Genuine(zone: Zone, history: set<Entity>) {
    && (forall u :: u in zone.held ==> zone.held[u] in history && zone.held[u].uuid == u)
    && (forall i :: 0 <= i < |zone.up| ==> GenuineUp(zone.up[i], history))
    && (forall i :: 0 <= i < |zone.down| ==> GenuineDown(zone.down[i], history))
  }

  ghost predicate GenuineUp(m: Up, history: set<Entity>) {
    match m
    case UpEntity(e) => e in history
    case UpReassign(u, _) => u in Live(history)
    case UpDrained(_) => true
  }

  ghost predicate GenuineDown(m: Down, history: set<Entity>) {
    match m
    case DownEntity(e) => e in history
    case DownAnswer(u, _) => u in Live(history)
    case DownReassign(_) => true
    case DownDrain(_) => true
    case DownDelete => true
  }

  /** A drain on its way to the zone is newer than every confirmation on its way back, and than the drains before it. */
  ghost predicate DrainsInOrder(up: seq<Up>, down: seq<Down>) {
    && (forall i, j :: 0 <= i < j < |down| && down[i].DownDrain? && down[j].DownDrain? ==> down[i].id < down[j].id)
    && (forall i, j :: 0 <= i < |up| && 0 <= j < |down| && up[i].UpDrained? && down[j].DownDrain? ==>
          up[i].id < down[j].id)
  }

  ghost predicate DrainsBelow(up: seq<Up>, down: seq<Down>, next: nat) {
    && (forall i :: 0 <= i < |up| && up[i].UpDrained? ==> up[i].id < next)
    && (forall i :: 0 <= i < |down| && down[i].DownDrain? ==> down[i].id < next)
  }

  predicate NoDrainBesideDelete(down: seq<Down>) {
    forall i, j :: 0 <= i < |down| && 0 <= j < |down| && down[i].DownDelete? ==> !down[j].DownDrain?
  }

  /** The open drain is the newest, and a zone that is told to exit has answered every drain sent to it. */
  ghost predicate DrainOrder(zone: Zone, next: nat) {
    && DrainsInOrder(zone.up, zone.down)
    && DrainsBelow(zone.up, zone.down, next)
    && (zone.phase.Draining? ==> zone.phase.id < next && DrainsBelow(zone.up, zone.down, zone.phase.id + 1))
    && (zone.phase.Closing? || zone.phase.Gone? ==> forall i :: 0 <= i < |zone.down| ==> !zone.down[i].DownDrain?)
    && (zone.phase.Serving? || zone.phase.Draining? ==>
          forall i :: 0 <= i < |zone.down| ==> !zone.down[i].DownDelete?)
    && (zone.phase.Evicted? ==> NoDrainBesideDelete(zone.down))
  }

  ghost predicate ZoneOk(zone: Zone, history: set<Entity>, next: nat) {
    Paired(zone.up) && Genuine(zone, history) && DrainOrder(zone, next)
  }

  ghost predicate Ok(s: State) {
    (forall z :: z in s.zones ==> ZoneOk(s.zones[z], s.history, s.nextId)) && RouteFits(s.zones, s.route)
  }

  ghost predicate NothingLost(s: State) {
    forall u :: u in Live(s.history) ==> exists c :: Safe(s, u, c)
  }

  // ------------------------------------------------------------------------------------------------
  // Zones stay in order
  // ------------------------------------------------------------------------------------------------

  lemma MoreHistory(zone: Zone, history: set<Entity>, next: nat, e: Entity)
    requires ZoneOk(zone, history, next)
    ensures ZoneOk(zone, history + {e}, next)
  {
    assert forall u :: u in Live(history) ==> u in Live(history + {e});
  }

  lemma UpdateOk(zone: Zone, history: set<Entity>, next: nat, e: Entity)
    requires ZoneOk(zone, history, next) && e in history
    ensures ZoneOk(Updated(zone, e), history, next)
  {
  }

  lemma {:induction false} OffersPaired(es: seq<Entity>, history: set<Entity>)
    requires forall i :: 0 <= i < |es| ==> es[i] in history
    ensures Paired(Offers(es))
    ensures forall i :: 0 <= i < |Offers(es)| ==> GenuineUp(Offers(es)[i], history) && !Offers(es)[i].UpDrained?
  {
    if es != [] {
      OffersPaired(es[..|es| - 1], history);
      assert es[|es| - 1].uuid in Live(history);
    }
  }

  lemma PairedAppend(a: seq<Up>, b: seq<Up>)
    requires Paired(a) && Paired(b)
    ensures Paired(a + b)
  {
    var c := a + b;
    forall i | 0 <= i < |c| && c[i].UpReassign?
      ensures i + 1 < |c| && c[i + 1].UpEntity? && c[i + 1].entity.uuid == c[i].uuid &&
              c[i + 1].entity.spot.chunk == c[i].chunk
    {
      if i < |a| {
        assert a[i].UpReassign? && c[i + 1] == a[i + 1];
      } else {
        assert b[i - |a|].UpReassign? && c[i + 1] == b[i - |a| + 1];
      }
    }
  }

  lemma HandOk(zone: Zone, history: set<Entity>, next: nat, es: seq<Entity>)
    requires ZoneOk(zone, history, next)
    requires forall i :: 0 <= i < |es| ==> es[i] in history
    ensures ZoneOk(zone.(up := zone.up + Offers(es)), history, next)
  {
    OffersPaired(es, history);
    PairedAppend(zone.up, Offers(es));
    MoreUpOk(zone, history, next, Offers(es));
  }

  lemma MoreUpOk(zone: Zone, history: set<Entity>, next: nat, more: seq<Up>)
    requires ZoneOk(zone, history, next) && Paired(zone.up + more)
    requires forall i :: 0 <= i < |more| ==> GenuineUp(more[i], history)
    requires forall i :: 0 <= i < |more| ==> !more[i].UpDrained?
    ensures ZoneOk(zone.(up := zone.up + more), history, next)
  {
  }

  lemma PairedTail(up: seq<Up>)
    requires Paired(up) && up != []
    ensures Paired(up[1..])
  {
    forall i | 0 <= i < |up[1..]| && up[1..][i].UpReassign?
      ensures i + 1 < |up[1..]| && up[1..][i + 1].UpEntity? && up[1..][i + 1].entity.uuid == up[1..][i].uuid &&
              up[1..][i + 1].entity.spot.chunk == up[1..][i].chunk
    {
      assert up[i + 1].UpReassign?;
    }
  }

  /** What the head may add to a zone's queue. */
  ghost predicate MayTell(zone: Zone, history: set<Entity>, m: Down) {
    match m
    case DownAnswer(u, _) => u in Live(history)
    case DownReassign(_) => true
    case DownEntity(e) => e in history
    case DownDrain(_) => false
    case DownDelete => zone.phase == Closing
  }

  lemma TellOk(zone: Zone, history: set<Entity>, next: nat, m: Down)
    requires ZoneOk(zone, history, next) && MayTell(zone, history, m)
    ensures ZoneOk(zone.(down := zone.down + [m]), history, next)
  {
  }

  /** A confirmation of the newest drain is the last thing a draining zone had to say about drains. */
  lemma PopUpOk(zone: Zone, history: set<Entity>, next: nat)
    requires ZoneOk(zone, history, next) && zone.up != []
    ensures ZoneOk(zone.(up := zone.up[1..], phase := Confirmed(zone)), history, next)
  {
    PairedTail(zone.up);
    var up := zone.up[1..];
    assert forall i :: 0 <= i < |up| ==> up[i] == zone.up[i + 1];
    assert zone.up[0].UpDrained? ==> forall j :: 0 <= j < |zone.down| && zone.down[j].DownDrain? ==>
      zone.up[0].id < zone.down[j].id;
  }

  lemma RetireOk(zone: Zone, history: set<Entity>, next: nat)
    requires ZoneOk(zone, history, next) && zone.phase == Serving
    ensures ZoneOk(Retired(zone, next), history, next + 1)
  {
  }

  lemma AbandonOk(zone: Zone, history: set<Entity>, next: nat)
    requires ZoneOk(zone, history, next)
    ensures ZoneOk(Abandoned(zone), history, next)
  {
  }

  lemma ZoneReadsOk(zone: Zone, history: set<Entity>, next: nat, order: seq<Entity>)
    requires ZoneOk(zone, history, next) && zone.phase != Gone && zone.down != []
    requires zone.down[0].DownDrain? ==> Publishes(zone.held, zone.leased, order)
    ensures ZoneOk(ZoneReads(zone, order), history, next)
  {
    var m, popped := zone.down[0], zone.(down := zone.down[1..]);
    if m.DownDrain? {
      PublicationOk(zone, history, next, order);
    } else {
      PopDownOk(zone, history, next);
      assert GenuineDown(m, history);
      if m.DownEntity? {
        UpdateOk(popped, history, next, m.entity);
      }
    }
  }

  lemma PopDownOk(zone: Zone, history: set<Entity>, next: nat)
    requires ZoneOk(zone, history, next) && zone.down != []
    ensures ZoneOk(zone.(down := zone.down[1..]), history, next)
    ensures zone.down[0].DownDelete? ==> ZoneOk(zone.(down := zone.down[1..], phase := Gone), history, next)
  {
    var down := zone.down[1..];
    assert forall i :: 0 <= i < |down| ==> down[i] == zone.down[i + 1];
  }

  lemma PublicationOk(zone: Zone, history: set<Entity>, next: nat, order: seq<Entity>)
    requires ZoneOk(zone, history, next) && zone.down != [] && zone.down[0].DownDrain?
    requires forall i :: 0 <= i < |order| ==> order[i].uuid in zone.held && zone.held[order[i].uuid] == order[i]
    ensures ZoneOk(ZoneReads(zone, order), history, next)
  {
    var id := zone.down[0].id;
    assert Paired(States(order)) && forall i :: 0 <= i < |order| ==> GenuineUp(States(order)[i], history);
    PairedAppend(zone.up, States(order));
    MoreUpOk(zone, history, next, States(order));
    ConfirmOk(zone.(up := zone.up + States(order)), history, next);
    assert zone.up + States(order) + [UpDrained(id)] == zone.up + Publication(order, id);
  }

  /** The confirmation of the first drain in the queue takes that drain's place. */
  lemma ConfirmOk(zone: Zone, history: set<Entity>, next: nat)
    requires ZoneOk(zone, history, next) && zone.down != [] && zone.down[0].DownDrain?
    ensures ZoneOk(zone.(up := zone.up + [UpDrained(zone.down[0].id)], down := zone.down[1..], leased := {}), history,
            next)
  {
    var id := zone.down[0].id;
    PairedAppend(zone.up, [UpDrained(id)]);
    assert forall i :: 0 <= i < |zone.down[1..]| ==> zone.down[1..][i] == zone.down[i + 1];
  }

  lemma HeadReadsOk(s: State, z: int)
    requires Ok(s) && z in s.zones && s.zones[z].up != []
    ensures Ok(HeadReads(s, z))
  {
    forall y | y in s.zones ensures ZoneOk(HeadLeaves(s, z, y), s.history, s.nextId) {
      HeadLeavesOk(s, z, y);
    }
  }

  lemma HeadLeavesOk(s: State, z: int, y: int)
    requires Ok(s) && z in s.zones && s.zones[z].up != [] && y in s.zones
    ensures ZoneOk(HeadLeaves(s, z, y), s.history, s.nextId)
  {
    var zone, sent := s.zones[y], Sent(s, z, y);
    assert GenuineUp(s.zones[z].up[0], s.history) by { assert ZoneOk(s.zones[z], s.history, s.nextId); }
    if y == z {
      PopUpOk(zone, s.history, s.nextId);
      zone := zone.(up := zone.up[1..], phase := Confirmed(zone));
    }
    if sent == [] {
      assert zone.down + sent == zone.down;
    } else {
      TellOk(zone, s.history, s.nextId, sent[0]);
      assert sent == [sent[0]];
    }
  }

  /** A step that changes one zone keeps order if that zone does. */
  lemma OneZoneOk(s: State, z: int, zone: Zone)
    requires Ok(s) && ZoneOk(zone, s.history, s.nextId)
    requires z in s.zones && s.zones[z].phase == Serving ==> zone.phase == Serving
    ensures Ok(s.(zones := s.zones[z := zone]))
  {
  }

  lemma RewiredOk(s: State, z: int, zone: Zone, route: imap<Chunk, int>)
    requires Ok(s) && ZoneOk(zone, s.history, s.nextId) && RouteFits(s.zones[z := zone], route)
    ensures Ok(s.(zones := s.zones[z := zone], route := route))
  {
  }

  lemma RetireStepOk(s: State, z: int, route: imap<Chunk, int>)
    requires Ok(s) && Legal(s, Retire(z, route))
    ensures Ok(Next(s, Retire(z, route)))
  {
    RetireOk(s.zones[z], s.history, s.nextId);
    forall y | y in s.zones && y != z ensures ZoneOk(s.zones[y], s.history, s.nextId + 1) {
      assert ZoneOk(s.zones[y], s.history, s.nextId);
    }
  }

  lemma UpdateStepOk(s: State, z: int, e: Entity)
    requires Ok(s) && Legal(s, Update(z, e))
    ensures Ok(Next(s, Update(z, e)))
  {
    forall y | y in s.zones ensures ZoneOk(s.zones[y], s.history + {e}, s.nextId) {
      MoreHistory(s.zones[y], s.history, s.nextId, e);
    }
    var t := s.(history := s.history + {e});
    UpdateOk(s.zones[z], t.history, s.nextId, e);
    OneZoneOk(t, z, Updated(s.zones[z], e));
  }

  lemma StepOk(s: State, step: Step)
    requires Ok(s) && Legal(s, step)
    ensures Ok(Next(s, step))
  {
    match step {
      case Join(z) => OneZoneOk(s, z, JOINED);
      case Update(z, e) => UpdateStepOk(s, z, e);
      case Hand(z, es) =>
        HandOk(s.zones[z], s.history, s.nextId, es);
        OneZoneOk(s, z, s.zones[z].(up := s.zones[z].up + Offers(es)));
      case HeadTakes(z) => HeadReadsOk(s, z);
      case ZoneTakes(z, order) =>
        assert ZoneOk(s.zones[z], s.history, s.nextId);
        ZoneReadsOk(s.zones[z], s.history, s.nextId, order);
        OneZoneOk(s, z, ZoneReads(s.zones[z], order));
      case Reroute(route) =>
      case Retire(z, route) => RetireStepOk(s, z, route);
      case Restore(z, route) => RewiredOk(s, z, s.zones[z].(phase := Serving), route);
      case Evict(z, route) =>
        AbandonOk(s.zones[z], s.history, s.nextId);
        RewiredOk(s, z, Abandoned(s.zones[z]), route);
      case Dies(z) => OneZoneOk(s, z, s.zones[z].(held := map[], leased := {}, down := [], phase := Gone));
    }
  }

  // ------------------------------------------------------------------------------------------------
  // A safe copy survives every step
  // ------------------------------------------------------------------------------------------------

  /** If that copy is on its way to the head, the head can pass it on. */
  ghost predicate Covered(s: State, u: nat, c: Copy)
    requires Safe(s, u, c)
  {
    c.OnUp? ==> s.zones[c.z].up[c.i].entity.spot.chunk in s.route
  }

  /** The copy after the head has read the first packet of zone `z`, if that was not this copy. */
  function Shifted(z: int, c: Copy): Copy { if c.OnUp? && c.z == z && c.i > 0 then OnUp(z, c.i - 1) else c }

  /** The head answers this packet by telling the zone to let go of `u`. */
  ghost predicate Releases(s: State, z: int, u: nat)
    requires z in s.zones && s.zones[z].up != []
  {
    var m := s.zones[z].up[0];
    m.UpReassign? && m.uuid == u && m.chunk in s.route && s.route[m.chunk] != z
  }

  /** Whatever else the head sends, a zone keeps what it keeps. */
  lemma KeptByTelling(s: State, z: int, y: int, u: nat)
    requires Ok(s) && z in s.zones && s.zones[z].up != [] && y in s.zones && !(y == z && Releases(s, z, u))
    requires Kept(s.zones[y].phase, FateOf(s.zones[y], u))
    ensures var after := HeadLeaves(s, z, y); Kept(after.phase, FateOf(after, u))
  {
    var zone, sent := s.zones[y], Sent(s, z, y);
    assert Standing(HeadLeaves(s, z, y), u) == Standing(zone, u);
    if sent != [] {
      assert sent == [sent[0]];
      KeptByMessage(zone, HeadLeaves(s, z, y).phase, sent[0], u);
    }
  }

  lemma KeptByMessage(zone: Zone, phase: Phase, m: Down, u: nat)
    requires Kept(zone.phase, FateOf(zone, u)) && m != DownAnswer(u, true) && !m.DownDrain?
    requires if m.DownDelete? then zone.phase.Draining? && phase == Closing else phase == zone.phase
    ensures Kept(phase, Turns(Standing(zone, u), zone.down + [m], u))
  {
    TurnsSnoc(Standing(zone, u), zone.down, m, u);
  }

  /** Any other packet leaves every other copy what it is. */
  lemma ShiftedIsSafe(s: State, z: int, u: nat, c: Copy)
    requires Ok(s) && z in s.zones && s.zones[z].up != [] && Safe(s, u, c) && c != OnUp(z, 0) && !Releases(s, z, u)
    ensures Safe(HeadReads(s, z), u, Shifted(z, c))
    ensures Covered(s, u, c) ==> Covered(HeadReads(s, z), u, Shifted(z, c))
  {
    if c.In? {
      KeptByTelling(s, z, c.z, u);
    }
  }

  /** The head reads a request it can route: the state right behind it is the safe copy now. */
  lemma ReleasedBehind(s: State, z: int, u: nat)
    requires Ok(s) && z in s.zones && s.zones[z].up != [] && Releases(s, z, u)
    ensures Safe(HeadReads(s, z), u, OnUp(z, 0)) && Covered(HeadReads(s, z), u, OnUp(z, 0))
  {
    var up := s.zones[z].up;
    assert ZoneOk(s.zones[z], s.history, s.nextId) && Paired(up) && up[0].UpReassign?;
    assert up[1] == up[1..][0];
  }

  /** The head passes a state on. */
  lemma PassedOn(s: State, z: int)
    requires Ok(s) && z in s.zones && s.zones[z].up != [] && s.zones[z].up[0].UpEntity?
    requires s.zones[z].up[0].entity.spot.chunk in s.route
    ensures var e := s.zones[z].up[0].entity; Safe(HeadReads(s, z), e.uuid, In(s.route[e.spot.chunk]))
  {
    var e := s.zones[z].up[0].entity;
    var y := s.route[e.spot.chunk];
    FateAfterReading(s, z, y, e.uuid);
    assert Sent(s, z, y) == [DownEntity(e)] && HeadLeaves(s, z, y).phase == Serving;
  }

  lemma SafeAfterHead(s: State, z: int, u: nat, c: Copy) returns (c': Copy)
    requires Ok(s) && Legal(s, HeadTakes(z)) && Safe(s, u, c) && Spares(s, HeadTakes(z), u, c)
    ensures Safe(HeadReads(s, z), u, c') && (Covered(s, u, c) ==> Covered(HeadReads(s, z), u, c'))
  {
    if Releases(s, z, u) {
      ReleasedBehind(s, z, u);
      c' := OnUp(z, 0);
    } else if c == OnUp(z, 0) {
      PassedOn(s, z);
      c' := In(s.route[s.zones[z].up[0].entity.spot.chunk]);
    } else {
      ShiftedIsSafe(s, z, u, c);
      c' := Shifted(z, c);
    }
  }

  /** Reading a packet brings an entity one turn further on its way; what a drain publishes is on the link. */
  lemma ReadIsTurn(zone: Zone, order: seq<Entity>, u: nat)
    requires zone.down != []
    ensures var f := Turn(Standing(zone, u), zone.down[0], u);
            && FateOf(zone, u) == Turns(f, zone.down[1..], u)
            && (f != Published ==> FateOf(ZoneReads(zone, order), u) == FateOf(zone, u))
            && (f == Published <==> zone.down[0].DownDrain? && u in zone.held && u in zone.leased)
  {
    TurnsTail(Standing(zone, u), zone.down, u);
    assert Turn(Standing(zone, u), zone.down[0], u) != Published ==>
      Standing(ZoneReads(zone, order), u) == Turn(Standing(zone, u), zone.down[0], u);
  }

  /** A zone that is told to exit has nothing left that anybody counts on. */
  lemma NothingSafeAtExit(zone: Zone, history: set<Entity>, next: nat, u: nat)
    requires ZoneOk(zone, history, next) && zone.phase != Serving
    requires forall i :: 0 <= i < |zone.down| ==> !zone.down[i].DownDrain?
    ensures !Kept(zone.phase, FateOf(zone, u))
  {
    NothingPublished(Standing(zone, u), zone.down, u);
  }

  /** The published state of `u`. */
  lemma PublishedCopy(s: State, z: int, order: seq<Entity>, u: nat) returns (c: Copy)
    requires Legal(s, ZoneTakes(z, order)) && s.zones[z].down[0].DownDrain?
    requires u in s.zones[z].held && u in s.zones[z].leased && s.zones[z].held[u].uuid == u
    ensures c.OnUp? && c.z == z && Safe(Next(s, ZoneTakes(z, order)), u, c)
    ensures Next(s, ZoneTakes(z, order)).zones[z].up[c.i].entity == s.zones[z].held[u]
  {
    var zone := s.zones[z];
    var k :| 0 <= k < |order| && order[k] == zone.held[u];
    c := OnUp(z, |zone.up| + k);
    assert ZoneReads(zone, order).up[|zone.up| + k] == Publication(order, zone.down[0].id)[k];
  }

  lemma SafeAfterRead(s: State, z: int, order: seq<Entity>, u: nat, c: Copy) returns (c': Copy)
    requires Ok(s) && Legal(s, ZoneTakes(z, order)) && Safe(s, u, c)
    ensures var t := Next(s, ZoneTakes(z, order));
            Safe(t, u, c') && (Covered(s, u, c) && AnswersCovered(s, z) ==> Covered(t, u, c'))
  {
    var zone := s.zones[z];
    var after := ZoneReads(zone, order);
    c' := c;
    if c == In(z) {
      ReadIsTurn(zone, order, u);
      assert ZoneOk(zone, s.history, s.nextId);
      if zone.down[0].DownDelete? {
        NothingSafeAtExit(zone, s.history, s.nextId, u);
      } else if zone.down[0].DownDrain? && u in zone.held && u in zone.leased && !KeptAfterDrain(zone, u) {
        c' := PublishedCopy(s, z, order, u);
      }
    }
  }

  /** The rest of the queue keeps `u` in the zone although its lease is gone. */
  ghost predicate KeptAfterDrain(zone: Zone, u: nat)
    requires zone.down != []
  {
    Kept(zone.phase, Turns(if u in zone.held then Unleased else Away, zone.down[1..], u))
  }

  /** What the zone is about to publish stands on a chunk somebody covers, or stays in the zone as well. */
  ghost predicate AnswersCovered(s: State, z: int)
    requires z in s.zones && s.zones[z].down != []
  {
    var zone := s.zones[z];
    zone.down[0].DownDrain? ==> forall u :: u in zone.held && u in zone.leased ==>
      zone.held[u].spot.chunk in s.route || KeptAfterDrain(zone, u)
  }

  /**
   The step does not take this very copy away: the head is not reading it on a chunk nobody covers, and it is not
   held without a lease in a zone that is being retired, or at all in one that is being evicted.
   */
  ghost predicate Spares(s: State, step: Step, u: nat, c: Copy)
    requires Legal(s, step)
  {
    match step
    case HeadTakes(z) =>
      c == OnUp(z, 0) && s.zones[z].up[0].UpEntity? ==> s.zones[z].up[0].entity.spot.chunk in s.route
    case Retire(z, _) => c == In(z) ==> FateOf(s.zones[z], u) != Unleased
    case Evict(z, _) => c != In(z)
    case _ => true
  }

  lemma SafeAfterUpdate(s: State, z: int, e: Entity, u: nat, c: Copy)
    requires Ok(s) && Legal(s, Update(z, e)) && Safe(s, u, c)
    ensures Safe(Next(s, Update(z, e)), u, c) && (Covered(s, u, c) ==> Covered(Next(s, Update(z, e)), u, c))
  {
    TurnsMonotone(Standing(s.zones[z], u), Standing(Updated(s.zones[z], e), u), s.zones[z].down, u);
  }

  lemma RetiredFate(zone: Zone, id: nat, u: nat)
    ensures FateOf(Retired(zone, id), u) == Turn(FateOf(zone, u), DownDrain(id), u)
  {
    TurnsSnoc(Standing(zone, u), zone.down, DownDrain(id), u);
  }

  lemma SafeAfterRetire(s: State, z: int, route: imap<Chunk, int>, u: nat, c: Copy)
    requires Ok(s) && Legal(s, Retire(z, route)) && Safe(s, u, c) && Spares(s, Retire(z, route), u, c)
    ensures Safe(Next(s, Retire(z, route)), u, c)
  {
    RetiredFate(s.zones[z], s.nextId, u);
  }

  /** A change of the routing and of the phases alone. */
  lemma SafeAfterRewiring(s: State, step: Step, u: nat, c: Copy)
    requires Ok(s) && Legal(s, step) && (step.Reroute? || step.Retire? || step.Restore? || step.Evict?)
    requires Safe(s, u, c) && Spares(s, step, u, c)
    ensures Safe(Next(s, step), u, c) && (Covered(s, u, c) && Orderly(s, step) ==> Covered(Next(s, step), u, c))
  {
    if step.Retire? {
      SafeAfterRetire(s, step.z, step.route, u, c);
    }
  }

  lemma SafeAfterStep(s: State, step: Step, u: nat, c: Copy) returns (c': Copy)
    requires Ok(s) && Legal(s, step) && Safe(s, u, c) && Spares(s, step, u, c)
    ensures Safe(Next(s, step), u, c') && (Covered(s, u, c) && Orderly(s, step) ==> Covered(Next(s, step), u, c'))
  {
    c' := c;
    if step.HeadTakes? {
      c' := SafeAfterHead(s, step.z, u, c);
    } else if step.ZoneTakes? {
      c' := SafeAfterRead(s, step.z, step.order, u, c);
    } else if step.Update? {
      SafeAfterUpdate(s, step.z, step.e, u, c);
    } else if !step.Join? && !step.Hand? && !step.Dies? {
      SafeAfterRewiring(s, step, u, c);
    }
  }

  // ------------------------------------------------------------------------------------------------
  // When a step loses nothing
  // ------------------------------------------------------------------------------------------------

  /** A safe copy other than `d`. */
  ghost predicate SafeBeside(s: State, d: Copy, u: nat) { exists c :: Safe(s, u, c) && c != d }

  /** A new id is put into a zone only while it serves or has a drain to answer. */
  ghost predicate InTime(s: State, z: int, u: nat)
    requires z in s.zones
  {
    Listening(s.zones[z]) || u in Live(s.history)
  }

  /**
   A new id is put into a zone in time; a state the head reads stands on a chunk somebody covers or is not the last
   copy of its id; what a zone that is being retired would hold without a lease is safe elsewhere, and so is everything
   a zone that is being evicted would keep.
   */
  ghost predicate Harmless(s: State, step: Step)
    requires Legal(s, step)
  {
    match step
    case Update(z, e) => InTime(s, z, e.uuid)
    case HeadTakes(z) =>
      var m := s.zones[z].up[0];
      m.UpEntity? ==> m.entity.spot.chunk in s.route || SafeBeside(s, OnUp(z, 0), m.entity.uuid)
    case Retire(z, _) =>
      forall u :: u in Live(s.history) && FateOf(s.zones[z], u) == Unleased ==> SafeBeside(s, In(z), u)
    case Evict(z, _) =>
      forall u :: u in Live(s.history) && Kept(s.zones[z].phase, FateOf(s.zones[z], u)) ==> SafeBeside(s, In(z), u)
    case _ => true
  }

  /** An id nobody has heard of yet has no release on the way. */
  lemma NewIsSafe(s: State, z: int, e: Entity)
    requires Ok(s) && Legal(s, Update(z, e)) && e.uuid !in Live(s.history) && Listening(s.zones[z])
    ensures Safe(Next(s, Update(z, e)), e.uuid, In(z))
  {
    assert ZoneOk(s.zones[z], s.history, s.nextId);
    assert forall i :: 0 <= i < |s.zones[z].down| ==> GenuineDown(s.zones[z].down[i], s.history);
    LeasedThrough(s.zones[z].down, e.uuid);
  }

  /** A copy that is safe in a zone or on its way from there carries a state somebody really gave that id. */
  lemma SafeIsGenuine(s: State, u: nat, c: Copy) returns (e: Entity)
    requires Ok(s) && Safe(s, u, c)
    ensures e.uuid == u && e in s.history && u in Live(s.history)
    ensures if c.OnUp? then s.zones[c.z].up[c.i] == UpEntity(e) else Carries(s.zones[c.z], u, e)
  {
    var zone := s.zones[c.z];
    assert ZoneOk(zone, s.history, s.nextId);
    if c.OnUp? {
      e := zone.up[c.i].entity;
      assert GenuineUp(zone.up[c.i], s.history);
    } else if u in zone.held {
      e := zone.held[u];
    } else {
      var i := NotAwayIsSent(zone.down, u);
      e := zone.down[i].entity;
      assert GenuineDown(zone.down[i], s.history);
    }
  }

  lemma {:induction false} NotAwayIsSent(down: seq<Down>, u: nat) returns (i: nat)
    requires Turns(Away, down, u) != Away
    ensures i < |down| && down[i].DownEntity? && down[i].entity.uuid == u
  {
    i := |down| - 1;
    if Turns(Away, down[..|down| - 1], u) != Away {
      i := NotAwayIsSent(down[..|down| - 1], u);
    }
  }

  /** What is put into a zone too late is safe only if its id was safe, and so known, before. */
  lemma LateIsUnsafe(s: State, z: int, e: Entity, c: Copy)
    requires Ok(s) && Legal(s, Update(z, e)) && !Listening(s.zones[z]) && Safe(Next(s, Update(z, e)), e.uuid, c)
    ensures e.uuid in Live(s.history)
  {
    assert ZoneOk(s.zones[z], s.history, s.nextId);
    if !s.zones[z].phase.Evicted? {
      NothingPublished(Leased, s.zones[z].down, e.uuid);
    }
    assert c != In(z);
    assert Safe(s, e.uuid, c);
    var known := SafeIsGenuine(s, e.uuid, c);
  }

  /** When the head drops a state, every copy that is safe afterwards was safe before, beside the one dropped. */
  lemma DroppedLeavesTheRest(s: State, z: int, u: nat, c: Copy)
    requires Ok(s) && z in s.zones && s.zones[z].up != [] && s.zones[z].up[0].UpEntity?
    requires s.zones[z].up[0].entity.spot.chunk !in s.route && Safe(HeadReads(s, z), u, c)
    ensures SafeBeside(s, OnUp(z, 0), u)
  {
    var before := if c.OnUp? && c.z == z then OnUp(z, c.i + 1) else c;
    assert Standing(HeadLeaves(s, z, c.z), u) == Standing(s.zones[c.z], u);
    assert Safe(s, u, before) && before != OnUp(z, 0);
  }

  /** Retiring a zone makes no copy safe, and what it holds without a lease is not safe in it any more. */
  lemma RetiredLeavesTheRest(s: State, z: int, route: imap<Chunk, int>, u: nat, c: Copy)
    requires Ok(s) && Legal(s, Retire(z, route)) && FateOf(s.zones[z], u) == Unleased
    requires Safe(Next(s, Retire(z, route)), u, c)
    ensures SafeBeside(s, In(z), u)
  {
    RetiredFate(s.zones[z], s.nextId, u);
    assert Safe(s, u, c) && c != In(z);
  }

  /** An eviction makes no copy safe, and leaves none in the zone. */
  lemma EvictedLeavesTheRest(s: State, z: int, route: imap<Chunk, int>, u: nat, c: Copy)
    requires Ok(s) && Legal(s, Evict(z, route)) && Safe(Next(s, Evict(z, route)), u, c)
    ensures SafeBeside(s, In(z), u)
  {
    assert Safe(s, u, c) && c != In(z);
  }

  lemma HarmlessLosesNothing(s: State, step: Step)
    requires Ok(s) && NothingLost(s) && Legal(s, step) && Harmless(s, step)
    ensures NothingLost(Next(s, step))
  {
    var t := Next(s, step);
    forall u | u in Live(t.history) ensures exists c :: Safe(t, u, c) {
      if u in Live(s.history) {
        var c := SparedCopy(s, step, u);
        var c' := SafeAfterStep(s, step, u, c);
      } else {
        NewIsSafe(s, step.z, step.e);
      }
    }
  }

  lemma SparedCopy(s: State, step: Step, u: nat) returns (c: Copy)
    requires Ok(s) && NothingLost(s) && Legal(s, step) && Harmless(s, step) && u in Live(s.history)
    ensures Safe(s, u, c) && Spares(s, step, u, c)
  {
    c :| Safe(s, u, c);
    if !Spares(s, step, u, c) {
      ghost var lost := c;
      assert SafeBeside(s, lost, u);
      c :| Safe(s, u, c) && c != lost;
    }
  }

  /** Exactly the harmless steps lose nothing. */
  lemma StepLosesNothingIff(s: State, step: Step)
    requires Ok(s) && NothingLost(s) && Legal(s, step)
    ensures NothingLost(Next(s, step)) <==> Harmless(s, step)
  {
    if Harmless(s, step) {
      HarmlessLosesNothing(s, step);
    } else {
      var u := HarmfulLoses(s, step);
    }
  }

  lemma HarmfulLoses(s: State, step: Step) returns (u: nat)
    requires Ok(s) && Legal(s, step) && !Harmless(s, step)
    ensures u in Live(Next(s, step).history) && forall c :: !Safe(Next(s, step), u, c)
  {
    var t := Next(s, step);
    match step {
      case Update(z, e) =>
        u := e.uuid;
        assert e in t.history;
        if c :| Safe(t, u, c) {
          LateIsUnsafe(s, z, e, c);
        }
      case HeadTakes(z) =>
        u := s.zones[z].up[0].entity.uuid;
        assert ZoneOk(s.zones[z], s.history, s.nextId) && GenuineUp(s.zones[z].up[0], s.history);
        if c :| Safe(t, u, c) {
          DroppedLeavesTheRest(s, z, u, c);
        }
      case Retire(z, route) =>
        u :| u in Live(s.history) && FateOf(s.zones[z], u) == Unleased && !SafeBeside(s, In(z), u);
        if c :| Safe(t, u, c) {
          RetiredLeavesTheRest(s, z, route, u, c);
        }
      case Evict(z, route) =>
        u :| u in Live(s.history) && Kept(s.zones[z].phase, FateOf(s.zones[z], u)) && !SafeBeside(s, In(z), u);
        if c :| Safe(t, u, c) {
          EvictedLeavesTheRest(s, z, route, u, c);
        }
    }
  }

  // ------------------------------------------------------------------------------------------------
  // Whole runs
  // ------------------------------------------------------------------------------------------------

  ghost predicate AllLegal(s: State, steps: seq<Step>)
    decreases |steps|
  {
    steps != [] ==> Legal(s, steps[0]) && AllLegal(Next(s, steps[0]), steps[1..])
  }

  ghost function Run(s: State, steps: seq<Step>): State
    requires AllLegal(s, steps)
    decreases |steps|
  {
    if steps == [] then s else Run(Next(s, steps[0]), steps[1..])
  }

  const START: State := State(map[], imap[], {}, 1)

  ghost predicate AllHarmless(s: State, steps: seq<Step>)
    requires AllLegal(s, steps)
    decreases |steps|
  {
    steps != [] ==> Harmless(s, steps[0]) && AllHarmless(Next(s, steps[0]), steps[1..])
  }

  /**
   In every run whose steps are harmless, time-outs of drains, drains after them and evictions included, each live
   entity has a safe copy, and whatever is held or in flight is a state some zone really gave that entity. No step
   outside that class keeps this (`StepLosesNothingIff`).
   */
  lemma {:induction false} NeverLost(s: State, steps: seq<Step>)
    requires Ok(s) && NothingLost(s) && AllLegal(s, steps) && AllHarmless(s, steps)
    ensures Ok(Run(s, steps)) && NothingLost(Run(s, steps))
    decreases |steps|
  {
    if steps != [] {
      StepOk(s, steps[0]);
      HarmlessLosesNothing(s, steps[0]);
      NeverLost(Next(s, steps[0]), steps[1..]);
    }
  }

  /** Whatever the steps, what is held or in flight is genuine and the links keep their order. */
  lemma {:induction false} OkOverRuns(s: State, steps: seq<Step>)
    requires Ok(s) && AllLegal(s, steps)
    ensures Ok(Run(s, steps))
    decreases |steps|
  {
    if steps != [] {
      StepOk(s, steps[0]);
      OkOverRuns(Next(s, steps[0]), steps[1..]);
    }
  }

  /** Each live entity has a safe copy that the head, if it is on its way there, can pass on. */
  ghost predicate AllCovered(s: State) {
    forall u :: u in Live(s.history) ==> exists c :: Safe(s, u, c) && Covered(s, u, c)
  }

  /** A safe and covered copy other than in zone `z`. */
  ghost predicate Elsewhere(s: State, z: int, u: nat) {
    exists c :: Safe(s, u, c) && Covered(s, u, c) && c != In(z)
  }

  /**
   The routed chunks do not shrink, a drain is answered on covered chunks, a zone is retired with what it holds
   leased or safe elsewhere, one is evicted with everything safe elsewhere, and a new id comes in time.
   */
  ghost predicate Orderly(s: State, step: Step)
    requires Legal(s, step)
  {
    match step
    case Reroute(route) => s.route.Keys <= route.Keys
    case Retire(z, route) => s.route.Keys <= route.Keys && Retirable(s, z)
    case Restore(_, route) => s.route.Keys <= route.Keys
    case Evict(z, route) => s.route.Keys <= route.Keys && Dispensable(s, z)
    case ZoneTakes(z, _) => AnswersCovered(s, z)
    case Update(z, e) => InTime(s, z, e.uuid)
    case _ => true
  }

  ghost predicate Retirable(s: State, z: int)
    requires z in s.zones
  {
    forall u :: u in Live(s.history) && FateOf(s.zones[z], u) == Unleased ==> Elsewhere(s, z, u)
  }

  ghost predicate Dispensable(s: State, z: int)
    requires z in s.zones
  {
    forall u :: u in Live(s.history) && Kept(s.zones[z].phase, FateOf(s.zones[z], u)) ==> Elsewhere(s, z, u)
  }

  lemma CoveredIsHarmless(s: State, step: Step)
    requires Ok(s) && AllCovered(s) && Legal(s, step) && Orderly(s, step)
    ensures Harmless(s, step)
  {
    if step.HeadTakes? && s.zones[step.z].up[0].UpEntity? {
      var e := s.zones[step.z].up[0].entity;
      assert ZoneOk(s.zones[step.z], s.history, s.nextId) && GenuineUp(s.zones[step.z].up[0], s.history);
      assert e.uuid in Live(s.history);
      var c :| Safe(s, e.uuid, c) && Covered(s, e.uuid, c);
    }
  }

  lemma OrderlyKeepsCovered(s: State, step: Step)
    requires Ok(s) && AllCovered(s) && Legal(s, step) && Orderly(s, step)
    ensures AllCovered(Next(s, step))
  {
    var t := Next(s, step);
    forall u | u in Live(t.history) ensures exists c :: Safe(t, u, c) && Covered(t, u, c) {
      if u in Live(s.history) {
        var c :| Safe(s, u, c) && Covered(s, u, c);
        if !Spares(s, step, u, c) {
          assert Elsewhere(s, step.z, u);
          c :| Safe(s, u, c) && Covered(s, u, c) && c != In(step.z);
        }
        var c' := SafeAfterStep(s, step, u, c);
      } else {
        NewIsSafe(s, step.z, step.e);
      }
    }
  }

  ghost predicate AllOrderly(s: State, steps: seq<Step>)
    requires AllLegal(s, steps)
    decreases |steps|
  {
    steps != [] ==> Orderly(s, steps[0]) && AllOrderly(Next(s, steps[0]), steps[1..])
  }

  /**
   While coverage does not shrink nobody has to look for other copies of what the head reads: in every such run, with
   any interleaving, retries, stale answers, hand-backs and time-outs, every step is harmless.
   */
  lemma {:induction false} SteadyCoverageLosesNothing(s: State, steps: seq<Step>)
    requires Ok(s) && AllCovered(s) && AllLegal(s, steps) && AllOrderly(s, steps)
    ensures AllHarmless(s, steps) && Ok(Run(s, steps)) && AllCovered(Run(s, steps)) && NothingLost(Run(s, steps))
    decreases |steps|
  {
    if steps != [] {
      StepOk(s, steps[0]);
      CoveredIsHarmless(s, steps[0]);
      OrderlyKeepsCovered(s, steps[0]);
      SteadyCoverageLosesNothing(Next(s, steps[0]), steps[1..]);
    }
  }

  lemma StartIsOk()
    ensures Ok(START) && NothingLost(START) && AllCovered(START)
  {
  }

  ghost predicate Quiet(s: State) { forall z :: z in s.zones ==> s.zones[z].up == [] && s.zones[z].down == [] }

  /** So whenever the links are quiet, every live entity is held by a zone in service, in a state it really had. */
  lemma HeldWhenQuiet(s: State, u: nat) returns (z: int)
    requires Ok(s) && NothingLost(s) && Quiet(s) && u in Live(s.history)
    ensures z in s.zones && s.zones[z].phase == Serving && u in s.zones[z].held && s.zones[z].held[u] in s.history
  {
    var c :| Safe(s, u, c);
    z := c.z;
    assert ZoneOk(s.zones[z], s.history, s.nextId);
  }

  // ------------------------------------------------------------------------------------------------
  // The limits of the guarantee
  // ------------------------------------------------------------------------------------------------

  /** The zone holds `u` under a lease, on a chunk somebody covers. */
  ghost predicate PublishedCovered(s: State, z: int, u: nat)
    requires z in s.zones
  {
    var zone := s.zones[z];
    u in zone.held && u in zone.leased && zone.held[u].spot.chunk in s.route
  }

  /**
   When a zone answers a drain, everything stays covered exactly if every live entity is covered elsewhere, is kept by
   the zone even without its lease, or is held under a lease on a chunk somebody covers. An entity the zone was told
   to keep, because nobody covers its chunk, is dropped when the head reads it (`StepLosesNothingIff`).
   */
  lemma DrainLosesNothingIff(s: State, z: int, order: seq<Entity>)
    requires Ok(s) && Legal(s, ZoneTakes(z, order)) && s.zones[z].down[0].DownDrain?
    ensures AllCovered(Next(s, ZoneTakes(z, order))) <==>
            forall u :: u in Live(s.history) ==>
              Elsewhere(s, z, u) || KeptAfterDrain(s.zones[z], u) || PublishedCovered(s, z, u)
  {
    var t := Next(s, ZoneTakes(z, order));
    forall u | u in Live(s.history)
      ensures (exists c :: Safe(t, u, c) && Covered(t, u, c)) <==>
              Elsewhere(s, z, u) || KeptAfterDrain(s.zones[z], u) || PublishedCovered(s, z, u)
    {
      if c :| Safe(t, u, c) && Covered(t, u, c) {
        CoveredBeforeDrain(s, z, order, u, c);
      }
      if Elsewhere(s, z, u) || KeptAfterDrain(s.zones[z], u) || PublishedCovered(s, z, u) {
        var c := CoveredAfterDrain(s, z, order, u);
      }
    }
  }

  lemma CoveredAfterDrain(s: State, z: int, order: seq<Entity>, u: nat) returns (c: Copy)
    requires Ok(s) && Legal(s, ZoneTakes(z, order)) && s.zones[z].down[0].DownDrain?
    requires Elsewhere(s, z, u) || KeptAfterDrain(s.zones[z], u) || PublishedCovered(s, z, u)
    ensures var t := Next(s, ZoneTakes(z, order)); Safe(t, u, c) && Covered(t, u, c)
  {
    assert ZoneOk(s.zones[z], s.history, s.nextId);
    if KeptAfterDrain(s.zones[z], u) {
      c := In(z);
    } else if Elsewhere(s, z, u) {
      c :| Safe(s, u, c) && Covered(s, u, c) && c != In(z);
    } else {
      c := PublishedCopy(s, z, order, u);
    }
  }

  lemma CoveredBeforeDrain(s: State, z: int, order: seq<Entity>, u: nat, c: Copy)
    requires Ok(s) && Legal(s, ZoneTakes(z, order)) && s.zones[z].down[0].DownDrain?
    requires var t := Next(s, ZoneTakes(z, order)); Safe(t, u, c) && Covered(t, u, c)
    ensures Elsewhere(s, z, u) || KeptAfterDrain(s.zones[z], u) || PublishedCovered(s, z, u)
  {
    var zone := s.zones[z];
    var after := ZoneReads(zone, order);
    if c == In(z) {
      assert KeptAfterDrain(zone, u);
    } else if c.z == z && c.i >= |zone.up| {
      assert after.up[c.i] == Publication(order, zone.down[0].id)[c.i - |zone.up|];
    } else {
      assert Safe(s, u, c) && Covered(s, u, c);
    }
  }

  // ------------------------------------------------------------------------------------------------
  // One attempt and its copies
  // ------------------------------------------------------------------------------------------------

  /** The zone will still have `u` when it has read everything sent to it, or will have published it. */
  predicate Has(s: State, y: int, u: nat) { y in s.zones && FateOf(s.zones[y], u) != Away }

  /** Zone `z` alone has the entity, and the head is about to read an attempt to hand it over. */
  ghost predicate Offering(s: State, z: int, e: Entity) {
    && z in s.zones && Offer(e) <= s.zones[z].up
    && FateOf(s.zones[z], e.uuid) in {Unleased, Leased}
    && forall y :: y in s.zones && y != z ==> FateOf(s.zones[y], e.uuid) == Away
  }

  /** The attempt is read: the request, a change of the routing if there is one, and the state. */
  ghost function Attempted(s: State, z: int, route: imap<Chunk, int>): State
    requires z in s.zones && |s.zones[z].up| >= 2
  {
    HeadReads(HeadReads(s, z).(route := route), z)
  }

  lemma FateAfterReading(s: State, z: int, y: int, u: nat)
    requires z in s.zones && s.zones[z].up != [] && y in s.zones
    ensures var sent := Sent(s, z, y);
            FateOf(HeadLeaves(s, z, y), u) ==
            if sent == [] then FateOf(s.zones[y], u) else Turn(FateOf(s.zones[y], u), sent[0], u)
  {
    var zone, sent := s.zones[y], Sent(s, z, y);
    assert Standing(HeadLeaves(s, z, y), u) == Standing(zone, u);
    if sent != [] {
      assert sent == [sent[0]];
      TurnsSnoc(Standing(zone, u), zone.down, sent[0], u);
    }
  }

  /** Who has the entity after the request was read: the zone that offered it, unless it was told to let go. */
  lemma AfterRequest(s: State, z: int, e: Entity, y: int)
    requires Offering(s, z, e) && y in s.zones
    ensures var t := HeadReads(s, z);
            && y in t.zones && FateOf(t.zones[y], e.uuid) in {Away, Unleased, Leased}
            && (Has(t, y, e.uuid) <==> y == z && !Releases(s, z, e.uuid))
  {
    FateAfterReading(s, z, y, e.uuid);
  }

  /** Who has it after the attempt. */
  lemma AttemptGives(s: State, z: int, e: Entity, route: imap<Chunk, int>, y: int)
    requires Offering(s, z, e) && y in s.zones
    ensures Has(Attempted(s, z, route), y, e.uuid) <==>
            (y == z && !Releases(s, z, e.uuid)) || (e.spot.chunk in route && route[e.spot.chunk] == y)
  {
    var t := HeadReads(s, z).(route := route);
    AfterRequest(s, z, e, y);
    assert t.zones[z].up[0] == UpEntity(e) by { assert s.zones[z].up[1] == Offer(e)[1]; }
    FateAfterReading(t, z, y, e.uuid);
  }

  ghost predicate TwoHave(s: State, u: nat) { exists x, y :: x != y && Has(s, x, u) && Has(s, y, u) }

  /**
   One attempt of a zone that alone has an entity, with any routing when its request is read and any other when its
   state is: it ends with two copies if and only if the request was refused and the state routed to another zone, and
   with none if and only if the request was routed and the state was not.
   */
  lemma AttemptIff(s: State, z: int, e: Entity, route: imap<Chunk, int>)
    requires Offering(s, z, e) && (e.spot.chunk in route ==> route[e.spot.chunk] in s.zones)
    ensures var t, c, refused := Attempted(s, z, route), e.spot.chunk, !Releases(s, z, e.uuid);
            && (TwoHave(t, e.uuid) <==> refused && c in route && route[c] != z)
            && ((forall y :: !Has(t, y, e.uuid)) <==> !refused && c !in route)
  {
    var t, c := Attempted(s, z, route), e.spot.chunk;
    forall y | y in s.zones
      ensures Has(t, y, e.uuid) <==> (y == z && !Releases(s, z, e.uuid)) || (c in route && route[c] == y)
    {
      AttemptGives(s, z, e, route, y);
    }
    assert t.zones.Keys == s.zones.Keys;
  }

  /**
   So the handoff is at-least-once, not exactly-once. From the start: a request that is refused and a state that is
   routed leave two zones holding the same entity, with nothing on the links to resolve it.
   */
  lemma CanDuplicate(e: Entity) returns (steps: seq<Step>, t: State)
    ensures AllLegal(START, steps) && Run(START, steps) == t
    ensures Quiet(t) && t.zones.Keys == {1, 2} && forall z :: z in t.zones ==> t.zones[z].held == map[e.uuid := e]
  {
    var s := Pair(e, [], [], false, [], imap[]);
    PairReached(e);
    var mid := RefusedFirst(e);
    var rest := RoutedThenHeld(e);
    t := Pair(e, [], [], true, [], imap[e.spot.chunk := 2]);
    var first := [Hand(1, [e]), HeadTakes(1)];
    RunConcat(s, first, rest);
    var start := [Join(1), Join(2), Update(1, e)];
    RunConcat(START, start, first + rest);
    steps := start + (first + rest);
  }

  lemma PairReached(e: Entity)
    ensures var steps := [Join(1), Join(2), Update(1, e)];
            AllLegal(START, steps) && Run(START, steps) == Pair(e, [], [], false, [], imap[])
  {
    var one, two := Next(START, Join(1)), Next(Next(START, Join(1)), Join(2));
    var last := Pair(e, [], [], false, [], imap[]);
    assert Updated(JOINED, e) == Holder(e, [], []) && {} + {e} == {e};
    assert Next(two, Update(1, e)).zones == last.zones;
    RunCons(two, Update(1, e), []);
    RunCons(one, Join(2), [Update(1, e)] + []);
    RunCons(START, Join(1), [Join(2)] + ([Update(1, e)] + []));
    assert [Join(1)] + ([Join(2)] + ([Update(1, e)] + [])) == [Join(1), Join(2), Update(1, e)];
  }

  lemma RoutedThenHeld(e: Entity) returns (steps: seq<Step>)
    ensures var s := Pair(e, [UpEntity(e)], [DownAnswer(e.uuid, false)], false, [], imap[]);
            AllLegal(s, steps) && Run(s, steps) == Pair(e, [], [], true, [], imap[e.spot.chunk := 2])
  {
    var s := Pair(e, [UpEntity(e)], [DownAnswer(e.uuid, false)], false, [], imap[]);
    var routed := Pair(e, [UpEntity(e)], [DownAnswer(e.uuid, false)], false, [], imap[e.spot.chunk := 2]);
    var late := RoutedLater(e);
    LastRead(e);
    var middle := [HeadTakes(1), ZoneTakes(1, [])];
    RunCons(late, ZoneTakes(2, []), []);
    RunConcat(routed, middle, [ZoneTakes(2, [])] + []);
    assert Next(s, Reroute(imap[e.spot.chunk := 2])) == routed;
    steps := [Reroute(imap[e.spot.chunk := 2])] + (middle + ([ZoneTakes(2, [])] + []));
    RunCons(s, Reroute(imap[e.spot.chunk := 2]), middle + ([ZoneTakes(2, [])] + []));
  }

  lemma LastRead(e: Entity)
    ensures var s := Pair(e, [], [], false, [DownEntity(e)], imap[e.spot.chunk := 2]);
            Legal(s, ZoneTakes(2, [])) &&
            Next(s, ZoneTakes(2, [])) == Pair(e, [], [], true, [], imap[e.spot.chunk := 2])
  {
    var s := Pair(e, [], [], false, [DownEntity(e)], imap[e.spot.chunk := 2]);
    assert [DownEntity(e)][1..] == [] && {} + {e.uuid} == {e.uuid};
    assert Next(s, ZoneTakes(2, [])).zones[2] == Holder(e, [], []);
    assert Next(s, ZoneTakes(2, [])).zones == Pair(e, [], [], true, [], imap[e.spot.chunk := 2]).zones;
  }

  function Holder(e: Entity, up: seq<Up>, down: seq<Down>): Zone {
    Zone(map[e.uuid := e], {e.uuid}, up, down, Serving)
  }

  /** Zone 1 holds `e`; zone 2 may hold it too. */
  function Pair(e: Entity, up: seq<Up>, down: seq<Down>, both: bool, down2: seq<Down>, route: imap<Chunk, int>): State {
    State(map[1 := Holder(e, up, down), 2 := if both then Holder(e, [], down2) else JOINED.(down := down2)], route, {e},
          1)
  }

  lemma RefusedFirst(e: Entity) returns (t: State)
    ensures t == Pair(e, [UpEntity(e)], [DownAnswer(e.uuid, false)], false, [], imap[])
    ensures var s := Pair(e, [], [], false, [], imap[]); var steps := [Hand(1, [e]), HeadTakes(1)];
            AllLegal(s, steps) && Run(s, steps) == t
  {
    var s := Pair(e, [], [], false, [], imap[]);
    var mid := Pair(e, Offer(e), [], false, [], imap[]);
    t := Pair(e, [UpEntity(e)], [DownAnswer(e.uuid, false)], false, [], imap[]);
    assert Offers([e]) == Offer(e) by { assert [e][..0] == []; }
    assert Next(s, Hand(1, [e])).zones == mid.zones;
    OfferRefused(e);
    RunCons(mid, HeadTakes(1), []);
    RunCons(s, Hand(1, [e]), [HeadTakes(1)]);
    assert [Hand(1, [e])] + [HeadTakes(1)] == [Hand(1, [e]), HeadTakes(1)];
  }

  lemma OfferRefused(e: Entity)
    ensures var s := Pair(e, Offer(e), [], false, [], imap[]);
            Legal(s, HeadTakes(1)) &&
            Next(s, HeadTakes(1)) == Pair(e, [UpEntity(e)], [DownAnswer(e.uuid, false)], false, [], imap[])
  {
    var s := Pair(e, Offer(e), [], false, [], imap[]);
    assert Offer(e)[1..] == [UpEntity(e)] && [] + [DownAnswer(e.uuid, false)] == [DownAnswer(e.uuid, false)];
    assert HeadLeaves(s, 1, 1) == Holder(e, [UpEntity(e)], [DownAnswer(e.uuid, false)]);
    assert HeadLeaves(s, 1, 2) == JOINED;
  }

  lemma RoutedLater(e: Entity) returns (t: State)
    ensures t == Pair(e, [], [], false, [DownEntity(e)], imap[e.spot.chunk := 2])
    ensures var s := Pair(e, [UpEntity(e)], [DownAnswer(e.uuid, false)], false, [], imap[e.spot.chunk := 2]);
            var steps := [HeadTakes(1), ZoneTakes(1, [])];
            AllLegal(s, steps) && Run(s, steps) == t
  {
    var s := Pair(e, [UpEntity(e)], [DownAnswer(e.uuid, false)], false, [], imap[e.spot.chunk := 2]);
    var mid := Pair(e, [], [DownAnswer(e.uuid, false)], false, [DownEntity(e)], imap[e.spot.chunk := 2]);
    t := Pair(e, [], [], false, [DownEntity(e)], imap[e.spot.chunk := 2]);
    RoutedToTwo(e);
    assert [DownAnswer(e.uuid, false)][1..] == [];
    assert Next(mid, ZoneTakes(1, [])).zones == t.zones;
    RunCons(mid, ZoneTakes(1, []), []);
    RunCons(s, HeadTakes(1), [ZoneTakes(1, [])]);
    assert [HeadTakes(1)] + [ZoneTakes(1, [])] == [HeadTakes(1), ZoneTakes(1, [])];
  }

  lemma RoutedToTwo(e: Entity)
    ensures var s := Pair(e, [UpEntity(e)], [DownAnswer(e.uuid, false)], false, [], imap[e.spot.chunk := 2]);
            Legal(s, HeadTakes(1)) &&
            Next(s, HeadTakes(1)) ==
            Pair(e, [], [DownAnswer(e.uuid, false)], false, [DownEntity(e)], imap[e.spot.chunk := 2])
  {
    var s := Pair(e, [UpEntity(e)], [DownAnswer(e.uuid, false)], false, [], imap[e.spot.chunk := 2]);
    assert [UpEntity(e)][1..] == [] && [] + [DownEntity(e)] == [DownEntity(e)];
    assert HeadLeaves(s, 1, 1) == Holder(e, [], [DownAnswer(e.uuid, false)]);
    assert HeadLeaves(s, 1, 2) == JOINED.(down := [DownEntity(e)]);
  }

  lemma {:induction false} RunConcat(s: State, a: seq<Step>, b: seq<Step>)
    requires AllLegal(s, a) && AllLegal(Run(s, a), b)
    ensures AllLegal(s, a + b) && Run(s, a + b) == Run(Run(s, a), b)
    decreases |a|
  {
    if a == [] {
      assert a + b == b;
    } else {
      RunConcat(Next(s, a[0]), a[1..], b);
      assert (a + b)[1..] == a[1..] + b;
    }
  }

  lemma RunCons(s: State, step: Step, rest: seq<Step>)
    requires Legal(s, step) && AllLegal(Next(s, step), rest)
    ensures AllLegal(s, [step] + rest) && Run(s, [step] + rest) == Run(Next(s, step), rest)
  {
    assert ([step] + rest)[1..] == rest;
  }

  // ------------------------------------------------------------------------------------------------
  // The head's handlers
  // ------------------------------------------------------------------------------------------------

  ghost function Queues(s: State): map<int, seq<Down>> { map z | z in s.zones :: s.zones[z].down }

  ghost function Open(s: State): map<int, nat> {
    map z | z in s.zones && s.zones[z].phase.Draining? :: s.zones[z].phase.id
  }

  /** A message to each of two zones, or to one, is what the head sends when it reads that packet. */
  lemma QueuesRead(s: State, z: int, y: int, queue: map<int, seq<Down>>)
    requires z in s.zones && s.zones[z].up != [] && y in s.zones
    requires forall x :: x in s.zones && x != y && x != z ==> Sent(s, z, x) == []
    requires queue == Queues(s)[y := s.zones[y].down + Sent(s, z, y)][z := s.zones[z].down + Sent(s, z, z)]
    ensures queue == Queues(HeadReads(s, z))
  {
  }

  lemma OpenRead(s: State, z: int)
    requires z in s.zones && s.zones[z].up != []
    ensures Open(HeadReads(s, z)) == if Confirmed(s.zones[z]) == s.zones[z].phase then Open(s) else Open(s) - {z}
  {
  }

  /** The head as its handlers see it: the routing the orchestrator answers, a send queue a zone, the open drains. */
  class HeadServer {
    var route: imap<Chunk, int>
    var queue: map<int, seq<Down>>
    var open: map<int, nat>

    ghost predicate Valid()
      reads this
    {
      forall c :: c in route ==> route[c] in queue
    }

    ghost predicate Mirrors(s: State)
      reads this
    {
      route == s.route && queue == Queues(s) && open == Open(s)
    }

    method Send(fd: int, m: Down)
      requires fd in queue
      modifies `queue
      ensures queue == old(queue)[fd := old(queue)[fd] + [m]]
    {
      queue := queue[fd := queue[fd] + [m]];
    }

    /** Routes the request and answers the zone that made it: routed, or keep it. */
    method OnReassign(fd: int, uuid: nat, chunk: Chunk, ghost s: State)
      requires Valid() && fd in queue && Mirrors(s)
      requires s.zones[fd].up != [] && s.zones[fd].up[0] == UpReassign(uuid, chunk)
      modifies `queue
      ensures Valid() && Mirrors(HeadReads(s, fd))
    {
      var routed := false;
      if chunk in route && route[chunk] != fd {
        Send(route[chunk], DownReassign(uuid));
        routed := true;
      }
      Send(fd, DownAnswer(uuid, routed));
      OpenRead(s, fd);
      QueuesRead(s, fd, if routed then route[chunk] else fd, queue);
    }

    /** Passes the state on to the zone that covers its chunk, whoever that is; nobody covers it: dropped. */
    method OnEntity(fd: int, e: Entity, ghost s: State)
      requires Valid() && fd in queue && Mirrors(s)
      requires s.zones[fd].up != [] && s.zones[fd].up[0] == UpEntity(e)
      modifies `queue
      ensures Valid() && Mirrors(HeadReads(s, fd))
    {
      if e.spot.chunk in route {
        Send(route[e.spot.chunk], DownEntity(e));
      }
      OpenRead(s, fd);
      assert s.zones[fd].down + [] == s.zones[fd].down;
      QueuesRead(s, fd, if e.spot.chunk in route then route[e.spot.chunk] else fd, queue);
    }

    /** Closes the zone that confirms its open drain; any other confirmation is ignored. */
    method OnDrained(fd: int, id: nat, ghost s: State)
      requires Valid() && fd in queue && Mirrors(s)
      requires s.zones[fd].up != [] && s.zones[fd].up[0] == UpDrained(id)
      modifies `queue, `open
      ensures Valid() && Mirrors(HeadReads(s, fd))
    {
      OpenRead(s, fd);
      if fd in open && open[fd] == id {
        open := open - {fd};
        Send(fd, DownDelete);
      }
      assert s.zones[fd].down + [] == s.zones[fd].down;
      QueuesRead(s, fd, fd, queue);
    }
  }
}
