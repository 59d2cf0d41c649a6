/**
 Player actions between a zone and the validator: what is proposed waits outside the world until the validator's
 rules module has approved it, and only the request that recorded it can let it in.
 */
module ActionGate {
  import opened Geometry
  import opened Roster
  import Codec

  type Id = nat

  const HEADER_SIZE: nat := 32

  /** What the header leaves of an entity's data for the payload. */
  const SEEN: nat := Codec.MAX_ENTITY_DATA - HEADER_SIZE
  const CB_MAX_OPEN: nat := 3
  const CB_OPEN_MS: nat := 2000
  const REPLY_MS: nat := 500
  const MAX_RETRIES: nat := 2
  const MAX_IN_FLIGHT: nat := 64
  const SPACING_MS: nat := 30

  datatype Verb = Place | Drop | Remove | Move | OtherVerb

  predicate Creates(v: Verb) { v.Place? || v.Drop? }

  datatype Action = Action(actor: Uuid, verb: Verb, target: Uuid, spot: Spot, angle: nat, data: seq<nat>, reqId: nat)

  /** What the module gets to see: the header of the action and the payload behind it. */
  datatype Blob = Blob(verb: Verb, target: Uuid, x: real, y: real, z: real, payload: seq<nat>)

  datatype Request =
    | MoveCheck(id: Id, entity: Entity)
    | ActionCheck(id: Id, actor: Uuid, blob: Blob)

  /** The size of a chunk, and the name the server gives to a thing from where and what it is. */
  datatype Rules = Rules(sizeX: real, sizeY: real, sizeZ: real, name: (Spot, seq<nat>) -> Uuid)

  datatype Pending = Pending(
    deadline: nat, retries: nat, entity: Entity, apply: bool, verb: Verb, actor: Uuid, reqId: nat)

  datatype Breaker = Breaker(validated: bool, open: bool, until: nat, trips: nat)

  const CLOSED: Breaker := Breaker(true, false, 0, 0)

  /** `lastAsk` is when a movement check of the entity last went out. */
  datatype Zone = Zone(
    entities: seq<Entity>, pending: map<Id, Pending>, next: Id, breaker: Breaker, lastAsk: map<Uuid, nat>)

  datatype Reply = Reply(actor: Uuid, reqId: nat, verb: Verb, accepted: bool, uuid: Uuid)

  // ------------------------------------------------------------------------------------------------
  // What the zone does
  // ------------------------------------------------------------------------------------------------

  predicate Reachable(b: Breaker, now: nat) { !b.validated || !(b.open && now < b.until) }

  function Cut(data: seq<nat>): seq<nat> {
    if |data| <= SEEN then data else data[..SEEN]
  }

  function BlobOf(r: Rules, a: Action, e: Entity): Blob {
    Blob(a.verb, a.target, e.spot.chunk.x as real * r.sizeX + e.spot.x, e.spot.chunk.y as real * r.sizeY + e.spot.y,
         e.spot.chunk.z as real * r.sizeZ + e.spot.z, Cut(a.data))
  }

  /** What is proposed, unless the verb is unknown or its target is not a thing of the world. */
  function Proposal(r: Rules, es: seq<Entity>, a: Action): Option<Entity> {
    match a.verb
    case OtherVerb => None
    case Place => Some(Entity(r.name(a.spot, a.data), true, a.spot, a.angle, a.data))
    case Drop => Some(Entity(r.name(a.spot, a.data), true, a.spot, a.angle, a.data))
    case Remove =>
      var t := Target(es, a.target);
      if t.Some? && t.value.worldOwned then t else None
    case Move =>
      var t := Target(es, a.target);
      if t.Some? && t.value.worldOwned then Some(t.value.(spot := a.spot, angle := a.angle)) else None
  }

  /** A request goes out, and waits, only if nothing speaks against it before anyone is asked. */
  function Asked(r: Rules, z: Zone, a: Action, now: nat, banned: bool, sent: bool): (Zone, Option<Request>) {
    var p := Proposal(r, z.entities, a);
    if banned || p.None? || !Reachable(z.breaker, now) then (z, None)
    else if !sent then (z.(next := z.next + 1), None)
    else (z.(next := z.next + 1,
             pending := z.pending[z.next := Pending(now + REPLY_MS, 0, p.value, true, a.verb, a.actor, a.reqId)]),
          Some(ActionCheck(z.next, a.actor, BlobOf(r, a, p.value))))
  }

  /** Not asked about within the spacing; the difference is one of unsigned 64-bit numbers. */
  predicate Spaced(lastAsk: map<Uuid, nat>, u: Uuid, now: nat) {
    u in lastAsk ==> (now - lastAsk[u]) % 0x1_0000_0000_0000_0000 >= SPACING_MS
  }

  /** A movement check: the entity is in the world already, and nothing is to be applied. */
  function AskedMove(z: Zone, e: Entity, now: nat, sent: bool): (Zone, Option<Request>) {
    if |z.pending| >= MAX_IN_FLIGHT || !Reachable(z.breaker, now) || !Spaced(z.lastAsk, e.uuid, now) then (z, None)
    else if !sent then (z.(next := z.next + 1), None)
    else (z.(next := z.next + 1, lastAsk := z.lastAsk[e.uuid := now],
             pending := z.pending[z.next := Pending(now + REPLY_MS, 0, e, false, OtherVerb, 0, 0)]),
          Some(MoveCheck(z.next, e)))
  }

  /** What an accepted action does to the world. */
  function Effect(es: seq<Entity>, verb: Verb, e: Entity): seq<Entity> {
    if verb.Remove? then Without(es, e.uuid) else Stored(es, e)
  }

  function Answered(z: Zone, id: Id, verdict: nat): (Zone, Option<Reply>) {
    if id !in z.pending then (z, None)
    else
      var p := z.pending[id];
      var y := z.(pending := z.pending - {id});
      (if verdict == 0 then y.(entities := Without(z.entities, p.entity.uuid))
       else y.(entities := if p.apply then Effect(z.entities, p.verb, p.entity) else z.entities,
               breaker := z.breaker.(open := false, until := 0, trips := 0)),
       if p.apply
       then Some(Reply(p.actor, p.reqId, p.verb, verdict != 0, if verdict == 0 then 0 else p.entity.uuid))
       else None)
  }

  function Tripped(b: Breaker, now: nat): Breaker {
    if b.trips + 1 >= CB_MAX_OPEN then b.(trips := b.trips + 1, open := false, validated := false)
    else b.(trips := b.trips + 1, open := true, until := now + CB_OPEN_MS)
  }

  /** One overdue request: asked again under a fresh id that is not recorded, or given up. */
  function Overdue(z: Zone, id: Id, now: nat, sent: bool, redialled: Option<bool>): (Zone, Option<Request>) {
    if id !in z.pending || now < z.pending[id].deadline then (z, None)
    else
      var p := z.pending[id];
      if p.retries < MAX_RETRIES && sent then
        (z.(next := z.next + 1, pending := z.pending[id := p.(retries := p.retries + 1, deadline := now + REPLY_MS)]),
         Some(MoveCheck(z.next, p.entity)))
      else
        var dialled :=
          if p.retries >= MAX_RETRIES && redialled.Some? then z.breaker.(validated := redialled.value) else z.breaker;
        var next := if p.retries < MAX_RETRIES then z.next + 1 else z.next;
        (z.(pending := z.pending - {id}, next := next, breaker := Tripped(dialled, now)), None)
  }

  function Probed(b: Breaker, now: nat, connected: bool): Breaker {
    if !b.validated || (b.open && now >= b.until) then (if connected then CLOSED else b.(validated := false)) else b
  }

  class ZoneActions {
    var entities: seq<Entity>
    var pending: map<Id, Pending>
    var reqSeq: Id
    var breaker: Breaker
    var lastReqMs: map<Uuid, nat>
    const rules: Rules

    ghost function Value(): Zone
      reads this
    {
      Zone(entities, pending, reqSeq, breaker, lastReqMs)
    }

    constructor (r: Rules)
      ensures Value() == Zone([], map[], 1, CLOSED, map[]) && rules == r
    {
      entities, pending, reqSeq, breaker, lastReqMs, rules := [], map[], 1, CLOSED, map[], r;
    }

    /** A client asks for an action. `sent` is whether the request got through to the validator's connection. */
    method OnAction(a: Action, now: nat, banned: bool, sent: bool) returns (out: Option<Request>)
      modifies `pending, `reqSeq
      ensures (Value(), out) == Asked(rules, old(Value()), a, now, banned, sent)
    {
      if banned || a.verb.OtherVerb? {
        return None;
      }
      var prop: Entity;
      if Creates(a.verb) {
        prop := Entity(rules.name(a.spot, a.data), true, a.spot, a.angle, a.data);
      } else {
        var victim := FindTarget(entities, a.target);
        if victim.None? || !victim.value.worldOwned {
          return None;
        }
        prop := victim.value;
        if a.verb.Move? {
          prop := prop.(spot := a.spot, angle := a.angle);
        }
      }
      if breaker.validated && breaker.open && now < breaker.until {
        return None;
      }
      var id := reqSeq;
      reqSeq := reqSeq + 1;
      if !sent {
        return None;
      }
      pending := pending[id := Pending(now + REPLY_MS, 0, prop, true, a.verb, a.actor, a.reqId)];
      out := Some(ActionCheck(id, a.actor, BlobOf(rules, a, prop)));
    }

    /** A movement the zone has found plausible is checked if there is room; it is taken whatever becomes of that. */
    method OnMove(e: Entity, now: nat, sent: bool) returns (out: Option<Request>)
      modifies `pending, `reqSeq, `lastReqMs
      ensures (Value(), out) == AskedMove(old(Value()), e, now, sent)
    {
      out := None;
      if |pending| < MAX_IN_FLIGHT && !(breaker.validated && breaker.open && now < breaker.until) &&
         (e.uuid !in lastReqMs || (now - lastReqMs[e.uuid]) % 0x1_0000_0000_0000_0000 >= SPACING_MS)
      {
        var id := reqSeq;
        reqSeq := reqSeq + 1;
        if sent {
          pending := pending[id := Pending(now + REPLY_MS, 0, e, false, OtherVerb, 0, 0)];
          lastReqMs := lastReqMs[e.uuid := now];
          out := Some(MoveCheck(id, e));
        }
      }
    }

    /** The validator's verdict: the pending entry goes first, then the world changes. */
    method OnAck(id: Id, verdict: nat) returns (reply: Option<Reply>)
      modifies this
      ensures (Value(), reply) == Answered(old(Value()), id, verdict)
    {
      if id !in pending {
        return None;
      }
      var p := pending[id];
      pending := pending - {id};
      reply := None;
      if p.apply {
        reply := Some(Reply(p.actor, p.reqId, p.verb, verdict != 0, if verdict == 0 then 0 else p.entity.uuid));
      }
      if verdict == 0 {
        entities := Erase(entities, p.entity.uuid);
      } else {
        if p.apply {
          if p.verb.Remove? {
            entities := Erase(entities, p.entity.uuid);
          } else {
            entities := Store(entities, p.entity);
          }
        }
        breaker := breaker.(open := false, until := 0, trips := 0);
      }
    }

    /** One entry of the time-out loop. */
    method OnOverdue(id: Id, now: nat, sent: bool, redialled: Option<bool>) returns (out: Option<Request>)
      modifies `pending, `reqSeq, `breaker
      ensures (Value(), out) == Overdue(old(Value()), id, now, sent, redialled)
    {
      if id !in pending || now < pending[id].deadline {
        return None;
      }
      var p := pending[id];
      if p.retries < MAX_RETRIES {
        var again := reqSeq;
        reqSeq := reqSeq + 1;
        if sent {
          pending := pending[id := p.(retries := p.retries + 1, deadline := now + REPLY_MS)];
          return Some(MoveCheck(again, p.entity));
        }
      } else if redialled.Some? {
        breaker := breaker.(validated := redialled.value);
      }
      breaker := breaker.(trips := breaker.trips + 1);
      if breaker.trips >= CB_MAX_OPEN {
        breaker := breaker.(open := false, validated := false);
      } else {
        breaker := breaker.(open := true, until := now + CB_OPEN_MS);
      }
      pending := pending - {id};
      out := None;
    }
  }

  // ------------------------------------------------------------------------------------------------
  // The validator
  // ------------------------------------------------------------------------------------------------

  /** The validator's rules module at some moment; what its rules say is its own affair. */
  datatype Module = Module(loaded: bool, judgesActions: bool, suspicious: bool, verdict: (Uuid, Blob) -> int)

  /** The module itself has said yes to this actor and this blob. */
  predicate Approves(m: Module, actor: Uuid, blob: Blob) {
    m.loaded && m.judgesActions && !m.suspicious && m.verdict(actor, blob) == 1
  }

  datatype Ack = Ack(id: Id, verdict: nat)

  /** The request branch: moves have a rule of their own, and anything else must be approved by the module. */
  method Arbitrate(req: Request, m: Module, moveIsLegal: bool) returns (ack: Ack)
    ensures ack.id == req.id && ack.verdict <= 1
    ensures ack == Ruling(req, m, moveIsLegal)
    ensures req.ActionCheck? ==>
              (ack.verdict != 0 <==>
                 m.loaded && m.judgesActions && !m.suspicious && m.verdict(req.actor, req.blob) == 1)
    ensures req.MoveCheck? ==> (ack.verdict != 0 <==> moveIsLegal)
  {
    var ok := moveIsLegal;
    if req.ActionCheck? {
      if !m.loaded || !m.judgesActions || m.suspicious {
        ok := false;
      } else {
        ok := m.verdict(req.actor, req.blob) == 1;
      }
    }
    ack := Ack(req.id, if ok then 1 else 0);
  }

  function Ruling(req: Request, m: Module, moveIsLegal: bool): Ack {
    Ack(req.id, if (if req.MoveCheck? then moveIsLegal else Approves(m, req.actor, req.blob)) then 1 else 0)
  }

  // ------------------------------------------------------------------------------------------------
  // Runs
  // ------------------------------------------------------------------------------------------------

  /** What has happened to the zone's entities. */
  datatype Change = Applied(id: Id, verb: Verb, entity: Entity) | Evicted(uuid: Uuid) | Outside(entities: seq<Entity>)

  /**
   The zone and the validator with all that was ever said between them: any answer may arrive late, twice, out of
   order or never. `approvals` is which module approved which request, and `retried` the ids used for asking again.
   */
  datatype System = System(
    zone: Zone, asked: map<Id, Request>, acks: set<Ack>, approvals: map<Id, Module>, retried: set<Id>, log: seq<Change>)

  datatype Event =
    | DoAction(a: Action, now: nat, banned: bool, sent: bool)
    | DoMove(e: Entity, now: nat, sent: bool)
    | DoRule(id: Id, m: Module, moveIsLegal: bool)
    | DoAck(ack: Ack)
    | DoOverdue(id: Id, now: nat, sent: bool, redialled: Option<bool>)
    | DoProbe(now: nat, connected: bool)
    | DoOutside(entities: seq<Entity>)

  const START: System := System(Zone([], map[], 1, CLOSED, map[]), map[], {}, map[], {}, [])

  function Noted(asked: map<Id, Request>, req: Option<Request>): map<Id, Request> {
    if req.None? then asked else asked[req.value.id := req.value]
  }

  function ChangeOf(p: Pending, id: Id, verdict: nat): seq<Change> {
    if verdict == 0 then [Evicted(p.entity.uuid)] else if p.apply then [Applied(id, p.verb, p.entity)] else []
  }

  function Step(r: Rules, s: System, e: Event): System {
    match e
    case DoAction(a, now, banned, sent) =>
      var (z, req) := Asked(r, s.zone, a, now, banned, sent);
      s.(zone := z, asked := Noted(s.asked, req))
    case DoMove(x, now, sent) =>
      var (z, req) := AskedMove(s.zone, x, now, sent);
      s.(zone := z, asked := Noted(s.asked, req))
    case DoRule(id, m, legal) =>
      if id !in s.asked then s
      else
        var req := s.asked[id];
        s.(acks := s.acks + {Ruling(req, m, legal)},
           approvals :=
             if req.ActionCheck? && Approves(m, req.actor, req.blob) then s.approvals[id := m] else s.approvals)
    case DoAck(ack) =>
      if ack !in s.acks || ack.id !in s.zone.pending then s
      else s.(zone := Answered(s.zone, ack.id, ack.verdict).0,
              log := s.log + ChangeOf(s.zone.pending[ack.id], ack.id, ack.verdict))
    case DoOverdue(id, now, sent, redialled) =>
      var (z, req) := Overdue(s.zone, id, now, sent, redialled);
      s.(zone := z, asked := Noted(s.asked, req),
         retried := if req.Some? then s.retried + {req.value.id} else s.retried)
    case DoProbe(now, connected) => s.(zone := s.zone.(breaker := Probed(s.zone.breaker, now, connected)))
    case DoOutside(es) => s.(zone := s.zone.(entities := es), log := s.log + [Outside(es)])
  }

  function Run(r: Rules, s: System, es: seq<Event>): System {
    if es == [] then s else Step(r, Run(r, s, es[..|es| - 1]), es[|es| - 1])
  }

  function Changed(es: seq<Entity>, c: Change): seq<Entity> {
    match c
    case Applied(_, verb, e) => Effect(es, verb, e)
    case Evicted(uuid) => Without(es, uuid)
    case Outside(after) => after
  }

  /** The entities as the log of changes makes them. */
  function World(log: seq<Change>): seq<Entity> {
    if log == [] then [] else Changed(World(log[..|log| - 1]), log[|log| - 1])
  }

  /**
   What was asked is what is proposed. The module saw the verb, the place and the payload (cut to what fits) of
   the very thing that waits; a thing that is moved or removed is the world's own and is the one it was asked about.
   */
  ghost predicate Proposes(r: Rules, blob: Blob, verb: Verb, e: Entity) {
    && blob.verb == verb && !verb.OtherVerb? && e.worldOwned
    && blob.x == e.spot.chunk.x as real * r.sizeX + e.spot.x
    && blob.y == e.spot.chunk.y as real * r.sizeY + e.spot.y
    && blob.z == e.spot.chunk.z as real * r.sizeZ + e.spot.z
    && (if Creates(verb)
        then blob.payload == Cut(e.data) && e.uuid == r.name(e.spot, e.data)
        else blob.target == e.uuid)
  }

  /**
   The change goes back to an action request under that id which proposed exactly this and which the module approved.
   */
  ghost predicate Justified(r: Rules, asked: map<Id, Request>, approvals: map<Id, Module>, c: Change)
    requires c.Applied?
  {
    && c.id in asked && asked[c.id].ActionCheck? && Proposes(r, asked[c.id].blob, c.verb, c.entity)
    && c.id in approvals && Approves(approvals[c.id], asked[c.id].actor, asked[c.id].blob)
  }

  ghost predicate Waits(r: Rules, asked: map<Id, Request>, id: Id, p: Pending) {
    && id in asked
    && (if p.apply
        then asked[id].ActionCheck? && Proposes(r, asked[id].blob, p.verb, p.entity)
        else asked[id].MoveCheck?)
  }

  ghost predicate IdsInOrder(s: System) {
    && (forall id :: id in s.asked ==> id < s.zone.next && s.asked[id].id == id)
    && (forall id :: id in s.retried ==> id < s.zone.next && id !in s.zone.pending)
  }

  ghost predicate Pendings(r: Rules, s: System) {
    forall id :: id in s.zone.pending ==> Waits(r, s.asked, id, s.zone.pending[id])
  }

  ghost predicate Answers(s: System) {
    && (forall a :: a in s.acks ==>
          a.id in s.asked && (s.asked[a.id].ActionCheck? && a.verdict != 0 ==> a.id in s.approvals))
    && (forall id :: id in s.approvals ==>
          id in s.asked && s.asked[id].ActionCheck? && Approves(s.approvals[id], s.asked[id].actor, s.asked[id].blob))
  }

  ghost predicate LogIsJustified(r: Rules, s: System) {
    && (forall i :: 0 <= i < |s.log| && s.log[i].Applied? ==>
          Justified(r, s.asked, s.approvals, s.log[i]) && s.log[i].id !in s.zone.pending)
    && (forall i, j :: 0 <= i < j < |s.log| && s.log[i].Applied? && s.log[j].Applied? ==> s.log[i].id != s.log[j].id)
  }

  ghost predicate Inv(r: Rules, s: System) {
    && IdsInOrder(s) && Pendings(r, s) && Answers(s) && LogIsJustified(r, s)
    && s.zone.entities == World(s.log)
  }

  lemma {:induction false} TargetHasUuid(es: seq<Entity>, uuid: Uuid)
    ensures Target(es, uuid).Some? ==> Target(es, uuid).value.uuid == uuid
  {
    if es != [] && es[0].uuid != uuid {
      TargetHasUuid(es[1..], uuid);
    }
  }

  lemma ProposalIsProposed(r: Rules, es: seq<Entity>, a: Action)
    ensures var p := Proposal(r, es, a); p.Some? ==> Proposes(r, BlobOf(r, a, p.value), a.verb, p.value)
  {
    TargetHasUuid(es, a.target);
  }

  /** A new request under a fresh id leaves all that was known about the older ids as it was. */
  lemma NotingKeeps(r: Rules, s: System, req: Request, z: Zone)
    requires Inv(r, s) && req.id == s.zone.next && z.next == s.zone.next + 1 && z.entities == s.zone.entities
    requires forall id :: id in z.pending && id != req.id ==> id in s.zone.pending
    requires forall id :: id in z.pending && id != req.id ==>
             z.pending[id].(deadline := 0, retries := 0) == s.zone.pending[id].(deadline := 0, retries := 0)
    requires req.id in z.pending ==> Waits(r, map[req.id := req], req.id, z.pending[req.id])
    ensures Inv(r, s.(zone := z, asked := s.asked[req.id := req]))
    ensures req.id !in z.pending ==>
              Inv(r, s.(zone := z, asked := s.asked[req.id := req], retried := s.retried + {req.id}))
  {
  }

  lemma ActionKeeps(r: Rules, s: System, a: Action, now: nat, banned: bool, sent: bool)
    requires Inv(r, s)
    ensures Inv(r, Step(r, s, DoAction(a, now, banned, sent)))
  {
    var (z, req) := Asked(r, s.zone, a, now, banned, sent);
    ProposalIsProposed(r, s.zone.entities, a);
    if req.Some? {
      NotingKeeps(r, s, req.value, z);
    }
  }

  lemma MoveKeeps(r: Rules, s: System, x: Entity, now: nat, sent: bool)
    requires Inv(r, s)
    ensures Inv(r, Step(r, s, DoMove(x, now, sent)))
  {
    var (z, req) := AskedMove(s.zone, x, now, sent);
    if req.Some? {
      NotingKeeps(r, s, req.value, z);
    }
  }

  lemma OverdueKeeps(r: Rules, s: System, id: Id, now: nat, sent: bool, redialled: Option<bool>)
    requires Inv(r, s)
    ensures Inv(r, Step(r, s, DoOverdue(id, now, sent, redialled)))
  {
    var (z, req) := Overdue(s.zone, id, now, sent, redialled);
    if req.Some? {
      NotingKeeps(r, s, req.value, z);
    }
  }

  lemma WorldAppend(log: seq<Change>, c: Change)
    ensures World(log + [c]) == Changed(World(log), c)
  {
    assert (log + [c])[..|log|] == log;
  }

  /** Taking a request off the waiting list keeps everything; what happens to the world is the log's business. */
  lemma ReleaseKeeps(r: Rules, s: System, z: Zone, id: Id)
    requires Inv(r, s) && z.pending == s.zone.pending - {id} && z.next == s.zone.next
    ensures var t := s.(zone := z); IdsInOrder(t) && Pendings(r, t) && Answers(t) && LogIsJustified(r, t)
  {
  }

  /** The log may grow by a change that is no action, or by an action that is justified and new to it. */
  lemma LogGrows(r: Rules, s: System, c: Change)
    requires LogIsJustified(r, s)
    requires c.Applied? ==> Justified(r, s.asked, s.approvals, c) && c.id !in s.zone.pending
    requires c.Applied? ==> forall i :: 0 <= i < |s.log| && s.log[i].Applied? ==> s.log[i].id != c.id
    ensures LogIsJustified(r, s.(log := s.log + [c]))
  {
  }

  lemma AckKeeps(r: Rules, s: System, ack: Ack)
    requires Inv(r, s)
    ensures Inv(r, Step(r, s, DoAck(ack)))
  {
    if ack in s.acks && ack.id in s.zone.pending {
      var p := s.zone.pending[ack.id];
      var z := Answered(s.zone, ack.id, ack.verdict).0;
      assert Waits(r, s.asked, ack.id, p);
      ReleaseKeeps(r, s, z, ack.id);
      var more := ChangeOf(p, ack.id, ack.verdict);
      if more == [] {
        assert s.log + more == s.log;
      } else {
        var c := more[0];
        WorldAppend(s.log, c);
        LogGrows(r, s.(zone := z), c);
        assert more == [c];
      }
    }
  }

  lemma OutsideKeeps(r: Rules, s: System, es: seq<Entity>)
    requires Inv(r, s)
    ensures Inv(r, Step(r, s, DoOutside(es)))
  {
    WorldAppend(s.log, Outside(es));
    LogGrows(r, s, Outside(es));
  }

  lemma StepKeeps(r: Rules, s: System, e: Event)
    requires Inv(r, s)
    ensures Inv(r, Step(r, s, e))
  {
    match e {
      case DoAction(a, now, banned, sent) => ActionKeeps(r, s, a, now, banned, sent);
      case DoMove(x, now, sent) => MoveKeeps(r, s, x, now, sent);
      case DoRule(_, _, _) =>
      case DoAck(ack) => AckKeeps(r, s, ack);
      case DoOverdue(id, now, sent, redialled) => OverdueKeeps(r, s, id, now, sent, redialled);
      case DoProbe(_, _) =>
      case DoOutside(es) => OutsideKeeps(r, s, es);
    }
  }

  lemma {:induction false} InvOverRuns(r: Rules, es: seq<Event>)
    ensures Inv(r, Run(r, START, es))
  {
    if es != [] {
      InvOverRuns(r, es[..|es| - 1]);
      StepKeeps(r, Run(r, START, es[..|es| - 1]), es[|es| - 1]);
    }
  }

  // ------------------------------------------------------------------------------------------------
  // What follows for every run
  // ------------------------------------------------------------------------------------------------

  /**
   Actions fail closed, end to end. In every run, whatever is lost, repeated or reordered, each action that took
   effect goes back to one action request of that id which proposed exactly what was applied and which the
   validator's module approved; no request takes effect twice; and the world is what the log of changes makes it.
   */
  lemma ActionsFailClosed(r: Rules, es: seq<Event>)
    ensures var s := Run(r, START, es);
            && (forall i :: 0 <= i < |s.log| && s.log[i].Applied? ==> Justified(r, s.asked, s.approvals, s.log[i]))
            && (forall i, j :: 0 <= i < j < |s.log| && s.log[i].Applied? && s.log[j].Applied? ==>
                  s.log[i].id != s.log[j].id)
            && s.zone.entities == World(s.log)
  {
    InvOverRuns(r, es);
  }

  /** An action takes effect only in the step that brings a verdict, after the approval, and as it was recorded. */
  lemma OnlyAVerdictApplies(r: Rules, es: seq<Event>, e: Event)
    ensures var s := Run(r, START, es);
            var t := Step(r, s, e);
            || (t.log == s.log && t.zone.entities == s.zone.entities)
            || e.DoOutside?
            || (e.DoAck? && e.ack.id in s.zone.pending
                   && var p := s.zone.pending[e.ack.id];
                      if e.ack.verdict == 0 then t.zone.entities == Without(s.zone.entities, p.entity.uuid)
                      else p.apply && e.ack.id in s.approvals
                           && t.zone.entities == Effect(s.zone.entities, p.verb, p.entity)
                           && Justified(r, s.asked, s.approvals, Applied(e.ack.id, p.verb, p.entity)))
  {
    InvOverRuns(r, es);
    var s := Run(r, START, es);
    if e.DoAck? && e.ack in s.acks && e.ack.id in s.zone.pending {
      assert Waits(r, s.asked, e.ack.id, s.zone.pending[e.ack.id]);
      assert s.log + [] == s.log;
    }
  }

  lemma StepLeavesGone(r: Rules, s: System, e: Event, id: Id)
    requires id < s.zone.next && id !in s.zone.pending
    ensures var t := Step(r, s, e);
            && id < t.zone.next && id !in t.zone.pending && s.log <= t.log
            && (forall i :: |s.log| <= i < |t.log| && t.log[i].Applied? ==> t.log[i].id != id)
  {
  }

  /** An id that is no longer waiting never waits again and takes no effect any more, so late verdicts are ignored. */
  lemma {:induction false} GoneStaysGone(r: Rules, s: System, es: seq<Event>, id: Id)
    requires id < s.zone.next && id !in s.zone.pending
    ensures var t := Run(r, s, es);
            && id < t.zone.next && id !in t.zone.pending && |s.log| <= |t.log|
            && (forall i :: |s.log| <= i < |t.log| && t.log[i].Applied? ==> t.log[i].id != id)
            && forall verdict :: Step(r, t, DoAck(Ack(id, verdict))) == t
  {
    if es != [] {
      GoneStaysGone(r, s, es[..|es| - 1], id);
      StepLeavesGone(r, Run(r, s, es[..|es| - 1]), es[|es| - 1], id);
    }
  }

  /** Asking again cannot let anything in: an answer to a retry changes nothing, in any run. */
  lemma RetriesAreInert(r: Rules, es: seq<Event>, id: Id, verdict: nat)
    ensures var s := Run(r, START, es);
            id in s.retried ==>
              Step(r, s, DoAck(Ack(id, verdict))) == s && Answered(s.zone, id, verdict) == (s.zone, None)
  {
    InvOverRuns(r, es);
  }

  /**
   The breaker is open only after one or two unanswered requests in a row; the third gives the validator up instead.
   */
  lemma {:induction false} BreakerOverRuns(r: Rules, es: seq<Event>)
    ensures var b := Run(r, START, es).zone.breaker; b.open ==> 0 < b.trips < CB_MAX_OPEN
  {
    if es != [] {
      BreakerOverRuns(r, es[..|es| - 1]);
      StepTrips(r, Run(r, START, es[..|es| - 1]), es[|es| - 1]);
    }
  }

  lemma StepTrips(r: Rules, s: System, e: Event)
    requires s.zone.breaker.open ==> 0 < s.zone.breaker.trips < CB_MAX_OPEN
    ensures var b := Step(r, s, e).zone.breaker; b.open ==> 0 < b.trips < CB_MAX_OPEN
  {
  }

  /**
   A refused action changes nothing exactly when no entity has the uuid of what was proposed; otherwise that entity
   goes.
   */
  lemma RefusalChangesNothingIff(z: Zone, id: Id)
    requires id in z.pending
    ensures Answered(z, id, 0).0.entities == z.entities <==> !Holds(z.entities, z.pending[id].entity.uuid)
    ensures forall x :: x in Answered(z, id, 0).0.entities <==> x in z.entities && x.uuid != z.pending[id].entity.uuid
  {
    WithoutIsInert(z.entities, z.pending[id].entity.uuid);
    WithoutMembers(z.entities, z.pending[id].entity.uuid);
  }

  /**
   An accepted action leaves the approved entity as the first under its uuid, or none after a removal, and all others
   as they were and in their order. It never makes a second copy, and does not clear away one that was there.
   */
  lemma AcceptanceIsExact(z: Zone, id: Id, verdict: nat)
    requires id in z.pending && z.pending[id].apply && verdict != 0
    ensures var after, p := Answered(z, id, verdict).0.entities, z.pending[id];
            var u, n := p.entity.uuid, Copies(z.entities, p.entity.uuid);
            && Without(after, u) == Without(z.entities, u)
            && Target(after, u) == (if p.verb.Remove? then None else Some(p.entity))
            && Copies(after, u) == if p.verb.Remove? then 0 else if n == 0 then 1 else n
  {
    StoredIsFirst(z.entities, z.pending[id].entity);
    WithoutIsGone(z.entities, z.pending[id].entity.uuid);
  }

  // ------------------------------------------------------------------------------------------------
  // What the module does not see
  // ------------------------------------------------------------------------------------------------

  /** The creation `a`, with another payload or another angle. */
  ghost predicate SameQuestion(r: Rules, z: Zone, a: Action, b: Action, now: nat) {
    Asked(r, z, a, now, false, true).1 == Asked(r, z, b, now, false, true).1
  }

  /**
   Creations whose payloads agree as far as the module sees them are one and the same question: every module rules
   alike on them, and yet each approval stores its own entity.
   */
  lemma OneVerdictTwoEntities(r: Rules, z: Zone, a: Action, b: Action, now: nat, m: Module)
    requires Creates(a.verb) && Reachable(z.breaker, now) && b == a.(data := b.data, angle := b.angle)
    requires Cut(a.data) == Cut(b.data)
    ensures SameQuestion(r, z, a, b, now)
    ensures var (za, ra), (zb, rb) := Asked(r, z, a, now, false, true), Asked(r, z, b, now, false, true);
            && Ruling(ra.value, m, true) == Ruling(rb.value, m, true)
            && var ea, eb := za.pending[z.next].entity, zb.pending[z.next].entity;
               && (ea == eb ==> a == b)
               && Target(Answered(za, z.next, 1).0.entities, ea.uuid) == Some(ea)
               && Target(Answered(zb, z.next, 1).0.entities, eb.uuid) == Some(eb)
  {
    var za, zb := Asked(r, z, a, now, false, true).0, Asked(r, z, b, now, false, true).0;
    var ea, eb := Proposal(r, z.entities, a).value, Proposal(r, z.entities, b).value;
    assert ea.spot == a.spot == b.spot == eb.spot;
    assert BlobOf(r, a, ea) == BlobOf(r, b, eb);
    assert za.pending[z.next].entity == ea && zb.pending[z.next].entity == eb;
    StoredIsFirst(z.entities, ea);
    StoredIsFirst(z.entities, eb);
  }

  /** No other payload of legal size leads to the same question. */
  ghost predicate PayloadFixed(r: Rules, z: Zone, a: Action, now: nat) {
    forall data: seq<nat> :: |data| <= Codec.MAX_ENTITY_DATA && SameQuestion(r, z, a, a.(data := data), now) ==>
        data == a.data
  }

  /** The verdict fixes the payload that is stored exactly if the payload is shorter than what the header leaves. */
  lemma PayloadFixedIff(r: Rules, z: Zone, a: Action, now: nat)
    requires Creates(a.verb) && Reachable(z.breaker, now)
    ensures PayloadFixed(r, z, a, now) <==> |a.data| < 4064
  {
    if |a.data| < SEEN {
      forall data: seq<nat> | SameQuestion(r, z, a, a.(data := data), now) ensures data == a.data {
        SameCut(r, z, a, data, now);
      }
    } else {
      var data := if |a.data| == SEEN then a.data + [0] else a.data[..SEEN];
      assert Cut(data) == Cut(a.data) && data != a.data;
      OneVerdictTwoEntities(r, z, a, a.(data := data), now, Module(false, false, false, (_, _) => 0));
    }
  }

  lemma SameCut(r: Rules, z: Zone, a: Action, data: seq<nat>, now: nat)
    requires Creates(a.verb) && Reachable(z.breaker, now) && SameQuestion(r, z, a, a.(data := data), now)
    ensures Cut(data) == Cut(a.data)
  {
    var b := a.(data := data);
    assert Asked(r, z, a, now, false, true).1.value.blob.payload == Cut(a.data);
    assert Asked(r, z, b, now, false, true).1.value.blob.payload == Cut(data);
  }
}
