/**
 Where an action comes from and what becomes of it: who may ask, what exactly is asked for, who is answered what, and
 what an unanswered request does to the breaker.
 */
module ActionRuns {
  import opened Geometry
  import opened Roster
  import opened ActionGate

  // ------------------------------------------------------------------------------------------------
  // Who may ask, and for what
  // ------------------------------------------------------------------------------------------------

  /** The breaker is open at that time. */
  predicate Blocked(b: Breaker, now: nat) { b.validated && b.open && now < b.until }

  /** The entity at `i` is the first of that uuid. */
  predicate IsFirst(es: seq<Entity>, i: nat, uuid: Uuid)
    requires i < |es|
  {
    es[i].uuid == uuid && forall j :: 0 <= j < i ==> es[j].uuid != uuid
  }

  /** The first entity of that uuid is `e`, and belongs to the world. */
  ghost predicate WorldHas(es: seq<Entity>, uuid: Uuid, e: Entity) {
    e.worldOwned && exists i :: 0 <= i < |es| && IsFirst(es, i, uuid) && es[i] == e
  }

  lemma {:induction false} TargetIff(es: seq<Entity>, uuid: Uuid, e: Entity)
    ensures WorldHas(es, uuid, e) <==> Target(es, uuid) == Some(e) && e.worldOwned
  {
    if es != [] {
      TargetIff(es[1..], uuid, e);
      if es[0].uuid != uuid {
        if i :| 0 <= i < |es| && IsFirst(es, i, uuid) && es[i] == e {
          assert es[1..][i - 1] == es[i] && IsFirst(es[1..], i - 1, uuid);
        }
        if i :| 0 <= i < |es[1..]| && IsFirst(es[1..], i, uuid) && es[1..][i] == e {
          assert es[i + 1] == es[1..][i] && forall j :: 0 < j < i + 1 ==> es[j] == es[1..][j - 1];
          assert IsFirst(es, i + 1, uuid);
        }
      } else {
        assert IsFirst(es, 0, uuid);
      }
    }
  }

  /** What the player asked for: a thing of that place and payload, or a thing of the world, moved or as it is. */
  ghost predicate Requested(r: Rules, es: seq<Entity>, a: Action, e: Entity) {
    match a.verb
    case Place => e == Entity(r.name(a.spot, a.data), true, a.spot, a.angle, a.data)
    case Drop => e == Entity(r.name(a.spot, a.data), true, a.spot, a.angle, a.data)
    case Remove => WorldHas(es, a.target, e)
    case Move => exists was :: WorldHas(es, a.target, was) && e == was.(spot := a.spot, angle := a.angle)
    case OtherVerb => false
  }

  /** Nothing speaks against the action. */
  ghost predicate MayAsk(z: Zone, a: Action, now: nat, banned: bool) {
    && !banned && !Blocked(z.breaker, now)
    && (a.verb.Place? || a.verb.Drop? ||
        ((a.verb.Remove? || a.verb.Move?) && exists e :: WorldHas(z.entities, a.target, e)))
  }

  /**
   A request goes out exactly if the actor is not banned, the breaker is not open, the verb is known, what is removed or
   moved belongs to the world, and it can be sent. Otherwise nothing changes but, if sending failed, the next id.
   */
  lemma AskedIff(r: Rules, z: Zone, a: Action, now: nat, banned: bool, sent: bool)
    ensures var (y, req) := Asked(r, z, a, now, banned, sent);
            && (req.Some? <==> MayAsk(z, a, now, banned) && sent)
            && (!MayAsk(z, a, now, banned) ==> y == z)
            && (MayAsk(z, a, now, banned) && !sent ==> y == z.(next := z.next + 1))
  {
    forall e ensures WorldHas(z.entities, a.target, e) <==> Target(z.entities, a.target) == Some(e) && e.worldOwned {
      TargetIff(z.entities, a.target, e);
    }
  }

  /** What goes out names the actor and a fresh id, and what waits under that id is what the player asked for. */
  lemma AskedIsRequested(r: Rules, z: Zone, a: Action, now: nat, banned: bool, sent: bool)
    requires Asked(r, z, a, now, banned, sent).1.Some?
    ensures var (y, req) := Asked(r, z, a, now, banned, sent);
            && req.value.ActionCheck? && req.value.id == z.next && req.value.actor == a.actor && y.next == z.next + 1
            && y.pending.Keys == z.pending.Keys + {z.next} && y.entities == z.entities && y.breaker == z.breaker
            && (forall id :: id in z.pending && id != z.next ==> y.pending[id] == z.pending[id])
            && var p := y.pending[z.next];
               && p.deadline == now + 500 && p.retries == 0 && p.apply
               && p.verb == a.verb && p.actor == a.actor && p.reqId == a.reqId
               && Requested(r, z.entities, a, p.entity)
    ensures var blob := Asked(r, z, a, now, banned, sent).1.value.blob;
            && blob.verb == a.verb && blob.target == a.target && blob.payload <= a.data
            && |blob.payload| == if |a.data| <= 4064 then |a.data| else 4064
  {
    var t := Target(z.entities, a.target);
    if t.Some? {
      TargetIff(z.entities, a.target, t.value);
    }
  }

  /**
   A movement check goes out exactly if the breaker is not open, less than 64 requests wait, the entity was not asked
   about within 30 milliseconds, and it can be sent. Nothing waits to be applied, and the world does not change.
   */
  lemma MoveAskedIff(z: Zone, e: Entity, now: nat, sent: bool)
    requires now < 0x1_0000_0000_0000_0000 && (e.uuid in z.lastAsk ==> z.lastAsk[e.uuid] <= now)
    ensures var (y, req) := AskedMove(z, e, now, sent);
            var may := !Blocked(z.breaker, now) && |z.pending| < 64 &&
                       (e.uuid in z.lastAsk ==> now - z.lastAsk[e.uuid] >= 30);
            && (req.Some? <==> may && sent)
            && (req.None? ==> y == z.(next := z.next + if may then 1 else 0))
            && (req.Some? ==>
                  && req.value == MoveCheck(z.next, e)
                  && y == z.(next := z.next + 1, lastAsk := z.lastAsk[e.uuid := now],
                          pending := z.pending[z.next := Pending(now + 500, 0, e, false, OtherVerb, 0, 0)]))
  {
  }

  // ------------------------------------------------------------------------------------------------
  // Movement checks over runs
  // ------------------------------------------------------------------------------------------------

  function MovesIn(pending: map<Id, Pending>): set<Id> { set id | id in pending && !pending[id].apply }

  lemma Fewer<T>(a: set<T>, b: set<T>)
    requires a <= b
    ensures |a| <= |b|
  {
    assert a + (b - a) == b;
  }

  /** In every run at most 64 movement checks wait, however many players move. */
  lemma {:induction false} FewMovesWait(r: Rules, es: seq<Event>)
    ensures |MovesIn(Run(r, START, es).zone.pending)| <= 64
  {
    if es == [] {
      assert MovesIn(map[]) == {};
    } else {
      FewMovesWait(r, es[..|es| - 1]);
      var s, e := Run(r, START, es[..|es| - 1]), es[|es| - 1];
      MovesAfter(r, s, e);
    }
  }

  lemma MovesAfter(r: Rules, s: System, e: Event)
    requires |MovesIn(s.zone.pending)| <= 64
    ensures |MovesIn(Step(r, s, e).zone.pending)| <= 64
  {
    var was, now := s.zone.pending, Step(r, s, e).zone.pending;
    if e.DoMove? && AskedMove(s.zone, e.e, e.now, e.sent).1.Some? {
      Fewer(MovesIn(was), was.Keys);
      Fewer(MovesIn(now), MovesIn(was) + {s.zone.next});
    } else if e.DoAction? {
      Fewer(MovesIn(now), MovesIn(was));
    } else {
      Fewer(MovesIn(now), MovesIn(was));
    }
  }

  /** Event `k` of the run sends a movement check about `u`. */
  predicate Checks(r: Rules, es: seq<Event>, k: nat, u: Uuid)
    requires k < |es|
  {
    es[k].DoMove? && es[k].e.uuid == u && AskedMove(Run(r, START, es[..k]).zone, es[k].e, es[k].now, es[k].sent).1.Some?
  }

  predicate InOrder(es: seq<Event>) {
    && (forall i, j :: 0 <= i <= j < |es| && es[i].DoMove? && es[j].DoMove? ==> es[i].now <= es[j].now)
    && (forall i :: 0 <= i < |es| && es[i].DoMove? ==> es[i].now < 0x1_0000_0000_0000_0000)
  }

  lemma LastAskAfter(r: Rules, s: System, e: Event)
    ensures Step(r, s, e).zone.lastAsk ==
            if e.DoMove? && AskedMove(s.zone, e.e, e.now, e.sent).1.Some? then s.zone.lastAsk[e.e.uuid := e.now]
            else s.zone.lastAsk
  {
  }

  ghost predicate CheckedSince(es: seq<Event>, k: nat, n: nat, last: map<Uuid, nat>, u: Uuid)
    requires n <= |es|
  {
    u in last && exists i :: k <= i < n && es[i].DoMove? && es[i].now == last[u]
  }

  /** The stamp of an entity that was asked about is the time of that check or of a later one. */
  lemma {:induction false} LastAskIs(r: Rules, es: seq<Event>, n: nat, k: nat, u: Uuid)
    requires k < n <= |es| && Checks(r, es, k, u)
    ensures CheckedSince(es, k, n, Run(r, START, es[..n]).zone.lastAsk, u)
  {
    assert es[..n][..n - 1] == es[..n - 1];
    var before, e := Run(r, START, es[..n - 1]), es[n - 1];
    assert Run(r, START, es[..n]) == Step(r, before, e);
    LastAskAfter(r, before, e);
    if k < n - 1 {
      LastAskIs(r, es, n - 1, k, u);
    }
    AskStays(es, k, n, before.zone.lastAsk, Step(r, before, e).zone.lastAsk, u);
  }

  lemma AskStays(es: seq<Event>, k: nat, n: nat, was: map<Uuid, nat>, now: map<Uuid, nat>, u: Uuid)
    requires k < n <= |es| && (k < n - 1 ==> CheckedSince(es, k, n - 1, was, u))
    requires (k < n - 1 && now == was) || (es[n - 1].DoMove? && now == was[es[n - 1].e.uuid := es[n - 1].now])
    requires k == n - 1 ==> es[n - 1].DoMove? && es[n - 1].e.uuid == u
    ensures CheckedSince(es, k, n, now, u)
  {
  }

  /** In every run two movement checks about the same entity are at least 30 milliseconds apart. */
  lemma ChecksAreSpaced(r: Rules, es: seq<Event>, k: nat, l: nat, u: Uuid)
    requires k < l < |es| && InOrder(es) && Checks(r, es, k, u) && Checks(r, es, l, u)
    ensures es[l].now - es[k].now >= 30
  {
    LastAskIs(r, es, l, k, u);
    var last := Run(r, START, es[..l]).zone.lastAsk[u];
    var i :| k <= i < l && es[i].DoMove? && es[i].now == last;
  }

  // ------------------------------------------------------------------------------------------------
  // Every change goes back to an action
  // ------------------------------------------------------------------------------------------------

  /** In state `s`, `e` is the action that asked under this id for this. */
  ghost predicate OriginAt(r: Rules, s: System, e: Event, id: Id, verb: Verb, x: Entity, actor: Uuid, reqId: nat) {
    && e.DoAction? && !e.banned && e.sent && !Blocked(s.zone.breaker, e.now) && s.zone.next == id
    && e.a.verb == verb && e.a.actor == actor && e.a.reqId == reqId && Requested(r, s.zone.entities, e.a, x)
  }

  ghost predicate Origin(r: Rules, es: seq<Event>, id: Id, verb: Verb, x: Entity, actor: Uuid, reqId: nat) {
    exists k :: 0 <= k < |es| && OriginAt(r, Run(r, START, es[..k]), es[k], id, verb, x, actor, reqId)
  }

  lemma OriginStays(r: Rules, es: seq<Event>, e: Event, id: Id, verb: Verb, x: Entity, actor: Uuid, reqId: nat)
    requires Origin(r, es, id, verb, x, actor, reqId)
    ensures Origin(r, es + [e], id, verb, x, actor, reqId)
  {
    var k :| 0 <= k < |es| && OriginAt(r, Run(r, START, es[..k]), es[k], id, verb, x, actor, reqId);
    assert (es + [e])[..k] == es[..k] && (es + [e])[k] == es[k];
  }

  ghost predicate PendingHaveOrigin(r: Rules, es: seq<Event>, pending: map<Id, Pending>) {
    forall id :: id in pending && pending[id].apply ==>
      var p := pending[id]; Origin(r, es, id, p.verb, p.entity, p.actor, p.reqId)
  }

  /** The change was asked for by that actor. */
  ghost predicate ChangeHasOrigin(r: Rules, es: seq<Event>, c: Change)
    requires c.Applied?
  {
    exists actor: Uuid, reqId: nat :: Origin(r, es, c.id, c.verb, c.entity, actor, reqId)
  }

  ghost predicate LogHasOrigin(r: Rules, es: seq<Event>, log: seq<Change>) {
    forall i :: 0 <= i < |log| && log[i].Applied? ==> ChangeHasOrigin(r, es, log[i])
  }

  lemma OriginsStay(r: Rules, es: seq<Event>, e: Event, pending: map<Id, Pending>, log: seq<Change>)
    requires PendingHaveOrigin(r, es, pending) && LogHasOrigin(r, es, log)
    ensures PendingHaveOrigin(r, es + [e], pending) && LogHasOrigin(r, es + [e], log)
  {
    forall id | id in pending && pending[id].apply
      ensures var p := pending[id]; Origin(r, es + [e], id, p.verb, p.entity, p.actor, p.reqId)
    {
      var p := pending[id];
      OriginStays(r, es, e, id, p.verb, p.entity, p.actor, p.reqId);
    }
    forall i | 0 <= i < |log| && log[i].Applied? ensures ChangeHasOrigin(r, es + [e], log[i]) {
      var c := log[i];
      var actor: Uuid, reqId: nat :| Origin(r, es, c.id, c.verb, c.entity, actor, reqId);
      OriginStays(r, es, e, c.id, c.verb, c.entity, actor, reqId);
    }
  }

  /** A request that is asked again is the same request. */
  lemma SamePending(r: Rules, es: seq<Event>, was: map<Id, Pending>, pending: map<Id, Pending>)
    requires PendingHaveOrigin(r, es, was)
    requires forall id :: id in pending && pending[id].apply ==>
             id in was && was[id].(deadline := 0, retries := 0) == pending[id].(deadline := 0, retries := 0)
    ensures PendingHaveOrigin(r, es, pending)
  {
    forall id | id in pending && pending[id].apply
      ensures var p := pending[id]; Origin(r, es, id, p.verb, p.entity, p.actor, p.reqId)
    {
      var p, q := pending[id], was[id];
      assert q.apply && q.verb == p.verb && q.entity == p.entity && q.actor == p.actor && q.reqId == p.reqId;
    }
  }

  lemma ActionHasOrigin(r: Rules, es: seq<Event>, e: Event)
    requires e.DoAction? && PendingHaveOrigin(r, es + [e], Run(r, START, es).zone.pending)
    ensures PendingHaveOrigin(r, es + [e], Step(r, Run(r, START, es), e).zone.pending)
  {
    var s := Run(r, START, es);
    var (z, req) := Asked(r, s.zone, e.a, e.now, e.banned, e.sent);
    AskedIff(r, s.zone, e.a, e.now, e.banned, e.sent);
    if req.Some? {
      AskedIsRequested(r, s.zone, e.a, e.now, e.banned, e.sent);
      var id, more := s.zone.next, es + [e];
      var p := z.pending[id];
      assert more[..|es|] == es && more[|es|] == e;
      assert OriginAt(r, Run(r, START, more[..|es|]), more[|es|], id, p.verb, p.entity, p.actor, p.reqId);
      assert Origin(r, more, id, p.verb, p.entity, p.actor, p.reqId);
    }
  }

  lemma {:induction false} OriginsOverRuns(r: Rules, es: seq<Event>)
    ensures var s := Run(r, START, es); PendingHaveOrigin(r, es, s.zone.pending) && LogHasOrigin(r, es, s.log)
  {
    if es != [] {
      var init, e := es[..|es| - 1], es[|es| - 1];
      var s := Run(r, START, init);
      OriginsOverRuns(r, init);
      OriginsStay(r, init, e, s.zone.pending, s.log);
      assert es == init + [e];
      match e {
        case DoAction(_, _, _, _) => ActionHasOrigin(r, init, e);
        case DoMove(_, _, _) => SamePending(r, es, s.zone.pending, Step(r, s, e).zone.pending);
        case DoOverdue(_, _, _, _) => SamePending(r, es, s.zone.pending, Step(r, s, e).zone.pending);
        case DoAck(ack) => AckHasOrigin(r, es, s, ack);
        case DoRule(_, _, _) =>
        case DoProbe(_, _) =>
        case DoOutside(_) =>
      }
    }
  }

  lemma AckHasOrigin(r: Rules, es: seq<Event>, s: System, ack: Ack)
    requires PendingHaveOrigin(r, es, s.zone.pending) && LogHasOrigin(r, es, s.log)
    ensures var t := Step(r, s, DoAck(ack)); PendingHaveOrigin(r, es, t.zone.pending) && LogHasOrigin(r, es, t.log)
  {
    if ack in s.acks && ack.id in s.zone.pending {
      var p := s.zone.pending[ack.id];
      if p.apply && ack.verdict != 0 {
        assert Origin(r, es, ack.id, p.verb, p.entity, p.actor, p.reqId);
        assert ChangeHasOrigin(r, es, Applied(ack.id, p.verb, p.entity));
      }
    }
  }

  /** A request is remembered as it was, under its own id. */
  lemma {:induction false} AskedStays(r: Rules, es: seq<Event>, k: nat, req: Request)
    requires k < |es| && es[k].DoAction?
    requires var s, e := Run(r, START, es[..k]), es[k]; Asked(r, s.zone, e.a, e.now, e.banned, e.sent).1 == Some(req)
    ensures var s := Run(r, START, es); req.id in s.asked && s.asked[req.id] == req
  {
    var init, e := es[..|es| - 1], es[|es| - 1];
    if k < |init| {
      assert init[..k] == es[..k] && init[k] == es[k];
      AskedStays(r, init, k, req);
      InvOverRuns(r, init);
      NotedStays(r, Run(r, START, init), e, req);
    } else {
      assert es[..k] == init;
    }
  }

  lemma NotedStays(r: Rules, s: System, e: Event, req: Request)
    requires IdsInOrder(s) && req.id in s.asked && s.asked[req.id] == req
    ensures var t := Step(r, s, e); req.id in t.asked && t.asked[req.id] == req
  {
  }

  /**
   Every action that takes effect was asked for, under that id, by an actor who was not banned, while the breaker was
   not open; it is exactly what that actor asked for, and that actor is the one the module has approved it for.
   */
  lemma EveryChangeWasAskedFor(r: Rules, es: seq<Event>, i: nat) returns (k: nat)
    requires var s := Run(r, START, es); i < |s.log| && s.log[i].Applied?
    ensures k < |es| && es[k].DoAction? && !es[k].banned && es[k].sent
    ensures var s, before, a := Run(r, START, es), Run(r, START, es[..k]), es[k].a; var c := s.log[i];
            && !Blocked(before.zone.breaker, es[k].now) && before.zone.next == c.id && a.verb == c.verb
            && Requested(r, before.zone.entities, a, c.entity)
            && c.id in s.asked && s.asked[c.id].ActionCheck? && s.asked[c.id].actor == a.actor
            && c.id in s.approvals && Approves(s.approvals[c.id], a.actor, s.asked[c.id].blob)
  {
    OriginsOverRuns(r, es);
    ActionsFailClosed(r, es);
    var c := Run(r, START, es).log[i];
    assert ChangeHasOrigin(r, es, c);
    var actor: Uuid, reqId: nat :| Origin(r, es, c.id, c.verb, c.entity, actor, reqId);
    k :| 0 <= k < |es| && OriginAt(r, Run(r, START, es[..k]), es[k], c.id, c.verb, c.entity, actor, reqId);
    OriginAsks(r, Run(r, START, es[..k]), es[k], c.id, c.verb, c.entity, actor, reqId);
    var before := Run(r, START, es[..k]);
    var req := Asked(r, before.zone, es[k].a, es[k].now, false, true).1.value;
    AskedStays(r, es, k, req);
  }

  lemma OriginAsks(r: Rules, s: System, e: Event, id: Id, verb: Verb, x: Entity, actor: Uuid, reqId: nat)
    requires OriginAt(r, s, e, id, verb, x, actor, reqId)
    ensures var req := Asked(r, s.zone, e.a, e.now, false, true).1;
            req.Some? && req.value.ActionCheck? && req.value.id == id && req.value.actor == actor
  {
    AskedIff(r, s.zone, e.a, e.now, false, true);
    AskedIsRequested(r, s.zone, e.a, e.now, false, true);
  }

  // ------------------------------------------------------------------------------------------------
  // Who is answered what
  // ------------------------------------------------------------------------------------------------

  /** A waiting action is answered, to its own actor and request, accepted exactly if the verdict is not a refusal. */
  lemma ReplyIsExact(z: Zone, id: Id, verdict: nat)
    ensures var reply := Answered(z, id, verdict).1;
            && (reply.Some? <==> id in z.pending && z.pending[id].apply)
            && (reply.Some? ==>
                  var p := z.pending[id];
                  && reply.value.actor == p.actor && reply.value.reqId == p.reqId && reply.value.verb == p.verb
                  && (reply.value.accepted <==> verdict != 0)
                  && reply.value.uuid == if verdict != 0 then p.entity.uuid else 0)
  {
  }

  /** So in every run an answer goes to an actor who asked, names that actor's own request, and says what happened. */
  lemma RepliesGoBack(r: Rules, es: seq<Event>, id: Id, verdict: nat) returns (k: nat)
    requires Answered(Run(r, START, es).zone, id, verdict).1.Some?
    ensures var z := Run(r, START, es).zone; var reply := Answered(z, id, verdict).1.value;
            && k < |es| && es[k].DoAction? && !es[k].banned
            && es[k].a.actor == reply.actor && es[k].a.reqId == reply.reqId && es[k].a.verb == reply.verb
            && (reply.accepted <==> verdict != 0)
            && (reply.accepted ==> Answered(z, id, verdict).0.entities ==
                                   Effect(z.entities, reply.verb, z.pending[id].entity))
  {
    var z := Run(r, START, es).zone;
    OriginsOverRuns(r, es);
    ReplyIsExact(z, id, verdict);
    var p := z.pending[id];
    assert Origin(r, es, id, p.verb, p.entity, p.actor, p.reqId);
    k :| 0 <= k < |es| && OriginAt(r, Run(r, START, es[..k]), es[k], id, p.verb, p.entity, p.actor, p.reqId);
  }

  // ------------------------------------------------------------------------------------------------
  // The breaker
  // ------------------------------------------------------------------------------------------------

  /** A verdict that is no refusal, on anything that waits, closes the breaker; no other answer touches it. */
  lemma VerdictCloses(z: Zone, id: Id, verdict: nat)
    ensures var b := Answered(z, id, verdict).0.breaker;
            if id in z.pending && verdict != 0
            then !b.open && b.trips == 0 && b.validated == z.breaker.validated
            else b == z.breaker
  {
  }

  /**
   A request is left alone until its deadline, asked again at most twice, and given up otherwise. Giving one up trips
   the breaker: nothing is asked for two seconds, or, the third time in a row, the validator counts as lost.
   */
  lemma OverdueIsExact(z: Zone, id: Id, now: nat, sent: bool, redialled: Option<bool>)
    requires id in z.pending
    ensures var (y, req) := Overdue(z, id, now, sent, redialled); var p := z.pending[id];
            && y.entities == z.entities && y.next == z.next + (if now >= p.deadline && p.retries < 2 then 1 else 0)
            && (now < p.deadline ==> y == z && req.None?)
            && (req.Some? <==> now >= p.deadline && p.retries < 2 && sent)
            && (req.Some? ==> req.value == MoveCheck(z.next, p.entity) && y.breaker == z.breaker && id in y.pending &&
                              y.pending[id] == p.(retries := p.retries + 1, deadline := now + 500))
            && (now >= p.deadline && req.None? ==>
                  && id !in y.pending
                  && GivenUp(z.breaker, y.breaker, now, if p.retries < 2 then None else redialled))
            && (forall j :: j != id ==> (j in y.pending <==> j in z.pending) &&
                                        (j in z.pending ==> y.pending[j] == z.pending[j]))
  {
  }

  /** One more trip: the third shuts the breaker off; before it, it is open for two seconds if there is a validator. */
  ghost predicate GivenUp(b: Breaker, after: Breaker, now: nat, redialled: Option<bool>) {
    && after.trips == b.trips + 1
    && (after.validated <==> b.trips < 2 && match redialled case None => b.validated case Some(connected) => connected)
    && (b.trips >= 2 ==> forall t: nat :: !Blocked(after, t))
    && (b.trips < 2 && after.validated ==> forall t: nat :: Blocked(after, t) <==> t < now + 2000)
  }

  lemma {:induction false} RetriesOverRuns(r: Rules, es: seq<Event>)
    ensures forall id :: id in Run(r, START, es).zone.pending ==> Run(r, START, es).zone.pending[id].retries <= 2
  {
    if es != [] {
      RetriesOverRuns(r, es[..|es| - 1]);
    }
  }

  /** A probe closes the breaker if it connects, and is made only when the validator is lost or the window is over. */
  lemma ProbeIsExact(b: Breaker, now: nat, connected: bool)
    ensures var after := Probed(b, now, connected);
            if b.validated && (!b.open || now < b.until) then after == b
            else if connected then after == Breaker(true, false, 0, 0)
            else after == b.(validated := false)
  {
  }
}
