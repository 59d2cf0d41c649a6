/**
 The handoff of entities between zones. A zone whose entity has left its box asks the head to take it
 (REASSIGN, immediately followed by the full state) and keeps it until the head answers that it was routed.
 The links between the head and each zone are reliable and first-in first-out; everything else is arbitrary:
 the order in which nodes act, retries, stale answers, hand-backs and changes of the routing.
 */
module Handoff {
  import opened Geometry
  import opened Roster

  /** Zone to head. */
  datatype Up =
    | UpReassign(uuid: nat, chunk: Chunk)
    | UpEntity(entity: Entity)
    | UpDrained(id: nat)

  /** Head to zone. `routed` tells the answers 1 ("let go") and 2 ("nobody covers that chunk, keep it") apart. */
  datatype Down =
    | DownAnswer(uuid: nat, routed: bool)
    | DownReassign(uuid: nat)
    | DownEntity(entity: Entity)
    | DownDrain(id: nat)
    | DownDelete

  /** The two packets of one handoff attempt. */
  function Offer(e: Entity): seq<Up> { [UpReassign(e.uuid, e.spot.chunk), UpEntity(e)] }

  function Offers(es: seq<Entity>): seq<Up> {
    if es == [] then [] else Offers(es[..|es| - 1]) + Offer(es[|es| - 1])
  }

  /** What a zone answers to a drain: the states it publishes, and the confirmation. */
  function Publication(order: seq<Entity>, id: nat): seq<Up> { States(order) + [UpDrained(id)] }

  function States(order: seq<Entity>): seq<Up> {
    seq(|order|, i requires 0 <= i < |order| => UpEntity(order[i]))
  }

  /** The confirmation is behind everything that is published. */
  lemma ConfirmationIsLast(order: seq<Entity>, id: nat)
    ensures |Publication(order, id)| == |order| + 1 && Publication(order, id)[|order|] == UpDrained(id)
    ensures forall i :: 0 <= i < |order| ==> Publication(order, id)[i] == UpEntity(order[i])
  {
  }

  /** It publishes everything it holds and has a lease on. */
  ghost predicate Publishes(held: map<Uuid, Entity>, leased: set<Uuid>, order: seq<Entity>) {
    && (forall i :: 0 <= i < |order| ==>
          order[i].uuid in held && order[i].uuid in leased && held[order[i].uuid] == order[i])
    && (forall u :: u in held && u in leased ==> held[u] in order)
  }

  // ------------------------------------------------------------------------------------------------
  // One zone's side
  // ------------------------------------------------------------------------------------------------

  /** An entity outside the zone's box whose last attempt, if any, is old enough to be repeated. */
  predicate Due(e: Entity, box: Box, lastTry: map<nat, int>, now: int, retryMs: int) {
    !box.Has(e.spot.chunk) && (e.uuid in lastTry ==> now - lastTry[e.uuid] >= retryMs)
  }

  /** One round of attempts: what is offered, and the throttle after it. */
  function Round(
    es: seq<Entity>, box: Box, lastTry: map<nat, int>, now: int, retryMs: int): (seq<Entity>, map<nat, int>)
  {
    if es == [] then ([], lastTry)
    else
      var (due, tried) := Round(es[..|es| - 1], box, lastTry, now, retryMs);
      var e := es[|es| - 1];
      if Due(e, box, tried, now, retryMs) then (due + [e], tried[e.uuid := now]) else (due, tried)
  }

  predicate Offered(due: seq<Entity>, u: nat) { exists k :: 0 <= k < |due| && due[k].uuid == u }

  /** The list has an entity of that id whose chunk is not in the box. */
  predicate IsOutside(es: seq<Entity>, box: Box, u: nat) {
    exists i :: 0 <= i < |es| && es[i].uuid == u && !box.Has(es[i].spot.chunk)
  }

  lemma OfferedSnoc(due: seq<Entity>, e: Entity, u: nat)
    ensures Offered(due + [e], u) <==> Offered(due, u) || e.uuid == u
  {
    var more := due + [e];
    assert more[|due|] == e;
    if Offered(due, u) {
      var k :| 0 <= k < |due| && due[k].uuid == u;
      assert more[k].uuid == u;
    }
  }

  lemma OutsideSnoc(es: seq<Entity>, box: Box, u: nat)
    requires es != []
    ensures var e := es[|es| - 1];
            IsOutside(es, box, u) <==> IsOutside(es[..|es| - 1], box, u) || (e.uuid == u && !box.Has(e.spot.chunk))
  {
    var init := es[..|es| - 1];
    if IsOutside(init, box, u) {
      var i :| 0 <= i < |init| && init[i].uuid == u && !box.Has(init[i].spot.chunk);
      assert es[i] == init[i];
    }
  }

  /**
   In a round an id is offered exactly when an entity of that id is outside the box and its last offer, if any, is the
   retry time ago; then it is stamped, and with a positive retry time it is offered once, however often the list
   holds it.
   */
  lemma {:induction false} RoundIsExact(
    es: seq<Entity>, box: Box, lastTry: map<nat, int>, now: int, retryMs: int, u: nat)
    ensures var (due, tried) := Round(es, box, lastTry, now, retryMs);
            && (Offered(due, u) <==> IsOutside(es, box, u) && (u in lastTry ==> now - lastTry[u] >= retryMs))
            && (u in tried <==> Offered(due, u) || u in lastTry)
            && (u in tried ==> tried[u] == if Offered(due, u) then now else lastTry[u])
            && (retryMs > 0 ==> forall k, l :: 0 <= k < l < |due| && due[k].uuid == u ==> due[l].uuid != u)
  {
    if es != [] {
      RoundIsExact(es[..|es| - 1], box, lastTry, now, retryMs, u);
      OutsideSnoc(es, box, u);
      OfferedSnoc(Round(es[..|es| - 1], box, lastTry, now, retryMs).0, es[|es| - 1], u);
    }
  }

  /** The rounds of a zone, each after the routed answers that came since the one before; list and box may change. */
  datatype Tick = Tick(routed: set<nat>, es: seq<Entity>, box: Box, now: int)

  function TriedAfter(ticks: seq<Tick>, k: nat, lastTry: map<nat, int>, retryMs: int): map<nat, int>
    requires k <= |ticks|
  {
    if k == 0 then lastTry
    else
      var t := ticks[k - 1];
      Round(t.es, t.box, TriedAfter(ticks, k - 1, lastTry, retryMs) - t.routed, t.now, retryMs).1
  }

  predicate OfferedIn(ticks: seq<Tick>, k: nat, lastTry: map<nat, int>, retryMs: int, u: nat)
    requires k < |ticks|
  {
    var t := ticks[k];
    Offered(Round(t.es, t.box, TriedAfter(ticks, k, lastTry, retryMs) - t.routed, t.now, retryMs).0, u)
  }

  predicate RoutedSince(ticks: seq<Tick>, i: nat, k: nat, u: nat)
    requires k <= |ticks|
  {
    exists m :: i < m < k && u in ticks[m].routed
  }

  lemma {:induction false} TriedSince(ticks: seq<Tick>, i: nat, k: nat, lastTry: map<nat, int>, retryMs: int, u: nat)
    requires i < k <= |ticks| && OfferedIn(ticks, i, lastTry, retryMs, u)
    requires forall m :: i < m < k ==> !OfferedIn(ticks, m, lastTry, retryMs, u)
    ensures var tried := TriedAfter(ticks, k, lastTry, retryMs);
            if RoutedSince(ticks, i, k, u) then u !in tried else u in tried && tried[u] == ticks[i].now
  {
    var t, before := ticks[k - 1], TriedAfter(ticks, k - 1, lastTry, retryMs);
    RoundIsExact(t.es, t.box, before - t.routed, t.now, retryMs, u);
    if i < k - 1 {
      TriedSince(ticks, i, k - 1, lastTry, retryMs, u);
      assert !OfferedIn(ticks, k - 1, lastTry, retryMs, u);
    }
  }

  /**
   So an entity that stays outside is offered again and again: after its last offer, exactly the rounds that find it
   outside offer it that come at least the retry time later, or after the answer that it was routed.
   */
  lemma RetriedIff(ticks: seq<Tick>, i: nat, k: nat, lastTry: map<nat, int>, retryMs: int, u: nat)
    requires i < k < |ticks| && OfferedIn(ticks, i, lastTry, retryMs, u)
    requires forall m :: i < m < k ==> !OfferedIn(ticks, m, lastTry, retryMs, u)
    ensures OfferedIn(ticks, k, lastTry, retryMs, u) <==>
            && IsOutside(ticks[k].es, ticks[k].box, u)
            && (ticks[k].now - ticks[i].now >= retryMs || RoutedSince(ticks, i, k + 1, u))
  {
    TriedSince(ticks, i, k, lastTry, retryMs, u);
    var t := ticks[k];
    RoundIsExact(t.es, t.box, TriedAfter(ticks, k, lastTry, retryMs) - t.routed, t.now, retryMs, u);
  }

  /** And the first round that finds it outside offers it, whatever the time. */
  lemma OfferedAtOnce(ticks: seq<Tick>, k: nat, lastTry: map<nat, int>, retryMs: int, u: nat)
    requires k < |ticks| && u !in TriedAfter(ticks, k, lastTry, retryMs)
    ensures OfferedIn(ticks, k, lastTry, retryMs, u) <==> IsOutside(ticks[k].es, ticks[k].box, u)
  {
    var t := ticks[k];
    RoundIsExact(t.es, t.box, TriedAfter(ticks, k, lastTry, retryMs) - t.routed, t.now, retryMs, u);
  }

  lemma {:induction false} OfferedAreHeld(
    es: seq<Entity>, box: Box, lastTry: map<nat, int>, now: int, retryMs: int, k: nat)
    requires k < |Round(es, box, lastTry, now, retryMs).0|
    ensures var e := Round(es, box, lastTry, now, retryMs).0[k]; e in es && !box.Has(e.spot.chunk)
  {
    var init := es[..|es| - 1];
    if k < |Round(init, box, lastTry, now, retryMs).0| {
      OfferedAreHeld(init, box, lastTry, now, retryMs, k);
    }
  }

  lemma RoundSnoc(es: seq<Entity>, i: nat, box: Box, lastTry: map<nat, int>, now: int, retryMs: int)
    requires i < |es|
    ensures var (due, tried) := Round(es[..i], box, lastTry, now, retryMs);
            Round(es[..i + 1], box, lastTry, now, retryMs) ==
            if Due(es[i], box, tried, now, retryMs) then (due + [es[i]], tried[es[i].uuid := now]) else (due, tried)
  {
    assert es[..i + 1][..i] == es[..i];
  }

  lemma OffersSnoc(due: seq<Entity>, e: Entity)
    ensures Offers(due + [e]) == Offers(due) + [UpReassign(e.uuid, e.spot.chunk)] + [UpEntity(e)]
  {
    assert (due + [e])[..|due|] == due;
  }

  class ZoneNode {
    var entities: seq<Entity>
    var leases: set<Uuid>
    var handoffLastTry: map<nat, int>
    var sent: seq<Up>

    constructor ()
      ensures entities == [] && leases == {} && handoffLastTry == map[] && sent == []
    {
      entities, leases, handoffLastTry, sent := [], {}, map[], [];
    }

    /** Offers every due entity to the head, and keeps them all. */
    method CheckAndTransfer(box: Box, now: int, retryMs: int)
      modifies `handoffLastTry, `sent
      ensures var (due, tried) := Round(entities, box, old(handoffLastTry), now, retryMs);
              sent == old(sent) + Offers(due) && handoffLastTry == tried
    {
      ghost var was := handoffLastTry;
      ghost var due: seq<Entity> := [];
      for i := 0 to |entities|
        invariant (due, handoffLastTry) == Round(entities[..i], box, was, now, retryMs)
        invariant sent == old(sent) + Offers(due)
      {
        var e := entities[i];
        RoundSnoc(entities, i, box, was, now, retryMs);
        OffersSnoc(due, e);
        if !box.Has(e.spot.chunk) {
          if e.uuid in handoffLastTry && now - handoffLastTry[e.uuid] < retryMs {
            continue;
          }
          handoffLastTry := handoffLastTry[e.uuid := now];
          sent := sent + [UpReassign(e.uuid, e.spot.chunk)];
          sent := sent + [UpEntity(e)];
          due := due + [e];
        }
      }
      assert entities[..|entities|] == entities;
    }

    /** The state of an entity handed to this zone: it replaces the first copy held, if any, and is leased. */
    method OnEntity(e: Entity)
      modifies `entities, `leases
      ensures entities == Stored(old(entities), e) && leases == old(leases) + {e.uuid}
      ensures HeldBy(entities) == HeldBy(old(entities))[e.uuid := e]
      ensures Without(entities, e.uuid) == Without(old(entities), e.uuid)
    {
      StoredHolds(entities, e);
      StoredIsFirst(entities, e);
      entities := Store(entities, e);
      leases := leases + {e.uuid};
    }

    /** The head's answer to an offer: only "routed" makes the zone let go, of every copy. */
    method OnAnswer(uuid: nat, routed: bool)
      modifies `entities, `leases, `handoffLastTry
      ensures entities == if routed then Without(old(entities), uuid) else old(entities)
      ensures HeldBy(entities) == if routed then HeldBy(old(entities)) - {uuid} else HeldBy(old(entities))
      ensures leases == if routed then old(leases) - {uuid} else old(leases)
      ensures handoffLastTry == if routed then old(handoffLastTry) - {uuid} else old(handoffLastTry)
    {
      if routed {
        WithoutHolds(entities, uuid);
        entities := Erase(entities, uuid);
        leases := leases - {uuid};
        handoffLastTry := handoffLastTry - {uuid};
      }
    }

    /** The head names this zone the owner: what it holds already is leased again. */
    method OnNamedOwner(uuid: nat)
      modifies `leases
      ensures leases == if uuid in HeldBy(entities) then old(leases) + {uuid} else old(leases)
    {
      HeldIsFirst(entities, uuid);
      var e := FindTarget(entities, uuid);
      if e.Some? {
        leases := leases + {uuid};
      }
    }

    /** Publishes the first copy of `u`, if there is one. */
    method PublishState(u: Uuid, ghost order: seq<Entity>, ghost done: set<Uuid>) returns (ghost more: seq<Entity>)
      requires Publishes(HeldBy(entities), done, order)
      modifies `sent
      ensures Publishes(HeldBy(entities), done + {u}, more)
      ensures order <= more && sent == old(sent) + States(more)[|order|..]
    {
      HeldIsFirst(entities, u);
      PublishesMore(HeldBy(entities), done, order, u);
      more := order;
      var e := FindTarget(entities, u);
      if e.Some? {
        sent := sent + [UpEntity(e.value)];
        more := order + [e.value];
      }
    }

    /** A drain: the leases are surrendered one by one, lowest id first, and what is held under them is published. */
    method OnDrain(id: nat) returns (ghost order: seq<Entity>)
      modifies `leases, `sent
      ensures leases == {} && Publishes(HeldBy(entities), old(leases), order)
      ensures sent == old(sent) + Publication(order, id)
    {
      order := [];
      while leases != {}
        invariant leases <= old(leases)
        invariant Publishes(HeldBy(entities), old(leases) - leases, order)
        invariant sent == old(sent) + States(order)
        decreases |leases|
      {
        ghost var least := LeastOf(leases);
        var u :| u in leases && forall v :: v in leases ==> u <= v;
        ghost var more := PublishState(u, order, old(leases) - leases);
        StatesPrefix(order, more);
        assert old(leases) - (leases - {u}) == old(leases) - leases + {u};
        order := more;
        leases := leases - {u};
      }
      assert old(leases) - {} == old(leases);
      sent := sent + [UpDrained(id)];
    }
  }

  lemma StatesPrefix(order: seq<Entity>, more: seq<Entity>)
    requires order <= more
    ensures States(more) == States(order) + States(more)[|order|..]
  {
  }

  lemma PublishesMore(held: map<Uuid, Entity>, done: set<Uuid>, order: seq<Entity>, u: Uuid)
    requires Publishes(held, done, order) && (u in held ==> held[u].uuid == u)
    ensures Publishes(held, done + {u}, if u in held then order + [held[u]] else order)
  {
    if u in held {
      var more := order + [held[u]];
      assert more[|order|] == held[u];
      forall v | v in held && v in done + {u} ensures held[v] in more {
        assert v != u ==> held[v] in order;
      }
    }
  }

  lemma {:induction false} LeastOf(s: set<nat>) returns (m: nat)
    requires s != {}
    ensures m in s && forall x :: x in s ==> m <= x
  {
    var x :| x in s;
    if s == {x} {
      m := x;
    } else {
      var rest := s - {x};
      assert s == rest + {x};
      var k := LeastOf(rest);
      m := if k < x then k else x;
    }
  }
}
