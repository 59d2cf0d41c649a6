/**
 The movement filter in the zone: every player's baseline and the stamp of its last activity, and everything that
 creates, moves or drops them. A packet without a baseline is not judged at all.
 */
module MovementRuns {
  import opened Geometry
  import opened Roster
  import opened MovementBudget

  datatype Gate = Gate(last: map<Uuid, Last>, seen: map<Uuid, nat>)

  /**
   A position packet, stamped only while the zone claims entities; an entity handed in by another zone; a refused
   verdict or an approved removal; an entity restored from the store; and the sweep of who has not been heard of for
   longer than the lease, which spares what the world owns.
   */
  datatype Event =
    | Position(uuid: Uuid, at: Point, ms: nat, claims: bool)
    | HandIn(uuid: Uuid, ms: nat)
    | Forget(uuid: Uuid, ms: nat)
    | Restore(uuid: Uuid, at: Point, ms: nat)
    | Sweep(ms: nat, spared: set<Uuid>)

  /** Who has not been heard of for longer than the lease. */
  function Stale(r: Rules, seen: map<Uuid, nat>, now: nat, spared: set<Uuid>): set<Uuid> {
    set u | u in seen && Elapsed(now, seen[u]) > r.lease && u !in spared
  }

  /** The verdict on a packet and the baseline after it. */
  function Verdict(r: Rules, base: Option<Last>, at: Point, now: nat): (bool, Last) {
    if base.None? then (true, Last(at, now, 0.0)) else Judge(r, base.value, at, now)
  }

  function Found<T>(m: map<Uuid, T>, u: Uuid): Option<T> { if u in m then Some(m[u]) else None }

  function Applied(r: Rules, g: Gate, e: Event): Gate {
    match e
    case Position(u, at, now, claims) =>
      var (ok, l) := Verdict(r, Found(g.last, u), at, now);
      Gate(g.last[u := l], if ok && claims then g.seen[u := now] else g.seen)
    case HandIn(u, now) => g.(seen := g.seen[u := now])
    case Forget(u, _) => g.(last := g.last - {u})
    case Restore(u, at, now) =>
      if u in g.seen then g else Gate(g.last[u := Last(at, now, 0.0)], g.seen[u := now])
    case Sweep(now, spared) =>
      Gate(g.last - Stale(r, g.seen, now, spared), g.seen - Stale(r, g.seen, now, spared))
  }

  function AfterAll(r: Rules, es: seq<Event>): Gate {
    if es == [] then Gate(map[], map[]) else Applied(r, AfterAll(r, es[..|es| - 1]), es[|es| - 1])
  }

  // ------------------------------------------------------------------------------------------------
  // The zone's side
  // ------------------------------------------------------------------------------------------------

  /** The uuids whose first entity belongs to the world. */
  function WorldOwned(es: seq<Entity>): set<Uuid> {
    set e | e in es && Target(es, e.uuid) == Some(e) && e.worldOwned :: e.uuid
  }

  function Purged(es: seq<Entity>, gone: set<Uuid>): seq<Entity> {
    if es == [] then [] else (if es[0].uuid in gone then [] else [es[0]]) + Purged(es[1..], gone)
  }

  lemma {:induction false} PurgedMore(es: seq<Entity>, gone: set<Uuid>, u: Uuid)
    ensures Without(Purged(es, gone), u) == Purged(es, gone + {u})
    ensures u !in gone ==> Target(Purged(es, gone), u) == Target(es, u)
  {
    if es != [] {
      PurgedMore(es[1..], gone, u);
      var rest := Purged(es[1..], gone);
      if es[0].uuid in gone {
        assert Purged(es, gone) == rest;
      } else {
        assert ([es[0]] + rest)[1..] == rest;
      }
    }
  }

  lemma {:induction false} PurgedOfNothing(es: seq<Entity>)
    ensures Purged(es, {}) == es
  {
    if es != [] {
      PurgedOfNothing(es[1..]);
    }
  }

  lemma OwnedIsFirst(es: seq<Entity>, u: Uuid)
    ensures u in WorldOwned(es) <==> FirstIsOwned(es, u)
  {
    FoundIsIn(es, u);
  }

  lemma {:induction false} FoundIsIn(es: seq<Entity>, u: Uuid)
    ensures Target(es, u).Some? ==> Target(es, u).value in es && Target(es, u).value.uuid == u
  {
    if es != [] {
      FoundIsIn(es[1..], u);
    }
  }

  class MovementGate {
    var last: map<Uuid, Last>
    var seen: map<Uuid, nat>
    const rules: Rules

    ghost function Now(): Gate
      reads this
    {
      Gate(last, seen)
    }

    constructor (r: Rules)
      ensures Now() == Gate(map[], map[]) && rules == r
    {
      last, seen, rules := map[], map[], r;
    }

    /** Refills the bucket of a known entity and takes the step out of it if it fits. */
    method Plausible(uuid: Uuid, at: Point, dt: real) returns (ok: bool)
      requires uuid in last
      modifies `last
      ensures var l := old(last)[uuid];
              var more := l.budget + rules.speed * (if dt > 0.0 then dt else 0.0);
              var full := if more > Cap(rules) then Cap(rules) else more;
              && ok == (rules.metric(l.at, at) <= full)
              && last == old(last)[uuid := l.(budget := if ok then full - rules.metric(l.at, at) else full)]
    {
      var l := last[uuid];
      var dist := rules.metric(l.at, at);
      var budget := l.budget + rules.speed * (if dt > 0.0 then dt else 0.0);
      var cap := Cap(rules);
      if budget > cap {
        budget := cap;
      }
      last := last[uuid := l.(budget := budget)];
      if dist > budget {
        return false;
      }
      last := last[uuid := l.(budget := budget - dist)];
      ok := true;
    }

    /** A position update: judged against the baseline, which then moves on with the budget kept. */
    method OnPosition(uuid: Uuid, at: Point, now: nat, claims: bool) returns (accepted: bool)
      modifies `last, `seen
      ensures Now() == Applied(rules, old(Now()), Position(uuid, at, now, claims))
      ensures accepted == Verdict(rules, Found(old(last), uuid), at, now).0
    {
      if uuid in last {
        var dt := Elapsed(now, last[uuid].tsMs) as real / 1000.0;
        ghost var was := last[uuid];
        assert (if dt > 0.0 then dt else 0.0) == dt && rules.speed * dt == Gain(rules, Elapsed(now, was.tsMs));
        var ok := Plausible(uuid, at, dt);
        assert ok == Judge(rules, was, at, now).0 && last[uuid].budget == Judge(rules, was, at, now).1.budget;
        if !ok {
          assert last == old(last)[uuid := Judge(rules, was, at, now).1];
          return false;
        }
      }
      var keep := if uuid in last then last[uuid].budget else 0.0;
      last := last[uuid := Last(at, now, keep)];
      if claims {
        seen := seen[uuid := now];
      }
      accepted := true;
    }

    /** An entity of another zone: it counts as active, and has no baseline yet. */
    method OnHandIn(uuid: Uuid, now: nat)
      modifies `seen
      ensures Now() == Applied(rules, old(Now()), HandIn(uuid, now))
    {
      seen := seen[uuid := now];
    }

    /** A refused verdict or an approved removal. */
    method OnForget(uuid: Uuid, now: nat)
      modifies `last
      ensures Now() == Applied(rules, old(Now()), Forget(uuid, now))
    {
      last := last - {uuid};
    }

    /** An entity from the store, unless its player was faster. */
    method OnRestore(uuid: Uuid, at: Point, now: nat)
      modifies `last, `seen
      ensures Now() == Applied(rules, old(Now()), Restore(uuid, at, now))
    {
      if uuid !in seen {
        seen := seen[uuid := now];
        last := last[uuid := Last(at, now, 0.0)];
      }
    }

    /** Drops one player who has been silent for longer than the lease, unless the world owns it. */
    method DropIfSilent(u: Uuid, entities: seq<Entity>, now: nat) returns (kept: seq<Entity>)
      requires u in seen
      modifies `last, `seen
      ensures var gone := Elapsed(now, old(seen)[u]) > rules.lease && !FirstIsOwned(entities, u);
              && Now() == (if gone then Gate(old(last) - {u}, old(seen) - {u}) else old(Now()))
              && kept == (if gone then Without(entities, u) else entities)
    {
      kept := entities;
      if Elapsed(now, seen[u]) > rules.lease {
        var e := FindTarget(entities, u);
        if !(e.Some? && e.value.worldOwned) {
          last, seen := last - {u}, seen - {u};
          kept := Erase(entities, u);
        }
      }
    }

    /** Drops everybody who has been silent for longer than the lease, baseline, stamp and entities alike. */
    method SweepSilent(entities: seq<Entity>, now: nat) returns (kept: seq<Entity>)
      modifies `last, `seen
      ensures Now() == Applied(rules, old(Now()), Sweep(now, WorldOwned(entities)))
      ensures kept == Purged(entities, Stale(rules, old(seen), now, WorldOwned(entities)))
    {
      ghost var g, stale := Now(), Stale(rules, seen, now, WorldOwned(entities));
      var todo := seen.Keys;
      kept := entities;
      PurgedOfNothing(entities);
      assert stale - todo == {};
      while todo != {}
        invariant todo <= seen.Keys
        invariant Now() == WithoutAll(g, stale - todo) && kept == Purged(entities, stale - todo)
        decreases |todo|
      {
        var u :| u in todo;
        DroppedOne(g, entities, stale, todo, u);
        OwnedIsFirst(entities, u);
        kept := DropIfSilent(u, kept, now);
        todo := todo - {u};
      }
      assert stale - {} == stale;
    }
  }

  function WithoutAll(g: Gate, gone: set<Uuid>): Gate { Gate(g.last - gone, g.seen - gone) }

  predicate FirstIsOwned(es: seq<Entity>, u: Uuid) { Target(es, u).Some? && Target(es, u).value.worldOwned }

  /** The sweep, one uuid further. */
  lemma DroppedOne(g: Gate, es: seq<Entity>, stale: set<Uuid>, todo: set<Uuid>, u: Uuid)
    requires u in todo
    ensures var done, before := stale - todo, WithoutAll(g, stale - todo);
            && FirstIsOwned(Purged(es, done), u) == FirstIsOwned(es, u)
            && (u in g.seen ==> u in before.seen && before.seen[u] == g.seen[u])
            && WithoutAll(g, stale - (todo - {u})) ==
               (if u in stale then Gate(before.last - {u}, before.seen - {u}) else before)
            && Purged(es, stale - (todo - {u})) ==
               (if u in stale then Without(Purged(es, done), u) else Purged(es, done))
  {
    PurgedMore(es, stale - todo, u);
    assert stale - (todo - {u}) == if u in stale then stale - todo + {u} else stale - todo;
  }

  // ------------------------------------------------------------------------------------------------
  // One player
  // ------------------------------------------------------------------------------------------------

  /** The events as one player sees them. */
  datatype Act =
    | Packet(at: Point, ms: nat, claims: bool)
    | HandedIn(ms: nat)
    | Forgotten(ms: nat)
    | Restored(at: Point, ms: nat)
    | Swept(ms: nat, spared: bool)

  datatype Player = Player(base: Option<Last>, seen: Option<nat>)

  const NOBODY: Player := Player(None, None)

  /** The sweep takes this player. */
  predicate Expired(r: Rules, p: Player, now: nat) { p.seen.Some? && Elapsed(now, p.seen.value) > r.lease }

  /** What an act does; the flag is the verdict if it is a packet. */
  function Outcome(r: Rules, p: Player, a: Act): (bool, Player) {
    match a
    case Packet(at, now, claims) =>
      var (ok, l) := Verdict(r, p.base, at, now);
      (ok, Player(Some(l), if ok && claims then Some(now) else p.seen))
    case HandedIn(now) => (true, p.(seen := Some(now)))
    case Forgotten(_) => (true, p.(base := None))
    case Restored(at, now) => (true, if p.seen.Some? then p else Player(Some(Last(at, now, 0.0)), Some(now)))
    case Swept(now, spared) => (true, if Expired(r, p, now) && !spared then NOBODY else p)
  }

  function Turns(r: Rules, p: Player, acts: seq<Act>, k: nat): Player
    requires k <= |acts|
  {
    if k == 0 then p else Outcome(r, Turns(r, p, acts, k - 1), acts[k - 1]).1
  }

  /** The k-th act is no packet that is rejected. */
  predicate Served(r: Rules, p: Player, acts: seq<Act>, k: nat)
    requires k < |acts|
  {
    Outcome(r, Turns(r, p, acts, k), acts[k]).0
  }

  predicate AllServed(r: Rules, p: Player, acts: seq<Act>) {
    forall k :: 0 <= k < |acts| ==> Served(r, p, acts, k)
  }

  function ActOf(e: Event, u: Uuid): seq<Act> {
    match e
    case Position(v, at, ms, claims) => if u == v then [Packet(at, ms, claims)] else []
    case HandIn(v, ms) => if u == v then [HandedIn(ms)] else []
    case Forget(v, ms) => if u == v then [Forgotten(ms)] else []
    case Restore(v, at, ms) => if u == v then [Restored(at, ms)] else []
    case Sweep(ms, spared) => [Swept(ms, u in spared)]
  }

  function ActsOf(es: seq<Event>, u: Uuid): seq<Act> {
    if es == [] then [] else ActsOf(es[..|es| - 1], u) + ActOf(es[|es| - 1], u)
  }

  function PlayerIn(g: Gate, u: Uuid): Player { Player(Found(g.last, u), Found(g.seen, u)) }

  lemma {:induction false} TurnsOfPrefix(r: Rules, p: Player, acts: seq<Act>, more: seq<Act>, k: nat)
    requires k <= |acts|
    ensures Turns(r, p, acts + more, k) == Turns(r, p, acts, k)
  {
    if k > 0 {
      TurnsOfPrefix(r, p, acts, more, k - 1);
    }
  }

  lemma AppliedToOne(r: Rules, g: Gate, e: Event, u: Uuid)
    ensures var own := ActOf(e, u);
            PlayerIn(Applied(r, g, e), u) == if own == [] then PlayerIn(g, u) else Outcome(r, PlayerIn(g, u), own[0]).1
  {
  }

  /**
   Players do not share margin: baseline and stamp of a player are the run of the acts that concern it, its own packets
   and the sweeps.
   */
  lemma {:induction false} PlayersAreIndependent(r: Rules, es: seq<Event>, u: Uuid)
    ensures PlayerIn(AfterAll(r, es), u) == Turns(r, NOBODY, ActsOf(es, u), |ActsOf(es, u)|)
  {
    if es != [] {
      var before, e := es[..|es| - 1], es[|es| - 1];
      PlayersAreIndependent(r, before, u);
      AppliedToOne(r, AfterAll(r, before), e, u);
      TurnsOfPrefix(r, NOBODY, ActsOf(before, u), ActOf(e, u), |ActsOf(before, u)|);
      if ActOf(e, u) == [] {
        assert ActsOf(es, u) == ActsOf(before, u);
      }
    }
  }

  /** So is the verdict on each packet. */
  lemma VerdictsAreIndependent(r: Rules, es: seq<Event>, e: Event)
    requires e.Position?
    ensures var acts := ActsOf(es + [e], e.uuid); var k := |acts| - 1;
            && k >= 0 && acts[k] == Packet(e.at, e.ms, e.claims)
            && Served(r, NOBODY, acts, k) == Verdict(r, Found(AfterAll(r, es).last, e.uuid), e.at, e.ms).0
  {
    assert (es + [e])[..|es|] == es;
    var acts := ActsOf(es, e.uuid);
    PlayersAreIndependent(r, es, e.uuid);
    TurnsOfPrefix(r, NOBODY, acts, ActOf(e, e.uuid), |acts|);
  }

  /** In every run, whatever happens and the clock reads, every budget stays between nothing and the cap. */
  lemma {:induction false} BudgetsOverRuns(r: Rules, es: seq<Event>)
    requires Sane(r)
    ensures forall u :: u in AfterAll(r, es).last ==> Within(r, AfterAll(r, es).last[u])
  {
    CapIsPositive(r);
    if es != [] {
      var g, e := AfterAll(r, es[..|es| - 1]), es[|es| - 1];
      BudgetsOverRuns(r, es[..|es| - 1]);
      if e.Position? && e.uuid in g.last {
        JudgeKeepsWithin(r, g.last[e.uuid], e.at, e.ms);
      }
    }
  }

  ghost predicate Fit(r: Rules, p: Player) { p.base.Some? ==> Within(r, p.base.value) }

  lemma {:induction false} TurnsStayFit(r: Rules, p: Player, acts: seq<Act>, k: nat)
    requires Sane(r) && Fit(r, p) && k <= |acts|
    ensures Fit(r, Turns(r, p, acts, k))
  {
    CapIsPositive(r);
    if k > 0 {
      TurnsStayFit(r, p, acts, k - 1);
      var q, a := Turns(r, p, acts, k - 1), acts[k - 1];
      if a.Packet? && q.base.Some? {
        JudgeKeepsWithin(r, q.base.value, a.at, a.ms);
      }
    }
  }

  // ------------------------------------------------------------------------------------------------
  // When a baseline is dropped
  // ------------------------------------------------------------------------------------------------

  /** The place and time of the last packet that was accepted, or restoration, whether it is still known or not. */
  function Stood(r: Rules, p: Player, acts: seq<Act>, k: nat): Option<Stamp>
    requires k <= |acts|
  {
    if k == 0 then if p.base.None? then None else Some(Stamp(p.base.value.at, p.base.value.tsMs))
    else if Sets(r, p, acts, k - 1) then Some(Stamp(acts[k - 1].at, acts[k - 1].ms))
    else Stood(r, p, acts, k - 1)
  }

  /** The k-th act moves the baseline or makes one. */
  predicate Sets(r: Rules, p: Player, acts: seq<Act>, k: nat)
    requires k < |acts|
  {
    || (acts[k].Packet? && Served(r, p, acts, k))
    || (acts[k].Restored? && Turns(r, p, acts, k).seen.None?)
  }

  /** The k-th act takes the baseline away, if there is one. */
  predicate Drops(r: Rules, p: Player, acts: seq<Act>, k: nat)
    requires k < |acts|
  {
    || acts[k].Forgotten?
    || (acts[k].Swept? && Expired(r, Turns(r, p, acts, k), acts[k].ms) && !acts[k].spared)
  }

  /** A baseline was taken away since the player last stood anywhere. */
  ghost predicate Dropped(r: Rules, p: Player, acts: seq<Act>, k: nat)
    requires k <= |acts|
  {
    exists m :: 0 <= m < k && Drops(r, p, acts, m) && NothingSet(r, p, acts, m, k)
  }

  predicate NothingSet(r: Rules, p: Player, acts: seq<Act>, m: nat, k: nat)
    requires m <= k <= |acts|
  {
    forall n :: m <= n < k ==> !Sets(r, p, acts, n)
  }

  lemma DroppedNext(r: Rules, p: Player, acts: seq<Act>, k: nat)
    requires k < |acts|
    ensures Dropped(r, p, acts, k + 1) <==>
            !Sets(r, p, acts, k) && (Drops(r, p, acts, k) || Dropped(r, p, acts, k))
  {
    if !Sets(r, p, acts, k) {
      if Drops(r, p, acts, k) {
        assert NothingSet(r, p, acts, k, k + 1);
      }
      if m :| 0 <= m < k && Drops(r, p, acts, m) && NothingSet(r, p, acts, m, k) {
        assert NothingSet(r, p, acts, m, k + 1);
      }
      if m :| 0 <= m < k + 1 && Drops(r, p, acts, m) && NothingSet(r, p, acts, m, k + 1) {
        assert m < k ==> NothingSet(r, p, acts, m, k);
      }
    }
  }

  /** A player who stood somewhere has a baseline exactly if it was not dropped since, and it is where it stood. */
  lemma {:induction false} BaseIffNotDropped(r: Rules, p: Player, acts: seq<Act>, k: nat)
    requires k <= |acts|
    ensures var base, stood := Turns(r, p, acts, k).base, Stood(r, p, acts, k);
            && (base.Some? <==> stood.Some? && !Dropped(r, p, acts, k))
            && (base.Some? ==> stood == Some(Stamp(base.value.at, base.value.tsMs)))
  {
    if k > 0 {
      BaseIffNotDropped(r, p, acts, k - 1);
      DroppedNext(r, p, acts, k - 1);
    }
  }

  /**
   A step longer than the cap, measured from where the player last stood, is accepted if and only if the zone has
   dropped the baseline in between.
   */
  lemma BeyondCapIff(r: Rules, p: Player, acts: seq<Act>, k: nat)
    requires Sane(r) && Fit(r, p) && k < |acts| && acts[k].Packet?
    requires Stood(r, p, acts, k).Some? && r.metric(Stood(r, p, acts, k).value.at, acts[k].at) > Cap(r)
    ensures Served(r, p, acts, k) <==> Dropped(r, p, acts, k)
  {
    BaseIffNotDropped(r, p, acts, k);
    TurnsStayFit(r, p, acts, k);
    var base := Turns(r, p, acts, k).base;
    if base.Some? {
      JudgeKeepsWithin(r, base.value, acts[k].at, acts[k].ms);
    }
  }

  /** The zone claims every packet, and nobody hands the player in. */
  predicate Settled(acts: seq<Act>) {
    forall k :: 0 <= k < |acts| ==> !acts[k].HandedIn? && (acts[k].Packet? ==> acts[k].claims)
  }

  predicate InStep(p: Player) { p.base.Some? ==> p.seen == Some(p.base.value.tsMs) }

  predicate Begins(p: Player) { InStep(p) && (p.base.None? ==> p.seen.None?) }

  /** Then the stamp of activity is the time at which the player last stood, and a baseline is never without one. */
  lemma {:induction false} StampIsStanding(r: Rules, p: Player, acts: seq<Act>, k: nat)
    requires Settled(acts) && Begins(p) && k <= |acts|
    ensures var q, stood := Turns(r, p, acts, k), Stood(r, p, acts, k);
            && InStep(q) && (q.seen.Some? ==> stood.Some? && q.seen.value == stood.value.ms)
  {
    if k > 0 {
      StampIsStanding(r, p, acts, k - 1);
    }
  }

  /** So a sweep drops a baseline if and only if it is older than the lease, and the world does not own the entity. */
  lemma SweepDropsIff(r: Rules, p: Player, acts: seq<Act>, k: nat)
    requires Settled(acts) && Begins(p) && k < |acts| && acts[k].Swept?
    requires Turns(r, p, acts, k).base.Some?
    ensures Turns(r, p, acts, k + 1).base.None? <==>
            !acts[k].spared && Elapsed(acts[k].ms, Turns(r, p, acts, k).base.value.tsMs) > r.lease
  {
    StampIsStanding(r, p, acts, k);
  }

  /** An erasure, or a sweep more than a lease after the player stood there. */
  predicate DropsFrom(r: Rules, stood: Stamp, a: Act) {
    a.Forgotten? || (a.Swept? && !a.spared && Elapsed(a.ms, stood.ms) > r.lease)
  }

  ghost predicate DroppedFrom(r: Rules, p: Player, acts: seq<Act>, k: nat, stood: Stamp)
    requires k <= |acts|
  {
    exists m :: 0 <= m < k && DropsFrom(r, stood, acts[m]) && NothingSet(r, p, acts, m, k)
  }

  lemma {:induction false} StoodSince(r: Rules, p: Player, acts: seq<Act>, m: nat, k: nat)
    requires m <= k <= |acts| && NothingSet(r, p, acts, m, k)
    ensures Stood(r, p, acts, k) == Stood(r, p, acts, m)
  {
    if m < k {
      StoodSince(r, p, acts, m, k - 1);
    }
  }

  lemma DroppedIff(r: Rules, p: Player, acts: seq<Act>, k: nat, stood: Stamp)
    requires Settled(acts) && Begins(p) && k <= |acts|
    requires Stood(r, p, acts, k) == Some(stood)
    ensures Dropped(r, p, acts, k) <==> DroppedFrom(r, p, acts, k, stood)
  {
    if m :| 0 <= m < k && Drops(r, p, acts, m) && NothingSet(r, p, acts, m, k) {
      StoodSince(r, p, acts, m, k);
      StampIsStanding(r, p, acts, m);
      assert DropsFrom(r, stood, acts[m]);
    }
    if m :| 0 <= m < k && DropsFrom(r, stood, acts[m]) && NothingSet(r, p, acts, m, k) {
      StoodSince(r, p, acts, m, k);
      StampIsStanding(r, p, acts, m);
      BaseIffNotDropped(r, p, acts, m);
      if !Drops(r, p, acts, m) {
        var n :| 0 <= n < m && Drops(r, p, acts, n) && NothingSet(r, p, acts, n, m);
        assert NothingSet(r, p, acts, n, k);
      }
    }
  }

  /**
   For a settled player: a step longer than the cap is accepted if and only if, since the packet accepted last, the
   entity was erased or a sweep came more than a lease after that packet.
   */
  lemma JumpAcceptedIff(r: Rules, p: Player, acts: seq<Act>, k: nat)
    requires Sane(r) && Fit(r, p) && k < |acts| && acts[k].Packet?
    requires Settled(acts) && Begins(p)
    requires Stood(r, p, acts, k).Some? && r.metric(Stood(r, p, acts, k).value.at, acts[k].at) > Cap(r)
    ensures Served(r, p, acts, k) <==> DroppedFrom(r, p, acts, k, Stood(r, p, acts, k).value)
  {
    BeyondCapIff(r, p, acts, k);
    DroppedIff(r, p, acts, k, Stood(r, p, acts, k).value);
  }

  /**
   The input: wait for the lease and go anywhere at all. The packet is rejected while the baseline is there, however
   often it is sent, and accepted after the sweep a millisecond later.
   */
  lemma WaitAndJump(r: Rules, here: Point, there: Point)
    requires Sane(r) && r.metric(here, there) > Cap(r) && r.lease < 0xffff_ffff_ffff_ffff
    ensures var acts := [Packet(here, 0, true), Packet(there, r.lease, true), Swept(r.lease + 1, false),
                         Packet(there, r.lease + 1, true)];
            Served(r, NOBODY, acts, 0) && !Served(r, NOBODY, acts, 1) && Served(r, NOBODY, acts, 3)
  {
    var acts := [Packet(here, 0, true), Packet(there, r.lease, true), Swept(r.lease + 1, false),
                 Packet(there, r.lease + 1, true)];
    assert Turns(r, NOBODY, acts, 0) == NOBODY;
    var first := Turns(r, NOBODY, acts, 1);
    assert first == Player(Some(Last(here, 0, 0.0)), Some(0));
    CapIsPositive(r);
    JudgeKeepsWithin(r, first.base.value, there, r.lease);
    assert Turns(r, NOBODY, acts, 2).seen == Some(0);
    assert Elapsed(r.lease + 1, 0) == r.lease + 1;
    assert Turns(r, NOBODY, acts, 3) == NOBODY;
  }

  /** A player who is handed in is not swept for a lease from then on. */
  lemma HandInDefersSweep(r: Rules, p: Player, handed: nat, now: nat, spared: bool)
    requires handed <= now <= handed + r.lease && now < 0x1_0000_0000_0000_0000
    ensures var q := Outcome(r, p, HandedIn(handed)).1;
            q.base == p.base && Outcome(r, q, Swept(now, spared)).1 == q
  {
  }

  /** A player who was erased has no baseline, and as long as it is stamped nothing brings the old one back. */
  lemma ErasedIsNotRestored(r: Rules, p: Player, ms: nat, at: Point, later: nat)
    requires p.seen.Some?
    ensures var q := Outcome(r, p, Forgotten(ms)).1;
            q.base.None? && Outcome(r, q, Restored(at, later)).1 == q
  {
  }

  /** A restoration places whom the zone has not heard of, and leaves everybody else alone. */
  lemma RestoredIff(r: Rules, p: Player, at: Point, ms: nat)
    ensures Outcome(r, p, Restored(at, ms)).1 ==
            if p.seen.None? then Player(Some(Last(at, ms, 0.0)), Some(ms)) else p
  {
  }

  /** A draining zone does not stamp: it sweeps a player whose packet it has accepted a moment ago. */
  lemma DrainingSweepsTheActive(r: Rules, here: Point)
    requires Sane(r) && r.metric(here, here) == 0.0 && r.lease < 0xffff_ffff_ffff_ffff
    ensures var acts := [Packet(here, 0, true), Packet(here, r.lease + 1, false), Swept(r.lease + 1, false)];
            && Turns(r, NOBODY, acts, 2).base.Some? && Turns(r, NOBODY, acts, 2).base.value.tsMs == r.lease + 1
            && Turns(r, NOBODY, acts, 3) == NOBODY
  {
    var acts := [Packet(here, 0, true), Packet(here, r.lease + 1, false), Swept(r.lease + 1, false)];
    assert Turns(r, NOBODY, acts, 0) == NOBODY;
    assert Turns(r, NOBODY, acts, 1) == Player(Some(Last(here, 0, 0.0)), Some(0));
    assert Elapsed(r.lease + 1, 0) == r.lease + 1;
    GainIsPositive(r, r.lease + 1);
    CapIsPositive(r);
    assert Turns(r, NOBODY, acts, 2).seen == Some(0);
  }

  // ------------------------------------------------------------------------------------------------
  // Stretches between two drops
  // ------------------------------------------------------------------------------------------------

  /** The packets among the acts from `i` up to `j`. */
  function PacketsIn(acts: seq<Act>, i: nat, j: nat): seq<Stamp>
    requires i <= j <= |acts|
    decreases j
  {
    if i == j then []
    else PacketsIn(acts, i, j - 1) + if acts[j - 1].Packet? then [Stamp(acts[j - 1].at, acts[j - 1].ms)] else []
  }

  /** The k-th act neither takes the baseline away nor replaces it by a restored one. */
  predicate Leaves(r: Rules, p: Player, acts: seq<Act>, k: nat)
    requires k < |acts|
  {
    !Drops(r, p, acts, k) && !(acts[k].Restored? && Turns(r, p, acts, k).seen.None?)
  }

  predicate Stretch(r: Rules, p: Player, acts: seq<Act>, i: nat, j: nat)
    requires i <= j <= |acts|
  {
    forall k :: i <= k < j ==> Leaves(r, p, acts, k)
  }

  /** Over a stretch the baseline is the run of the packets in it. */
  lemma {:induction false} StretchIsRun(r: Rules, p: Player, acts: seq<Act>, i: nat, j: nat, l: Last)
    requires i <= j <= |acts| && Stretch(r, p, acts, i, j) && Turns(r, p, acts, i).base == Some(l)
    ensures var ps := PacketsIn(acts, i, j); Turns(r, p, acts, j).base == Some(Run(r, l, ps, |ps|))
    decreases j
  {
    if i < j {
      var ps, a := PacketsIn(acts, i, j - 1), acts[j - 1];
      StretchIsRun(r, p, acts, i, j - 1, l);
      assert Leaves(r, p, acts, j - 1);
      if a.Packet? {
        RunOfPrefix(r, l, ps, [Stamp(a.at, a.ms)], |ps|);
      } else {
        assert PacketsIn(acts, i, j) == ps;
      }
    }
  }

  predicate ServedIn(r: Rules, p: Player, acts: seq<Act>, i: nat, j: nat)
    requires i <= j <= |acts|
  {
    forall k :: i <= k < j ==> Served(r, p, acts, k)
  }

  /** And its packets are accepted if and only if they are accepted in the run. */
  lemma {:induction false} StretchVerdicts(r: Rules, p: Player, acts: seq<Act>, i: nat, j: nat, l: Last)
    requires i <= j <= |acts| && Stretch(r, p, acts, i, j) && Turns(r, p, acts, i).base == Some(l)
    ensures var ps := PacketsIn(acts, i, j); AllAccepted(r, l, ps, |ps|) <==> ServedIn(r, p, acts, i, j)
    decreases j
  {
    if i < j {
      var ps, a := PacketsIn(acts, i, j - 1), acts[j - 1];
      StretchIsRun(r, p, acts, i, j - 1, l);
      StretchVerdicts(r, p, acts, i, j - 1, l);
      assert ServedIn(r, p, acts, i, j) <==> ServedIn(r, p, acts, i, j - 1) && Served(r, p, acts, j - 1);
      if a.Packet? {
        AcceptedMore(r, l, ps, Stamp(a.at, a.ms));
      } else {
        assert PacketsIn(acts, i, j) == ps;
      }
    }
  }

  lemma AcceptedMore(r: Rules, l: Last, ps: seq<Stamp>, s: Stamp)
    ensures AllAccepted(r, l, ps + [s], |ps| + 1) <==>
            AllAccepted(r, l, ps, |ps|) && Judge(r, Run(r, l, ps, |ps|), s.at, s.ms).0
  {
    var more := ps + [s];
    RunOfPrefix(r, l, ps, [s], |ps|);
    forall k | 0 <= k < |ps| ensures Accepts(r, l, more, k) == Accepts(r, l, ps, k) {
      RunOfPrefix(r, l, ps, [s], k);
    }
    assert Accepts(r, l, more, |ps|) == Judge(r, Run(r, l, ps, |ps|), s.at, s.ms).0;
  }

  /** The i-th act makes a baseline where there is none, with an empty budget. */
  predicate Makes(r: Rules, p: Player, acts: seq<Act>, i: nat)
    requires i < |acts|
  {
    || (acts[i].Packet? && Turns(r, p, acts, i).base.None?)
    || (acts[i].Restored? && Turns(r, p, acts, i).seen.None?)
  }

  predicate Timely(acts: seq<Act>) {
    && (forall i, j :: 0 <= i <= j < |acts| ==> acts[i].ms <= acts[j].ms)
    && (forall i :: 0 <= i < |acts| ==> acts[i].ms < 0x1_0000_0000_0000_0000)
  }

  lemma {:induction false} PacketsFrom(acts: seq<Act>, i: nat, j: nat, n: nat) returns (k: nat)
    requires i <= j <= |acts| && n < |PacketsIn(acts, i, j)|
    ensures i <= k < j && acts[k].Packet? && PacketsIn(acts, i, j)[n] == Stamp(acts[k].at, acts[k].ms)
    ensures n == |PacketsIn(acts, i, k)|
    decreases j
  {
    if n < |PacketsIn(acts, i, j - 1)| {
      k := PacketsFrom(acts, i, j - 1, n);
    } else {
      k := j - 1;
    }
  }

  lemma {:induction false} PacketsGrow(acts: seq<Act>, i: nat, j: nat, k: nat)
    requires i <= j <= k <= |acts|
    ensures PacketsIn(acts, i, j) <= PacketsIn(acts, i, k)
    decreases k
  {
    if j < k {
      PacketsGrow(acts, i, j, k - 1);
    }
  }

  lemma PacketsInOrder(acts: seq<Act>, i: nat, j: nat, l: Last)
    requires Timely(acts) && i <= j <= |acts| && l.tsMs < 0x1_0000_0000_0000_0000
    requires forall k :: i <= k < |acts| ==> l.tsMs <= acts[k].ms
    ensures InOrder(l, PacketsIn(acts, i, j))
  {
    var ps := PacketsIn(acts, i, j);
    forall a, b | 0 <= a <= b <= |ps| ensures Arrival(l, ps, a) <= Arrival(l, ps, b) {
      if 0 < a {
        var m := PacketsFrom(acts, i, j, a - 1);
        var n := PacketsFrom(acts, i, j, b - 1);
        if n < m {
          PacketsGrow(acts, i, n, m);
          assert PacketsIn(acts, i, n + 1) == PacketsIn(acts, i, n) + [ps[b - 1]];
          PacketsGrow(acts, i, n + 1, m);
        }
      } else if 0 < b {
        var n := PacketsFrom(acts, i, j, b - 1);
      }
    }
    if |ps| > 0 {
      var n := PacketsFrom(acts, i, j, |ps| - 1);
    }
  }

  /** Where the present baseline was made. */
  lemma {:induction false} MadeAt(r: Rules, acts: seq<Act>, k: nat) returns (i: nat)
    requires k <= |acts| && Turns(r, NOBODY, acts, k).base.Some?
    ensures i < k && Makes(r, NOBODY, acts, i) && Stretch(r, NOBODY, acts, i + 1, k)
  {
    var was := Turns(r, NOBODY, acts, k - 1);
    if Makes(r, NOBODY, acts, k - 1) {
      i := k - 1;
    } else {
      i := MadeAt(r, acts, k - 1);
      assert Leaves(r, NOBODY, acts, k - 1);
    }
  }

  /** Every stretch from the making of a baseline keeps to the allowances of its windows. */
  ghost predicate RunConforms(r: Rules, acts: seq<Act>) {
    forall i, j :: 0 <= i < j <= |acts| && Makes(r, NOBODY, acts, i) && Stretch(r, NOBODY, acts, i + 1, j) ==>
      StretchConforms(r, acts, i, j)
  }

  ghost predicate StretchConforms(r: Rules, acts: seq<Act>, i: nat, j: nat)
    requires i < j <= |acts| && (acts[i].Packet? || acts[i].Restored?)
  {
    var ps := PacketsIn(acts, i + 1, j);
    Conforms(r, Last(acts[i].at, acts[i].ms, 0.0), ps, |ps|)
  }

  lemma StretchConformsIff(r: Rules, acts: seq<Act>, i: nat, j: nat)
    requires Sane(r) && Timely(acts) && i < j <= |acts| && Makes(r, NOBODY, acts, i)
    requires Stretch(r, NOBODY, acts, i + 1, j)
    ensures StretchConforms(r, acts, i, j) <==> ServedIn(r, NOBODY, acts, i + 1, j)
  {
    var l := Last(acts[i].at, acts[i].ms, 0.0);
    assert Turns(r, NOBODY, acts, i + 1).base == Some(l);
    CapIsPositive(r);
    PacketsInOrder(acts, i + 1, j, l);
    StretchVerdicts(r, NOBODY, acts, i + 1, j, l);
    AcceptedIffConforming(r, l, PacketsIn(acts, i + 1, j));
  }

  /**
   Exactly what the zone lets through, sweeps and erasures included: every packet of a player is accepted if and only if
   every stretch between the making of a baseline and the next drop conforms, each starting with an empty budget.
   */
  lemma ServedIffConforming(r: Rules, acts: seq<Act>)
    requires Sane(r) && Timely(acts)
    ensures AllServed(r, NOBODY, acts) <==> RunConforms(r, acts)
  {
    if AllServed(r, NOBODY, acts) {
      forall i, j | 0 <= i < j <= |acts| && Makes(r, NOBODY, acts, i) && Stretch(r, NOBODY, acts, i + 1, j)
        ensures StretchConforms(r, acts, i, j)
      {
        StretchConformsIff(r, acts, i, j);
      }
    }
    if RunConforms(r, acts) {
      forall k | 0 <= k < |acts| ensures Served(r, NOBODY, acts, k) {
        if acts[k].Packet? && Turns(r, NOBODY, acts, k).base.Some? {
          var i := MadeAt(r, acts, k);
          assert Leaves(r, NOBODY, acts, k);
          assert Stretch(r, NOBODY, acts, i + 1, k + 1);
          StretchConformsIff(r, acts, i, k + 1);
        }
      }
    }
  }

  /** Over such a stretch of acceptances the way is no longer than what was earned since the baseline was made. */
  lemma ServedWayIsBounded(r: Rules, acts: seq<Act>, i: nat, j: nat)
    requires Sane(r) && Timely(acts) && i < j <= |acts| && Makes(r, NOBODY, acts, i)
    requires Stretch(r, NOBODY, acts, i + 1, j) && ServedIn(r, NOBODY, acts, i + 1, j)
    ensures var l, ps := Last(acts[i].at, acts[i].ms, 0.0), PacketsIn(acts, i + 1, j);
            Travelled(r, l, ps, |ps|) <= Gain(r, Arrival(l, ps, |ps|) - l.tsMs)
  {
    StretchConformsIff(r, acts, i, j);
    var l := Last(acts[i].at, acts[i].ms, 0.0);
    CapIsPositive(r);
    PacketsInOrder(acts, i + 1, j, l);
    AcceptedIffConforming(r, l, PacketsIn(acts, i + 1, j));
    StretchIsBounded(r, l, PacketsIn(acts, i + 1, j));
  }

  // ------------------------------------------------------------------------------------------------
  // Honest players
  // ------------------------------------------------------------------------------------------------

  /** The player sends nothing but packets, the zone claims them all, and it sweeps whenever it likes. */
  predicate OnlySwept(acts: seq<Act>) {
    forall k :: 0 <= k < |acts| ==> acts[k].Swept? || (acts[k].Packet? && acts[k].claims)
  }

  ghost predicate HonestRun(r: Rules, l: Last, acts: seq<Act>, sent: seq<real>, gap: real, jitter: real) {
    && OnlySwept(acts) && Timely(acts) && (forall k :: 0 <= k < |acts| ==> l.tsMs <= acts[k].ms)
    && Honest(r, l, PacketsIn(acts, 0, |acts|), sent, gap, jitter)
  }

  function Known(l: Last): Player { Player(Some(l), Some(l.tsMs)) }

  /** Every player who is honest with this gap and jitter is always let through, whenever the zone sweeps. */
  ghost predicate ServesTheHonest(r: Rules, gap: real, jitter: real) {
    forall l, acts, sent :: Within(r, l) && HonestRun(r, l, acts, sent, gap, jitter) ==> AllServed(r, Known(l), acts)
  }

  /** Two arrivals of an honest player in a row are no further apart than gap and jitter. */
  lemma HonestArrivals(r: Rules, l: Last, ps: seq<Stamp>, sent: seq<real>, gapMs: nat, jitterMs: nat, n: nat)
    requires Honest(r, l, ps, sent, gapMs as real / 1000.0, jitterMs as real / 1000.0) && n < |ps|
    ensures Arrival(l, ps, n) <= Arrival(l, ps, n + 1) <= Arrival(l, ps, n) + gapMs + jitterMs
  {
    assert HonestStep(r, l, ps, sent, gapMs as real / 1000.0, n + 1);
    var a, b := Arrival(l, ps, n), Arrival(l, ps, n + 1);
    assert a as real / 1000.0 == Delay(l, ps, sent, n) + sent[n];
    assert b as real / 1000.0 == Delay(l, ps, sent, n + 1) + sent[n + 1];
    assert b as real / 1000.0 - a as real / 1000.0 <= gapMs as real / 1000.0 + jitterMs as real / 1000.0;
    assert b as real <= (a + gapMs + jitterMs) as real;
  }

  /** The packet that comes next is the k-th act or a later one. */
  lemma NextPacket(acts: seq<Act>, k: nat) returns (m: nat)
    requires k <= |acts| && |PacketsIn(acts, 0, k)| < |PacketsIn(acts, 0, |acts|)|
    ensures k <= m < |acts| && acts[m].Packet?
    ensures PacketsIn(acts, 0, |acts|)[|PacketsIn(acts, 0, k)|] == Stamp(acts[m].at, acts[m].ms)
    ensures k < |acts| && acts[k].Packet? ==> m == k
  {
    m := PacketsFrom(acts, 0, |acts|, |PacketsIn(acts, 0, k)|);
    if m < k {
      PacketsGrow(acts, 0, m + 1, k);
    } else if m > k && acts[k].Packet? {
      PacketsGrow(acts, 0, k + 1, m);
    }
  }

  /** While another packet is to come, no sweep has dropped an honest player with gap and jitter within the lease. */
  lemma {:induction false} KeptWhileSending(
    r: Rules, l: Last, acts: seq<Act>, sent: seq<real>, gapMs: nat, jitterMs: nat, k: nat)
    requires Sane(r) && Within(r, l) && gapMs + jitterMs <= r.lease
    requires HonestRun(r, l, acts, sent, gapMs as real / 1000.0, jitterMs as real / 1000.0)
    requires k <= |acts| && |PacketsIn(acts, 0, k)| < |PacketsIn(acts, 0, |acts|)|
    requires var ps := PacketsIn(acts, 0, |acts|); AllAccepted(r, l, ps, |ps|)
    ensures Stretch(r, Known(l), acts, 0, k)
    ensures Turns(r, Known(l), acts, k).seen == Some(Arrival(l, PacketsIn(acts, 0, |acts|), |PacketsIn(acts, 0, k)|))
  {
    if k > 0 {
      PacketsGrow(acts, 0, k - 1, k);
      KeptWhileSending(r, l, acts, sent, gapMs, jitterMs, k - 1);
      KeptOnce(r, l, acts, sent, gapMs, jitterMs, k - 1);
    }
  }

  lemma KeptOnce(r: Rules, l: Last, acts: seq<Act>, sent: seq<real>, gapMs: nat, jitterMs: nat, k: nat)
    requires gapMs + jitterMs <= r.lease && k < |acts|
    requires HonestRun(r, l, acts, sent, gapMs as real / 1000.0, jitterMs as real / 1000.0)
    requires |PacketsIn(acts, 0, k)| < |PacketsIn(acts, 0, |acts|)| && Stretch(r, Known(l), acts, 0, k)
    requires var ps := PacketsIn(acts, 0, |acts|);
             AllAccepted(r, l, ps, |ps|) &&
             Turns(r, Known(l), acts, k).seen == Some(Arrival(l, ps, |PacketsIn(acts, 0, k)|))
    ensures Leaves(r, Known(l), acts, k) && |PacketsIn(acts, 0, k + 1)| <= |PacketsIn(acts, 0, |acts|)|
    ensures Turns(r, Known(l), acts, k + 1).seen ==
            Some(Arrival(l, PacketsIn(acts, 0, |acts|), |PacketsIn(acts, 0, k + 1)|))
  {
    var ps, n := PacketsIn(acts, 0, |acts|), |PacketsIn(acts, 0, k)|;
    var m := NextPacket(acts, k);
    if acts[k].Packet? {
      ServedNext(r, l, acts, k);
    } else {
      assert acts[k].Swept?;
      HonestArrivals(r, l, ps, sent, gapMs, jitterMs, n);
      SentBefore(l, acts, k);
      NotExpired(r, Turns(r, Known(l), acts, k), Arrival(l, ps, n), acts[k].ms, acts[m].ms);
    }
  }

  /** What has arrived so far has arrived by now. */
  lemma SentBefore(l: Last, acts: seq<Act>, k: nat)
    requires Timely(acts) && k < |acts| && l.tsMs <= acts[k].ms
    ensures |PacketsIn(acts, 0, k)| <= |PacketsIn(acts, 0, |acts|)|
    ensures Arrival(l, PacketsIn(acts, 0, |acts|), |PacketsIn(acts, 0, k)|) <= acts[k].ms
  {
    PacketsGrow(acts, 0, k, |acts|);
    var n := |PacketsIn(acts, 0, k)|;
    if n > 0 {
      var m := PacketsFrom(acts, 0, k, n - 1);
    }
  }

  lemma NotExpired(r: Rules, p: Player, stamp: nat, now: nat, next: nat)
    requires p.seen == Some(stamp) && stamp <= now <= next <= stamp + r.lease && next < 0x1_0000_0000_0000_0000
    ensures !Expired(r, p, now)
  {
  }

  /** The next packet of a stretch is accepted if it is accepted in the run. */
  lemma ServedNext(r: Rules, l: Last, acts: seq<Act>, k: nat)
    requires k < |acts| && acts[k].Packet? && Stretch(r, Known(l), acts, 0, k)
    requires var ps := PacketsIn(acts, 0, |acts|); AllAccepted(r, l, ps, |ps|)
    ensures Served(r, Known(l), acts, k)
  {
    var ps, before := PacketsIn(acts, 0, |acts|), PacketsIn(acts, 0, k);
    PacketsGrow(acts, 0, k, |acts|);
    PacketsGrow(acts, 0, k + 1, |acts|);
    StretchIsRun(r, Known(l), acts, 0, k, l);
    RunOfPrefix(r, l, before, ps[|before|..], |before|);
    assert ps == before + ps[|before|..];
    assert Accepts(r, l, ps, |before|);
  }

  lemma KeptIsServed(r: Rules, l: Last, acts: seq<Act>, sent: seq<real>, gapMs: nat, jitterMs: nat)
    requires Sane(r) && Within(r, l) && gapMs + jitterMs <= r.lease && Gain(r, gapMs + jitterMs) <= Cap(r)
    requires HonestRun(r, l, acts, sent, gapMs as real / 1000.0, jitterMs as real / 1000.0)
    ensures AllServed(r, Known(l), acts)
  {
    var gap, jitter := gapMs as real / 1000.0, jitterMs as real / 1000.0;
    assert (gapMs + jitterMs) as real / 1000.0 == jitter + gap;
    HonestIsAccepted(r, l, PacketsIn(acts, 0, |acts|), sent, gap, jitter);
    forall k | 0 <= k < |acts| ensures Served(r, Known(l), acts, k) {
      if acts[k].Packet? {
        PacketsGrow(acts, 0, k + 1, |acts|);
        KeptWhileSending(r, l, acts, sent, gapMs, jitterMs, k);
        ServedNext(r, l, acts, k);
      }
    }
  }

  /** Every step is within what is earned between the two arrivals, and within the cap. */
  ghost predicate Paced(r: Rules, l: Last, ps: seq<Stamp>) {
    forall n :: 0 <= n < |ps| ==> PacedStep(r, l, ps, n)
  }

  predicate PacedStep(r: Rules, l: Last, ps: seq<Stamp>, n: nat)
    requires n < |ps|
  {
    var step := r.metric(Place(l, ps, n), Place(l, ps, n + 1));
    step <= Gain(r, Arrival(l, ps, n + 1) - Arrival(l, ps, n)) && step <= Cap(r)
  }

  /** Such a player needs no saved-up margin, so that it does not matter when the zone forgets it. */
  lemma {:induction false} PacedIsServed(r: Rules, l: Last, acts: seq<Act>, k: nat)
    requires Sane(r) && Within(r, l) && OnlySwept(acts) && k <= |acts|
    requires InOrder(l, PacketsIn(acts, 0, |acts|)) && Paced(r, l, PacketsIn(acts, 0, |acts|))
    ensures ServedIn(r, Known(l), acts, 0, k)
    ensures var base, n := Turns(r, Known(l), acts, k).base, |PacketsIn(acts, 0, k)|;
            && n <= |PacketsIn(acts, 0, |acts|)|
            && (base.Some? ==> StandsAt(r, l, PacketsIn(acts, 0, |acts|), n, base.value))
  {
    PacketsGrow(acts, 0, k, |acts|);
    if k > 0 {
      PacedIsServed(r, l, acts, k - 1);
      if acts[k - 1].Packet? {
        var ps, n := PacketsIn(acts, 0, |acts|), |PacketsIn(acts, 0, k - 1)|;
        PacketsGrow(acts, 0, k - 1, k);
        assert ps[n] == Stamp(acts[k - 1].at, acts[k - 1].ms);
        PacedVerdict(r, l, ps, n, Turns(r, Known(l), acts, k - 1).base);
      }
    }
  }

  ghost predicate StandsAt(r: Rules, l: Last, ps: seq<Stamp>, n: nat, b: Last)
    requires n <= |ps|
  {
    Within(r, b) && b.at == Place(l, ps, n) && b.tsMs == Arrival(l, ps, n)
  }

  lemma PacedVerdict(r: Rules, l: Last, ps: seq<Stamp>, n: nat, base: Option<Last>)
    requires Sane(r) && InOrder(l, ps) && n < |ps| && PacedStep(r, l, ps, n)
    requires base.Some? ==> StandsAt(r, l, ps, n, base.value)
    ensures var (ok, b) := Verdict(r, base, ps[n].at, ps[n].ms); ok && StandsAt(r, l, ps, n + 1, b)
  {
    CapIsPositive(r);
    ArrivalsBounded(l, ps, n, n + 1);
    if base.Some? {
      assert Elapsed(ps[n].ms, base.value.tsMs) == Arrival(l, ps, n + 1) - Arrival(l, ps, n);
      JudgeKeepsWithin(r, base.value, ps[n].at, ps[n].ms);
    }
  }

  /** Without jitter, or without speed, an honest player is paced. */
  lemma HonestIsPaced(r: Rules, l: Last, ps: seq<Stamp>, sent: seq<real>, gapMs: nat, jitterMs: nat)
    requires Sane(r) && Honest(r, l, ps, sent, gapMs as real / 1000.0, jitterMs as real / 1000.0)
    requires (jitterMs == 0 || r.speed == 0.0) && Gain(r, gapMs + jitterMs) <= Cap(r)
    ensures Paced(r, l, ps)
  {
    forall n | 0 <= n < |ps| ensures PacedStep(r, l, ps, n) {
      assert HonestStep(r, l, ps, sent, gapMs as real / 1000.0, n + 1);
      HonestArrivals(r, l, ps, sent, gapMs, jitterMs, n);
      if r.speed == 0.0 {
        CapIsPositive(r);
        assert Gain(r, Arrival(l, ps, n + 1) - Arrival(l, ps, n)) == 0.0;
      } else {
        PunctualStep(r, l, ps, sent, gapMs, n);
      }
    }
  }

  lemma PunctualStep(r: Rules, l: Last, ps: seq<Stamp>, sent: seq<real>, gapMs: nat, n: nat)
    requires Sane(r) && Honest(r, l, ps, sent, gapMs as real / 1000.0, 0.0) && n < |ps| && Gain(r, gapMs) <= Cap(r)
    ensures PacedStep(r, l, ps, n)
  {
    assert HonestStep(r, l, ps, sent, gapMs as real / 1000.0, n + 1);
    var a, b := Arrival(l, ps, n), Arrival(l, ps, n + 1);
    assert Delay(l, ps, sent, n) == Delay(l, ps, sent, n + 1);
    assert sent[n + 1] - sent[n] == b as real / 1000.0 - a as real / 1000.0;
    assert (b - a) as real / 1000.0 == b as real / 1000.0 - a as real / 1000.0;
    Scaled(r.speed, sent[n + 1] - sent[n], gapMs as real / 1000.0);
  }

  // ------------------------------------------------------------------------------------------------
  // Honest players who are rejected
  // ------------------------------------------------------------------------------------------------

  function AsActs(ps: seq<Stamp>): seq<Act> {
    seq(|ps|, k requires 0 <= k < |ps| => Packet(ps[k].at, ps[k].ms, true))
  }

  lemma {:induction false} PacketsOfActs(ps: seq<Stamp>, k: nat)
    requires k <= |ps|
    ensures PacketsIn(AsActs(ps), 0, k) == ps[..k]
  {
    if k > 0 {
      PacketsOfActs(ps, k - 1);
    }
  }

  /** Without a sweep the verdicts are those of the run, so an honest player the cap does not cover can be rejected. */
  lemma UncoveredIsNotServed(r: Rules, gapMs: nat, jitterMs: nat)
    requires Sane(r) && MeasuresTheAxis(r) && 0 < gapMs && gapMs + jitterMs < 0x1_0000_0000_0000_0000
    requires Gain(r, gapMs + jitterMs) > Cap(r)
    ensures !ServesTheHonest(r, gapMs as real / 1000.0, jitterMs as real / 1000.0)
  {
    var l, ps := Last(Walker(r, 0), 0, 0.0), Bunch(r, gapMs, jitterMs);
    var acts := AsActs(ps);
    UncoveredHonestIsRejected(r, gapMs, jitterMs);
    CapIsPositive(r);
    PacketsOfActs(ps, |ps|);
    assert ps[..|ps|] == ps && Stretch(r, Known(l), acts, 0, |acts|);
    StretchVerdicts(r, Known(l), acts, 0, |acts|, l);
    assert HonestRun(r, l, acts, BunchSent(gapMs, jitterMs), gapMs as real / 1000.0, jitterMs as real / 1000.0);
  }

  /** A gap, a sweep, a packet as late as can be, and the next one a millisecond later but in time. */
  function Late(r: Rules, gapMs: nat, jitterMs: nat): seq<Act> {
    var now := gapMs + jitterMs;
    [Swept(now, false), Packet(Walker(r, gapMs), now, true), Packet(Walker(r, gapMs + 1), now, true)]
  }

  function LateSent(gapMs: nat): seq<real> { [0.0, gapMs as real / 1000.0, (gapMs + 1) as real / 1000.0] }

  lemma LatePackets(r: Rules, gapMs: nat, jitterMs: nat)
    ensures PacketsIn(Late(r, gapMs, jitterMs), 0, 3) ==
            [Stamp(Walker(r, gapMs), gapMs + jitterMs), Stamp(Walker(r, gapMs + 1), gapMs + jitterMs)]
  {
    var acts := Late(r, gapMs, jitterMs);
    assert PacketsIn(acts, 0, 1) == [];
    assert PacketsIn(acts, 0, 2) == [Stamp(Walker(r, gapMs), gapMs + jitterMs)];
  }

  lemma LateIsHonest(r: Rules, gapMs: nat, jitterMs: nat)
    requires Sane(r) && MeasuresTheAxis(r) && 0 < gapMs && 0 < jitterMs && gapMs + jitterMs < 0x1_0000_0000_0000_0000
    ensures HonestRun(r, Last(Walker(r, 0), 0, 0.0), Late(r, gapMs, jitterMs), LateSent(gapMs),
            gapMs as real / 1000.0, jitterMs as real / 1000.0)
  {
    var l, acts, sent := Last(Walker(r, 0), 0, 0.0), Late(r, gapMs, jitterMs), LateSent(gapMs);
    LatePackets(r, gapMs, jitterMs);
    var ps := PacketsIn(acts, 0, 3);
    WalkerStep(r, 0, gapMs);
    WalkerStep(r, gapMs, gapMs + 1);
    assert HonestStep(r, l, ps, sent, gapMs as real / 1000.0, 1);
    assert HonestStep(r, l, ps, sent, gapMs as real / 1000.0, 2);
    assert Delay(l, ps, sent, 0) == 0.0 && Delay(l, ps, sent, 1) == jitterMs as real / 1000.0;
    assert Delay(l, ps, sent, 2) == (jitterMs - 1) as real / 1000.0;
  }

  /**
   The input: an honest player who is dropped by a sweep starts again with an empty budget, and a packet that comes in
   time after one that was late is rejected.
   */
  lemma SweptHonestIsRejected(r: Rules, gapMs: nat, jitterMs: nat)
    requires Sane(r) && MeasuresTheAxis(r) && 0 < gapMs && 0 < jitterMs && gapMs + jitterMs < 0x1_0000_0000_0000_0000
    requires r.speed > 0.0 && gapMs + jitterMs > r.lease
    ensures !ServesTheHonest(r, gapMs as real / 1000.0, jitterMs as real / 1000.0)
  {
    var l, acts, now := Last(Walker(r, 0), 0, 0.0), Late(r, gapMs, jitterMs), gapMs + jitterMs;
    LateIsHonest(r, gapMs, jitterMs);
    CapIsPositive(r);
    assert Turns(r, Known(l), acts, 0) == Known(l) && Elapsed(now, 0) == now;
    assert Turns(r, Known(l), acts, 1) == NOBODY;
    assert Turns(r, Known(l), acts, 2).base == Some(Last(Walker(r, gapMs), now, 0.0));
    WalkerStep(r, gapMs, gapMs + 1);
    PositiveGain(r, 1);
    assert Gain(r, 0) == 0.0;
    assert !Served(r, Known(l), acts, 2);
  }

  /**
   No honest player is ever rejected, whenever the zone sweeps, if and only if the cap covers what is walked in the gap
   and the jitter together, and these are within the lease or there is no jitter or nothing moves.
   */
  lemma HonestServedIff(r: Rules, gapMs: nat, jitterMs: nat)
    requires Sane(r) && MeasuresTheAxis(r) && 0 < gapMs && gapMs + jitterMs < 0x1_0000_0000_0000_0000
    ensures ServesTheHonest(r, gapMs as real / 1000.0, jitterMs as real / 1000.0) <==>
            && Gain(r, gapMs + jitterMs) <= Cap(r)
            && (gapMs + jitterMs <= r.lease || jitterMs == 0 || r.speed == 0.0)
  {
    var gap, jitter := gapMs as real / 1000.0, jitterMs as real / 1000.0;
    if Gain(r, gapMs + jitterMs) > Cap(r) {
      UncoveredIsNotServed(r, gapMs, jitterMs);
    } else if gapMs + jitterMs > r.lease && jitterMs > 0 && r.speed != 0.0 {
      SweptHonestIsRejected(r, gapMs, jitterMs);
    } else {
      forall l, acts, sent | Within(r, l) && HonestRun(r, l, acts, sent, gap, jitter)
        ensures AllServed(r, Known(l), acts)
      {
        if gapMs + jitterMs <= r.lease {
          KeptIsServed(r, l, acts, sent, gapMs, jitterMs);
        } else {
          HonestIsPaced(r, l, PacketsIn(acts, 0, |acts|), sent, gapMs, jitterMs);
          PacedIsServed(r, l, acts, |acts|);
        }
      }
    }
  }
}
