/**
 What a request of the handoff brings about: who has and leases the entity once the head has read it, and that every
 request is answered exactly once.
 */
module HandoffRuns {
  import opened Geometry
  import opened Roster
  import opened Handoff
  import opened HandoffProtocol

  /**
   Reading a request for a chunk that another zone covers releases the entity where it was and leases it where it is
   held already; reading any other changes nobody's part in it. No other entity is touched.
   */
  lemma RequestDecides(s: State, z: int, y: int, v: nat)
    requires z in s.zones && y in s.zones && s.zones[z].up != [] && s.zones[z].up[0].UpReassign?
    ensures var m, was, now := s.zones[z].up[0], FateOf(s.zones[y], v), FateOf(HeadReads(s, z).zones[y], v);
            var elsewhere := m.chunk in s.route && s.route[m.chunk] != z;
            if v != m.uuid || !elsewhere || was == Published then now == was
            else if y == z then now == Away
            else if y == s.route[m.chunk] && was == Unleased then now == Leased
            else now == was
  {
    FateAfterReading(s, z, y, v);
  }

  /** Reading a state on a covered chunk leases it to the zone that covers it, and changes nothing else for anybody. */
  lemma StateIsLeased(s: State, z: int, y: int, v: nat)
    requires z in s.zones && y in s.zones && s.zones[z].up != [] && s.zones[z].up[0].UpEntity?
    ensures var e, was, now := s.zones[z].up[0].entity, FateOf(s.zones[y], v), FateOf(HeadReads(s, z).zones[y], v);
            if v == e.uuid && e.spot.chunk in s.route && s.route[e.spot.chunk] == y && was != Published
            then now == Leased
            else now == was
  {
    FateAfterReading(s, z, y, v);
  }

  // ------------------------------------------------------------------------------------------------
  // Every request is answered exactly once
  // ------------------------------------------------------------------------------------------------

  function Asks(up: seq<Up>, u: nat): nat {
    if up == [] then 0 else (if up[0].UpReassign? && up[0].uuid == u then 1 else 0) + Asks(up[1..], u)
  }

  function Answers(down: seq<Down>, u: nat): nat {
    if down == [] then 0 else (if down[0].DownAnswer? && down[0].uuid == u then 1 else 0) + Answers(down[1..], u)
  }

  lemma {:induction false} AsksConcat(a: seq<Up>, b: seq<Up>, u: nat)
    ensures Asks(a + b, u) == Asks(a, u) + Asks(b, u)
  {
    if a == [] {
      assert a + b == b;
    } else {
      assert (a + b)[1..] == a[1..] + b;
      AsksConcat(a[1..], b, u);
    }
  }

  lemma {:induction false} AnswersConcat(a: seq<Down>, b: seq<Down>, u: nat)
    ensures Answers(a + b, u) == Answers(a, u) + Answers(b, u)
  {
    if a == [] {
      assert a + b == b;
    } else {
      assert (a + b)[1..] == a[1..] + b;
      AnswersConcat(a[1..], b, u);
    }
  }

  lemma {:induction false} OffersAsk(es: seq<Entity>, u: nat)
    ensures Asks(Offers(es), u) == Copies(es, u)
  {
    if es != [] {
      var init, e := es[..|es| - 1], es[|es| - 1];
      OffersAsk(init, u);
      AsksConcat(Offers(init), Offer(e), u);
      assert Asks([UpEntity(e)], u) == 0 && Offer(e)[1..] == [UpEntity(e)];
      assert es == init + [e];
      CopiesSnoc(init, e, u);
    }
  }

  lemma {:induction false} CopiesSnoc(es: seq<Entity>, e: Entity, u: nat)
    ensures Copies(es + [e], u) == Copies(es, u) + (if e.uuid == u then 1 else 0)
  {
    if es != [] {
      assert (es + [e])[1..] == es[1..] + [e];
      CopiesSnoc(es[1..], e, u);
    }
  }

  lemma {:induction false} PublicationAsksNothing(order: seq<Entity>, id: nat, u: nat)
    ensures Asks(Publication(order, id), u) == 0
    decreases |order|
  {
    if order == [] {
      assert Publication(order, id) == [UpDrained(id)];
    } else {
      assert Publication(order, id)[1..] == Publication(order[1..], id);
      PublicationAsksNothing(order[1..], id, u);
    }
  }

  /** The requests of `z` about `u` on their way to the head, and the answers on their way back. */
  ghost function InFlight(s: State, z: int, u: nat): nat {
    if z in s.zones then Asks(s.zones[z].up, u) + Answers(s.zones[z].down, u) else 0
  }

  /** The requests of `z` about `u` that the step makes. */
  function Made(step: Step, z: int, u: nat): nat {
    if step.Hand? && step.z == z then Copies(step.es, u) else 0
  }

  /** The answers about `u` that `z` reads in the step. */
  ghost function Read(s: State, step: Step, z: int, u: nat): nat
    requires Legal(s, step)
  {
    if step.ZoneTakes? && step.z == z && s.zones[z].down[0].DownAnswer? && s.zones[z].down[0].uuid == u then 1 else 0
  }

  lemma StepAnswers(s: State, step: Step, z: int, u: nat)
    requires Legal(s, step) && step != Dies(z)
    ensures InFlight(Next(s, step), z, u) + Read(s, step, z, u) == InFlight(s, z, u) + Made(step, z, u)
  {
    if z in s.zones {
      var zone := s.zones[z];
      match step {
        case Hand(y, es) =>
          AsksConcat(zone.up, Offers(es), u);
          OffersAsk(es, u);
        case HeadTakes(y) =>
          AnswersConcat(zone.down, Sent(s, y, z), u);
        case ZoneTakes(y, order) =>
          if zone.down != [] && zone.down[0].DownDrain? {
            AsksConcat(zone.up, Publication(order, zone.down[0].id), u);
            PublicationAsksNothing(order, zone.down[0].id, u);
          }
        case Retire(y, _) =>
          AnswersConcat(zone.down, [DownDrain(s.nextId)], u);
        case _ =>
      }
    }
  }

  ghost function AllMade(steps: seq<Step>, z: int, u: nat): nat {
    if steps == [] then 0 else Made(steps[0], z, u) + AllMade(steps[1..], z, u)
  }

  ghost function AllRead(s: State, steps: seq<Step>, z: int, u: nat): nat
    requires AllLegal(s, steps)
    decreases |steps|
  {
    if steps == [] then 0 else Read(s, steps[0], z, u) + AllRead(Next(s, steps[0]), steps[1..], z, u)
  }

  lemma {:induction false} AnsweredFrom(s: State, steps: seq<Step>, z: int, u: nat)
    requires AllLegal(s, steps) && Dies(z) !in steps
    ensures InFlight(Run(s, steps), z, u) + AllRead(s, steps, z, u) == InFlight(s, z, u) + AllMade(steps, z, u)
    decreases |steps|
  {
    if steps != [] {
      StepAnswers(s, steps[0], z, u);
      AnsweredFrom(Next(s, steps[0]), steps[1..], z, u);
    }
  }

  /**
   In every run the requests a zone has made about an entity are the answers it has read and those still on their way:
   none is answered twice, and once the links are quiet each has been answered.
   */
  lemma AnsweredOnce(steps: seq<Step>, z: int, u: nat)
    requires AllLegal(START, steps) && Dies(z) !in steps
    ensures AllRead(START, steps, z, u) <= AllMade(steps, z, u)
    ensures AllMade(steps, z, u) == AllRead(START, steps, z, u) + InFlight(Run(START, steps), z, u)
    ensures Quiet(Run(START, steps)) ==> AllRead(START, steps, z, u) == AllMade(steps, z, u)
  {
    AnsweredFrom(START, steps, z, u);
  }
}
