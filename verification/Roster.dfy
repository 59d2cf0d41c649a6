/**
 The list of entities a zone keeps. It may hold an id more than once; what counts is the first of them.
 */
module Roster {
  import opened Geometry

  type Uuid = nat

  datatype Spot = Spot(chunk: Chunk, x: real, y: real, z: real)

  datatype Entity = Entity(uuid: Uuid, worldOwned: bool, spot: Spot, angle: nat, data: seq<nat>)

  // ------------------------------------------------------------------------------------------------
  // The list as a value
  // ------------------------------------------------------------------------------------------------

  function Without(es: seq<Entity>, uuid: Uuid): seq<Entity> {
    if es == [] then [] else (if es[0].uuid == uuid then [] else [es[0]]) + Without(es[1..], uuid)
  }

  /** The first entity of that uuid is replaced; a new one goes to the end. */
  function Stored(es: seq<Entity>, e: Entity): seq<Entity> {
    if es == [] then [e] else if es[0].uuid == e.uuid then [e] + es[1..] else [es[0]] + Stored(es[1..], e)
  }

  predicate Holds(es: seq<Entity>, uuid: Uuid) { exists i :: 0 <= i < |es| && es[i].uuid == uuid }

  /** The first entity of that uuid; the list may hold several. */
  function Target(es: seq<Entity>, uuid: Uuid): Option<Entity> {
    if es == [] then None else if es[0].uuid == uuid then Some(es[0]) else Target(es[1..], uuid)
  }

  function Copies(es: seq<Entity>, uuid: Uuid): nat {
    if es == [] then 0 else (if es[0].uuid == uuid then 1 else 0) + Copies(es[1..], uuid)
  }

  lemma {:induction false} WithoutMembers(es: seq<Entity>, uuid: Uuid)
    ensures forall x :: x in Without(es, uuid) <==> x in es && x.uuid != uuid
  {
    if es != [] {
      WithoutMembers(es[1..], uuid);
      assert es == [es[0]] + es[1..];
    }
  }

  lemma HoldsTail(es: seq<Entity>, uuid: Uuid)
    requires es != []
    ensures Holds(es, uuid) <==> es[0].uuid == uuid || Holds(es[1..], uuid)
  {
    assert forall i :: 0 < i < |es| ==> es[i] == es[1..][i - 1];
  }

  /** Erasing a uuid changes nothing exactly when no entity has it. */
  lemma {:induction false} WithoutIsInert(es: seq<Entity>, uuid: Uuid)
    ensures Without(es, uuid) == es <==> !Holds(es, uuid)
    ensures |Without(es, uuid)| <= |es|
  {
    if es != [] {
      HoldsTail(es, uuid);
      WithoutIsInert(es[1..], uuid);
      assert es == [es[0]] + es[1..];
      if es[0].uuid != uuid {
        assert Without(es, uuid)[1..] == Without(es[1..], uuid);
      }
    }
  }

  /** Storing makes the entity the first of its uuid and touches no other; it adds one only if there was none. */
  lemma {:induction false} StoredIsFirst(es: seq<Entity>, e: Entity)
    ensures Target(Stored(es, e), e.uuid) == Some(e) && Without(Stored(es, e), e.uuid) == Without(es, e.uuid)
    ensures Copies(Stored(es, e), e.uuid) == if Copies(es, e.uuid) == 0 then 1 else Copies(es, e.uuid)
  {
    if es == [] {
      assert [e][1..] == [];
    } else if es[0].uuid == e.uuid {
      assert ([e] + es[1..])[1..] == es[1..];
    } else {
      StoredIsFirst(es[1..], e);
      assert Stored(es, e)[1..] == Stored(es[1..], e);
    }
  }

  /** Erasing leaves none of that uuid and touches no other. */
  lemma {:induction false} WithoutIsGone(es: seq<Entity>, uuid: Uuid)
    ensures Target(Without(es, uuid), uuid) == None && Copies(Without(es, uuid), uuid) == 0
    ensures Without(Without(es, uuid), uuid) == Without(es, uuid)
  {
    if es != [] {
      WithoutIsGone(es[1..], uuid);
      if es[0].uuid == uuid {
        assert Without(es, uuid) == Without(es[1..], uuid);
      } else {
        assert Without(es, uuid)[1..] == Without(es[1..], uuid);
      }
    }
  }

  /** The entities by id. */
  function HeldBy(es: seq<Entity>): map<Uuid, Entity> {
    if es == [] then map[] else HeldBy(es[1..])[es[0].uuid := es[0]]
  }

  lemma {:induction false} StoredHolds(es: seq<Entity>, e: Entity)
    ensures HeldBy(Stored(es, e)) == HeldBy(es)[e.uuid := e]
  {
    if es == [] {
      assert [e][1..] == [];
    } else if es[0].uuid == e.uuid {
      assert ([e] + es[1..])[1..] == es[1..];
    } else {
      StoredHolds(es[1..], e);
      assert Stored(es, e)[1..] == Stored(es[1..], e);
    }
  }

  lemma {:induction false} WithoutHolds(es: seq<Entity>, uuid: Uuid)
    ensures HeldBy(Without(es, uuid)) == HeldBy(es) - {uuid}
  {
    if es != [] {
      WithoutHolds(es[1..], uuid);
      if es[0].uuid == uuid {
        assert Without(es, uuid) == Without(es[1..], uuid);
      } else {
        assert Without(es, uuid)[1..] == Without(es[1..], uuid);
      }
    }
  }

  /** What is held under an id is the first entity of it. */
  lemma {:induction false} HeldIsFirst(es: seq<Entity>, uuid: Uuid)
    ensures Target(es, uuid) == if uuid in HeldBy(es) then Some(HeldBy(es)[uuid]) else None
    ensures uuid in HeldBy(es) ==> HeldBy(es)[uuid].uuid == uuid && HeldBy(es)[uuid] in es
  {
    if es != [] {
      HeldIsFirst(es[1..], uuid);
    }
  }

  // ------------------------------------------------------------------------------------------------
  // The loops over it
  // ------------------------------------------------------------------------------------------------

  /** Erases every entity of that uuid. */
  method Erase(was: seq<Entity>, uuid: Uuid) returns (es: seq<Entity>)
    ensures es == Without(was, uuid)
  {
    es := was;
    var i := 0;
    while i < |es|
      invariant 0 <= i <= |es|
      invariant es[..i] + Without(es[i..], uuid) == Without(was, uuid)
      decreases |es| - i
    {
      ghost var before := es;
      assert before[i..][1..] == before[i + 1..];
      if es[i].uuid == uuid {
        es := es[..i] + es[i + 1..];
        assert es[..i] == before[..i] && es[i..] == before[i + 1..];
      } else {
        i := i + 1;
        assert before[..i] == before[..i - 1] + [before[i - 1]];
      }
    }
    assert es[..i] == es;
  }

  /** Replaces the first entity of that uuid, or appends. */
  method Store(was: seq<Entity>, e: Entity) returns (es: seq<Entity>)
    ensures es == Stored(was, e)
  {
    es := was;
    for i := 0 to |es|
      invariant es == was && Stored(was, e) == was[..i] + Stored(was[i..], e)
    {
      assert was[i..][1..] == was[i + 1..];
      if es[i].uuid == e.uuid {
        es := es[i := e];
        assert es == was[..i] + ([e] + was[i + 1..]);
        return;
      }
      assert was[..i + 1] == was[..i] + [was[i]];
    }
    assert was[..|was|] == was;
    es := es + [e];
  }

  method FindTarget(es: seq<Entity>, uuid: Uuid) returns (t: Option<Entity>)
    ensures t == Target(es, uuid)
  {
    for i := 0 to |es|
      invariant Target(es, uuid) == Target(es[i..], uuid)
    {
      assert es[i..][1..] == es[i + 1..];
      if es[i].uuid == uuid {
        return Some(es[i]);
      }
    }
    t := None;
  }
}
