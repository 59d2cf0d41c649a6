/**
 The object that owns the topology. Each method is the source's loop or update; its contract ties the new
 record to the value-level operation of `Topology`, about which the laws are proved there and in `Cluster`.
 */
module Orchestration {
  import opened Geometry
  import opened Population
  import opened Topology

  /** Times in milliseconds; the environment may override any of them. */
  datatype Config = Config(minReplicas: int, mergeWindow: int, drainTimeout: int, settle: int, cooldown: int)

  datatype NeighbourMode = Face | FaceEdge | FaceEdgeCorner

  predicate IsNeighbour(a: Box, b: Box, mode: NeighbourMode) {
    && Adjacent(a, b)
    && match mode
       case Face => TouchingAxes(a, b) == 1
       case FaceEdge => TouchingAxes(a, b) <= 2
       case FaceEdgeCorner => TouchingAxes(a, b) <= 3
  }

  /** What the three modes mean: a shared face; at most an edge between them; at most a corner. */
  lemma NeighbourModes(a: Box, b: Box)
    requires a.NonEmpty() && b.NonEmpty()
    ensures IsNeighbour(a, b, Face) <==> SharesFace(a, b)
    ensures IsNeighbour(a, b, FaceEdge) <==> ChunksBeside(a, b, 2)
    ensures IsNeighbour(a, b, FaceEdgeCorner) <==> ChunksBeside(a, b, 3)
  {
    FaceNeighboursIff(a, b);
    AdjacentIff(a, b, 2);
    AdjacentIff(a, b, 3);
  }

  /** The routable neighbours of the zone `fd`, in order of registration. */
  function Neighbours(states: States, zones: seq<Zone>, fd: int, box: Box, mode: NeighbourMode): seq<int> {
    if zones == [] then []
    else
      var z := zones[|zones| - 1];
      Neighbours(states, zones[..|zones| - 1], fd, box, mode) +
      (if z.fd != fd && RoutableIn(states, z.fd) && IsNeighbour(box, z.box, mode) then [z.fd] else [])
  }

  /** A zone `fd` may merge with: registered, ready and face to face. */
  predicate Partner(h: Head, fd: int, z: Zone) {
    && z in h.zones && z.fd != fd && h.State(z.fd) == Ready
    && Find(h.zones, fd).Some? && FaceNeighbours(Find(h.zones, fd).value.box, z.box)
  }

  ghost predicate SmallestPartner(h: Head, fd: int, v: Zone) {
    Partner(h, fd, v) && forall z :: Partner(h, fd, z) ==> v.box.Volume() <= z.box.Volume()
  }

  ghost predicate LargestPartner(h: Head, fd: int, v: Zone) {
    Partner(h, fd, v) && forall z :: Partner(h, fd, z) ==> z.box.Volume() <= v.box.Volume()
  }

  lemma {:induction false} NeighboursMember(
    states: States, zones: seq<Zone>, fd: int, box: Box, mode: NeighbourMode, g: int)
    ensures g in Neighbours(states, zones, fd, box, mode) <==>
            exists z :: z in zones && z.fd == g && g != fd && RoutableIn(states, g) && IsNeighbour(box, z.box, mode)
  {
    if zones != [] {
      var init, z := zones[..|zones| - 1], zones[|zones| - 1];
      NeighboursMember(states, init, fd, box, mode, g);
      assert zones == init + [z];
    }
  }

  /** Between proper boxes, a partner is another ready zone on the list that shares a face with this one. */
  lemma PartnerIff(h: Head, fd: int, z: Zone)
    requires Find(h.zones, fd).Some? && Find(h.zones, fd).value.box.NonEmpty() && z.box.NonEmpty()
    ensures Partner(h, fd, z) <==>
            z in h.zones && z.fd != fd && h.State(z.fd) == Ready && SharesFace(Find(h.zones, fd).value.box, z.box)
  {
    FaceNeighboursIff(Find(h.zones, fd).value.box, z.box);
  }

  /** What the head answers for a chunk: the address and port of the zone it routes it to. */
  function AnswerTo(h: Head, c: Chunk): Option<(string, int)> {
    match h.Route(c) case None => None case Some(z) => Some((z.addr, z.port))
  }

  /** An empty address or port counts as no answer. */
  predicate Answered(r: Option<(string, int)>) { r.Some? && r.value.0 != "" && r.value.1 != 0 }

  /**
   Which query is a miss: none of the routable zones that have the chunk comes first with an address and a port. Between
   proper zones, which all have one, that is a chunk nobody serves.
   */
  lemma MissIff(h: Head, c: Chunk)
    ensures Answered(AnswerTo(h, c)) <==>
            h.Route(c).Some? && h.Route(c).value.addr != "" && h.Route(c).value.port != 0
    ensures Answered(AnswerTo(h, c)) ==> AnswerTo(h, c) == Some((h.Route(c).value.addr, h.Route(c).value.port))
    ensures (forall z :: z in h.zones ==> z.addr != "" && z.port != 0) ==>
              (Answered(AnswerTo(h, c)) <==> exists z :: z in h.zones && h.Routable(z.fd) && z.box.Has(c))
  {
    RouteIsServing(h.states, h.zones, c);
  }

  /** What the two drain operations send: the resize of the survivor if the boxes make one, then the drain request. */
  function DrainTraffic(h: Head, victim: int, survivor: int): seq<Envelope> {
    (match AbsorbMessage(h.zones, survivor, victim)
     case None => []
     case Some(m) => [Envelope(survivor, m)]) + [Envelope(victim, DrainRequest(h.nextRequest))]
  }

  /** `fd` takes over its smallest partner `v`. */
  ghost predicate MergedInto(h: Head, h': Head, traffic: seq<Envelope>, fd: int, v: Zone, now: int, cfg: Config) {
    && SmallestPartner(h, fd, v)
    && h' == StartDrain(h, v.fd, fd, now, cfg.drainTimeout).(lowSince := h.lowSince - {fd})
    && traffic == DrainTraffic(h, v.fd, fd)
  }

  /** Those of the listed zones that are registered and ready. */
  function ReadyAmong(states: States, zones: seq<Zone>, fds: seq<int>): seq<Zone> {
    if fds == [] then []
    else
      var g := fds[|fds| - 1];
      var z := Find(zones, g);
      ReadyAmong(states, zones, fds[..|fds| - 1]) + (if z.Some? && StateIn(states, g) == Ready then [z.value] else [])
  }

  lemma {:induction false} ReadyAmongMember(states: States, zones: seq<Zone>, fds: seq<int>, z: Zone)
    ensures z in ReadyAmong(states, zones, fds) <==>
            z.fd in fds && Find(zones, z.fd) == Some(z) && StateIn(states, z.fd) == Ready
  {
    if fds != [] {
      ReadyAmongMember(states, zones, fds[..|fds| - 1], z);
      assert fds == fds[..|fds| - 1] + [fds[|fds| - 1]];
    }
  }

  ghost predicate HasPartner(h: Head, fd: int) { exists z :: Partner(h, fd, z) }

  /** A zone in service with replicas to spare. */
  predicate CanDrain(h: Head, fd: int, cfg: Config) {
    h.RoutableCount() > cfg.minReplicas && h.State(fd) == Ready && Find(h.zones, fd).Some?
  }

  /** It may merge once no operation has touched it for a whole window. */
  predicate CanMerge(h: Head, fd: int, now: int, cfg: Config) {
    CanDrain(h, fd, cfg) && (fd in h.lastOp ==> now - h.lastOp[fd] >= cfg.mergeWindow)
  }

  predicate LongIdle(h: Head, fd: int, now: int, cfg: Config) {
    fd in h.lowSince && now - h.lowSince[fd] >= cfg.mergeWindow
  }

  /**
   The idle windows after a merge that does not happen: it restarts without a partner, and the first idle report opens
   it.
   */
  ghost function IdleAfter(h: Head, fd: int, now: int, cfg: Config): map<int, int> {
    if !CanMerge(h, fd, now, cfg) then h.lowSince
    else if !HasPartner(h, fd) then h.lowSince - {fd}
    else if fd !in h.lowSince then h.lowSince[fd := now]
    else h.lowSince
  }

  /** What a load report does to the idle windows: the first low one opens it, a high one closes it. */
  function LoadNoted(lowSince: map<int, int>, fd: int, low: bool, now: int): map<int, int> {
    if !low then lowSince - {fd} else if fd in lowSince then lowSince else lowSince[fd := now]
  }

  /** A merge drains the smallest partner into `fd` exactly when every guard holds; else only the idle window moves. */
  ghost predicate MergeOutcome(h: Head, h': Head, traffic: seq<Envelope>, fd: int, now: int, cfg: Config, acted: bool)
  {
    && (acted <==> CanMerge(h, fd, now, cfg) && HasPartner(h, fd) && LongIdle(h, fd, now, cfg))
    && if acted then exists v :: MergedInto(h, h', traffic, fd, v, now, cfg)
       else h' == h.(lowSince := IdleAfter(h, fd, now, cfg)) && traffic == []
  }

  /** `fd` is drained into its largest partner `s`. */
  ghost predicate ReassignedTo(h: Head, h': Head, traffic: seq<Envelope>, fd: int, s: Zone, now: int, cfg: Config) {
    && LargestPartner(h, fd, s)
    && h' == StartDrain(h, fd, s.fd, now, cfg.drainTimeout)
    && traffic == DrainTraffic(h, fd, s.fd)
  }

  /** A reassign drains `fd` into its largest partner exactly when every guard holds; else it changes nothing. */
  ghost predicate ReassignOutcome(
    h: Head, h': Head, traffic: seq<Envelope>, fd: int, now: int, cfg: Config, acted: bool)
  {
    && (acted <==> CanDrain(h, fd, cfg) && HasPartner(h, fd))
    && if acted then exists s :: ReassignedTo(h, h', traffic, fd, s, now, cfg)
       else h' == h && traffic == []
  }

  /** The box of the child a split asks for. */
  datatype Spawn = NoSpawn | Spawn(box: Box)

  /** What a split asks for: a child with the upper half, and a parent that keeps the rest. */
  ghost predicate SplitBy(box: Box, prof: Option<Profile>, plan: Plan, traffic: seq<Envelope>, spawn: Spawn, fd: int)
    requires prof.Some? ==> prof.value.Valid()
  {
    && IsPlan(box, prof, plan)
    && spawn == Spawn(HighHalf(box, plan.axis, plan.bottom))
    && traffic == [Envelope(fd, Resize(plan.axis, box.At(plan.axis).lo, plan.top))]
  }

  function ProfileOf(h: Head, fd: int): Option<Profile> { if fd in h.profiles then Some(h.profiles[fd]) else None }

  /** A zone in service whose last split is long enough ago. */
  predicate CanSplit(h: Head, fd: int, now: int, cfg: Config) {
    Find(h.zones, fd).Some? && h.State(fd) == Ready && (fd in h.lastScale ==> now - h.lastScale[fd] >= cfg.cooldown)
  }

  /** A zone down to one chunk is remembered as unsplittable until it has room again. */
  function FloorAfter(h: Head, fd: int, now: int, cfg: Config): set<int> {
    if !CanSplit(h, fd, now, cfg) then h.atFloor
    else if SingleChunk(Find(h.zones, fd).value.box) then h.atFloor + {fd} else h.atFloor - {fd}
  }

  /**
   A split happens exactly when every guard holds, the box has more than one chunk and the child could be started.
   It never touches the boxes in the record: those change when the parent and the child report.
   */
  ghost predicate SplitOutcome(
    h: Head, h': Head, traffic: seq<Envelope>, spawn: Spawn, fd: int, now: int, cfg: Config, spawnWorks: bool,
    acted: bool)
  {
    && (acted <==> CanSplit(h, fd, now, cfg) && !SingleChunk(Find(h.zones, fd).value.box) && spawnWorks)
    && h' == h.(atFloor := FloorAfter(h, fd, now, cfg),
                lastScale := if acted then h.lastScale[fd := now] else h.lastScale)
    && if acted then
         && (fd in h.profiles ==> h.profiles[fd].Valid())
         && exists plan :: SplitBy(Find(h.zones, fd).value.box, ProfileOf(h, fd), plan, traffic, spawn, fd)
       else traffic == [] && spawn == NoSpawn
  }

  /** After a split that was allowed to look at it, a zone counts as unsplittable exactly if it has one chunk. */
  lemma FloorIsSingle(h: Head, fd: int, now: int, cfg: Config)
    requires CanSplit(h, fd, now, cfg) && Find(h.zones, fd).value.box.NonEmpty()
    ensures fd in FloorAfter(h, fd, now, cfg) <==> OneChunk(Find(h.zones, fd).value.box)
    ensures FloorAfter(h, fd, now, cfg) - {fd} == h.atFloor - {fd}
  {
    SingleChunkIff(Find(h.zones, fd).value.box);
  }

  predicate Settled(h: Head, fd: int, now: int, cfg: Config) { fd in h.lastOp ==> now - h.lastOp[fd] >= cfg.settle }

  /** The operation the queue must run next: settled, and of the highest priority among the settled. */
  ghost predicate IsNext(h: Head, fd: int, now: int, cfg: Config) {
    && fd in h.pending && Settled(h, fd, now, cfg)
    && forall g :: g in h.pending && Settled(h, g, now, cfg) ==> h.pending[g].Priority() <= h.pending[fd].Priority()
  }

  /** What one lifecycle operation does to the record and the wire. */
  ghost predicate Executed(
    h: Head, h': Head, traffic: seq<Envelope>, fd: int, op: LifecycleOp, now: int, cfg: Config, spawnWorks: bool,
    spawn: Spawn, acted: bool)
  {
    match op
    case Evict => h' == EvictZone(h, fd) && traffic == [] && acted
    case Reassign => (exists done :: ReassignOutcome(h, h', traffic, fd, now, cfg, done)) && acted
    case Merge => MergeOutcome(h, h', traffic, fd, now, cfg, acted)
    case Split => SplitOutcome(h, h', traffic, spawn, fd, now, cfg, spawnWorks, acted)
  }

  function Stamped(h: Head, fd: int, now: int, acted: bool): Head {
    if acted then h.(lastOp := h.lastOp[fd := now]) else h
  }

  /** One turn of the queue: the next operation, if there is one, and the settle stamp if it acted. */
  ghost predicate Processed(
    h: Head, h': Head, traffic: seq<Envelope>, now: int, cfg: Config, spawnWorks: bool, ran: Option<int>, done: Head,
    acted: bool, spawn: Spawn)
  {
    match ran
    case None => h' == h && traffic == [] && forall fd :: fd in h.pending ==> !Settled(h, fd, now, cfg)
    case Some(fd) =>
      && IsNext(h, fd, now, cfg)
      && Executed(h.(pending := h.pending - {fd}), done, traffic, fd, h.pending[fd], now, cfg, spawnWorks, spawn, acted)
      && h' == Stamped(done, fd, now, acted)
  }

  /**
   What is next is an eviction if one may run, else a reassign, else a merge, else a split; and it concerns a zone that
   no operation has touched for a settle window.
   */
  lemma NextIsUrgent(h: Head, fd: int, now: int, cfg: Config)
    requires IsNext(h, fd, now, cfg)
    ensures fd in h.lastOp ==> h.lastOp[fd] + cfg.settle <= now
    ensures forall g :: g in h.pending && (g in h.lastOp ==> h.lastOp[g] + cfg.settle <= now) ==>
              && (h.pending[g].Evict? ==> h.pending[fd].Evict?)
              && (h.pending[g].Reassign? ==> h.pending[fd].Evict? || h.pending[fd].Reassign?)
              && (h.pending[g].Merge? ==> !h.pending[fd].Split?)
  {
    forall g | g in h.pending && (g in h.lastOp ==> h.lastOp[g] + cfg.settle <= now)
      ensures h.pending[g].Priority() <= h.pending[fd].Priority()
    {
      assert Settled(h, g, now, cfg);
    }
  }

  /** The first zone of least (or greatest) volume. */
  method Extreme(zones: seq<Zone>, smallest: bool) returns (k: nat)
    requires zones != []
    ensures k < |zones|
    ensures forall z :: z in zones ==>
              if smallest then zones[k].box.Volume() <= z.box.Volume() else z.box.Volume() <= zones[k].box.Volume()
  {
    k := 0;
    var best := zones[0].box.Volume();
    for i := 1 to |zones|
      invariant k < |zones| && best == zones[k].box.Volume()
      invariant forall j :: 0 <= j < i ==>
                if smallest then best <= zones[j].box.Volume() else zones[j].box.Volume() <= best
    {
      var v := zones[i].box.Volume();
      if (smallest && v < best) || (!smallest && v > best) {
        k, best := i, v;
      }
    }
  }

  class Orchestrator {
    const cfg: Config

    var activeZones: seq<Zone>
    var zoneStates: States
    var drainDeadlineMs: map<int, int>
    var drainRequestId: map<int, nat>
    var drainTarget: map<int, int>
    var lcSeq: nat
    var pendingLifecycle: map<int, LifecycleOp>
    var lastLifecycleMs: map<int, int>
    var lowSinceMs: map<int, int>
    var popProfiles: map<int, Profile>
    var atSplitFloor: set<int>
    var lastScaleTime: map<int, int>

    /** Everything handed to the socket so far. */
    var sent: seq<Envelope>

    ghost function Record(): Head
      reads this
    {
      Head(activeZones, zoneStates, drainDeadlineMs, drainRequestId, drainTarget, lcSeq, pendingLifecycle,
           lastLifecycleMs, lowSinceMs, popProfiles, atSplitFloor, lastScaleTime)
    }

    ghost predicate Valid()
      reads this
    {
      && UniqueFds(activeZones)
      && forall fd :: fd in popProfiles ==> popProfiles[fd].Valid()
    }

    constructor (cfg: Config)
      ensures Valid() && Record() == EMPTY_HEAD && sent == [] && this.cfg == cfg
    {
      this.cfg := cfg;
      activeZones, zoneStates := [], map[];
      drainDeadlineMs, drainRequestId, drainTarget, lcSeq := map[], map[], map[], 1;
      pendingLifecycle, lastLifecycleMs, lowSinceMs := map[], map[], map[];
      popProfiles, atSplitFloor, lastScaleTime := map[], {}, map[];
      sent := [];
    }

    method UpdateNodeTopology(fd: int, r: Report)
      requires Valid() && r.profile.Valid()
      modifies `activeZones, `popProfiles
      ensures Valid()
      ensures Record() == Hear(old(Record()), fd, r)
    {
      ghost var zones := activeZones;
      popProfiles := popProfiles[fd := r.profile];
      for i := 0 to |activeZones|
        invariant forall j :: 0 <= j < i ==> activeZones[j].fd != fd
        invariant activeZones == zones
      {
        if activeZones[i].fd == fd {
          FindUnique(zones, i);
          activeZones := activeZones[i := Zone(fd, r.box, r.addr, r.port)];
          assert activeZones == Put(zones, Zone(fd, r.box, r.addr, r.port));
          return;
        }
      }
      assert Find(zones, fd).None?;
      if RoutableIn(zoneStates, fd) {
        activeZones := activeZones + [Zone(fd, r.box, r.addr, r.port)];
      }
    }

    method FindTargetNode(c: Chunk) returns (fd: Option<int>)
      ensures fd == match Record().Route(c) case None => None case Some(z) => Some(z.fd)
    {
      for i := 0 to |activeZones|
        invariant Record().Route(c) == FirstServing(zoneStates, activeZones[i..], c)
      {
        var z := activeZones[i];
        assert activeZones[i..][0] == z && activeZones[i..][1..] == activeZones[i + 1..];
        if RoutableIn(zoneStates, z.fd) && z.box.Has(c) {
          return Some(z.fd);
        }
      }
      return None;
    }

    method FindZoneResponse(c: Chunk) returns (r: Option<(string, int)>)
      ensures r == match Record().Route(c) case None => None case Some(z) => Some((z.addr, z.port))
    {
      for i := 0 to |activeZones|
        invariant Record().Route(c) == FirstServing(zoneStates, activeZones[i..], c)
      {
        var z := activeZones[i];
        assert activeZones[i..][0] == z && activeZones[i..][1..] == activeZones[i + 1..];
        if RoutableIn(zoneStates, z.fd) && z.box.Has(c) {
          return Some((z.addr, z.port));
        }
      }
      return None;
    }

    method RelocateZoneTo(c: Chunk) returns (fd: Option<int>)
      requires Valid()
      modifies `activeZones
      ensures Valid()
      ensures Record() == RelocateHead(old(Record()), c)
      ensures fd == match RelocationChoice(old(Record()), c) case None => None case Some(z) => Some(z.fd)
    {
      ghost var h := Record();
      var best := |activeZones|;
      var i := 0;
      while i < |activeZones| && best == |activeZones|
        invariant 0 <= i <= |activeZones| && 0 <= best <= |activeZones|
        invariant best == |activeZones| ==>
                  FirstLevel(zoneStates, activeZones, c) == FirstLevel(zoneStates, activeZones[i..], c)
        invariant best < |activeZones| ==> FirstLevel(zoneStates, activeZones, c) == Some(activeZones[best])
        decreases |activeZones| - i + best
      {
        assert activeZones[i..][0] == activeZones[i] && activeZones[i..][1..] == activeZones[i + 1..];
        if RoutableIn(zoneStates, activeZones[i].fd) && Level(activeZones[i], c) {
          best := i;
        } else {
          i := i + 1;
        }
      }
      if best == |activeZones| {
        i := 0;
        while i < |activeZones| && best == |activeZones|
          invariant 0 <= i <= |activeZones| && 0 <= best <= |activeZones|
          invariant best == |activeZones| ==>
                    FirstRoutable(zoneStates, activeZones) == FirstRoutable(zoneStates, activeZones[i..])
          invariant best < |activeZones| ==> FirstRoutable(zoneStates, activeZones) == Some(activeZones[best])
          decreases |activeZones| - i + best
        {
          assert activeZones[i..][0] == activeZones[i] && activeZones[i..][1..] == activeZones[i + 1..];
          if RoutableIn(zoneStates, activeZones[i].fd) {
            best := i;
          } else {
            i := i + 1;
          }
        }
      }
      if best == |activeZones| {
        return None;
      }
      var z := activeZones[best];
      assert RelocationChoice(h, c) == Some(z);
      activeZones := activeZones[best := z.(box := Stretch(z.box, c))];
      assert activeZones == Put(h.zones, z.(box := Stretch(z.box, c)));
      return Some(z.fd);
    }

    /** The head's answer to "which zone serves this chunk?": on a miss a zone is stretched over it and told so. */
    method HandleZoneQuery(c: Chunk) returns (r: Option<(string, int)>)
      requires Valid()
      modifies `activeZones, `sent
      ensures Valid()
      ensures var h := old(Record());
              if Answered(AnswerTo(h, c)) then Record() == h && sent == old(sent) && r == AnswerTo(h, c)
              else
                && Record() == RelocateHead(h, c) && r == AnswerTo(Record(), c)
                && sent == old(sent) +
                   match RelocationChoice(h, c) case None => [] case Some(z) => [Envelope(z.fd, Relocate(c))]
    {
      r := FindZoneResponse(c);
      if r.None? || r.value.1 == 0 || r.value.0 == "" {
        var relocated := RelocateZoneTo(c);
        if relocated.Some? {
          sent := sent + [Envelope(relocated.value, Relocate(c))];
          r := FindZoneResponse(c);
        }
      }
    }

    method FindNeighbours(fd: int, mode: NeighbourMode) returns (fds: seq<int>)
      ensures fds == match Find(activeZones, fd)
                     case None => []
                     case Some(z) => Neighbours(zoneStates, activeZones, fd, z.box, mode)
    {
      fds := [];
      var origin := Find(activeZones, fd);
      if origin.None? {
        return;
      }
      for i := 0 to |activeZones|
        invariant fds == Neighbours(zoneStates, activeZones[..i], fd, origin.value.box, mode)
      {
        var z := activeZones[i];
        assert activeZones[..i + 1][..i] == activeZones[..i];
        if z.fd != fd && RoutableIn(zoneStates, z.fd) && IsNeighbour(origin.value.box, z.box, mode) {
          fds := fds + [z.fd];
        }
      }
      assert activeZones[..|activeZones|] == activeZones;
    }

    method RoutableZoneCount() returns (n: nat)
      ensures n == Record().RoutableCount()
    {
      n := 0;
      for i := 0 to |activeZones|
        invariant n == CountRoutable(zoneStates, activeZones[..i])
      {
        assert activeZones[..i + 1][..i] == activeZones[..i];
        if RoutableIn(zoneStates, activeZones[i].fd) {
          n := n + 1;
        }
      }
      assert activeZones[..|activeZones|] == activeZones;
    }

    /** The confirmation of a drain: the zone is destroyed and told to exit. */
    method HandleZoneLifecycle(fd: int, id: nat, now: int)
      requires Valid()
      modifies `activeZones, `atSplitFloor, `popProfiles, `zoneStates, `drainDeadlineMs, `drainRequestId, `drainTarget,
          `lastLifecycleMs, `sent
      ensures Valid()
      ensures Record() == AckDrain(old(Record()), fd, id, now)
      ensures sent == old(sent) + if AckAccepted(old(Record()), fd, id) then [Envelope(fd, DeleteZone(id))] else []
    {
      if StateIn(zoneStates, fd) != Draining {
        return;
      }
      if fd in drainRequestId && drainRequestId[fd] != id {
        return;
      }
      RemoveFromActiveZones(fd);
      zoneStates := zoneStates[fd := Destroyed];
      CloseDrainOf(fd);
      lastLifecycleMs := lastLifecycleMs[fd := now];
      sent := sent + [Envelope(fd, DeleteZone(id))];
    }

    method CloseDrainOf(fd: int)
      modifies `drainDeadlineMs, `drainRequestId, `drainTarget
      ensures Record() == CloseDrain(old(Record()), fd)
    {
      drainDeadlineMs := drainDeadlineMs - {fd};
      drainRequestId := drainRequestId - {fd};
      drainTarget := drainTarget - {fd};
    }

    method RemoveFromActiveZones(fd: int)
      modifies `activeZones, `atSplitFloor, `popProfiles
      ensures Record() == Forget(old(Record()), fd)
    {
      atSplitFloor := atSplitFloor - {fd};
      popProfiles := popProfiles - {fd};
      for i := 0 to |activeZones|
        invariant forall j :: 0 <= j < i ==> activeZones[j].fd != fd
        invariant activeZones == old(activeZones)
      {
        if activeZones[i].fd == fd {
          assert i == IndexOf(activeZones, fd);
          activeZones := activeZones[..i] + activeZones[i + 1..];
          return;
        }
      }
    }

    /** The part of a zone's evaluation that restores a zone whose drain nobody confirmed in time. */
    method CheckDrainTimeout(fd: int, now: int)
      requires Valid()
      modifies `zoneStates, `drainDeadlineMs, `drainRequestId, `drainTarget
      ensures Valid()
      ensures Record() == ExpireDrain(old(Record()), fd, now)
    {
      if StateIn(zoneStates, fd) == Draining {
        if fd in drainDeadlineMs && now > drainDeadlineMs[fd] {
          zoneStates := zoneStates[fd := Ready];
          CloseDrainOf(fd);
        }
      }
    }

    method EvictStaleZone(fd: int)
      requires Valid()
      modifies `activeZones, `atSplitFloor, `popProfiles, `zoneStates, `drainDeadlineMs, `drainRequestId, `drainTarget
      ensures Valid()
      ensures Record() == EvictZone(old(Record()), fd)
    {
      zoneStates := zoneStates[fd := Dead];
      CloseDrainOf(fd);
      RemoveFromActiveZones(fd);
    }

    method AbsorbRegionInto(survivor: int, victim: int)
      requires UniqueFds(activeZones)
      modifies `activeZones, `sent
      ensures UniqueFds(activeZones)
      ensures Record() == AbsorbRegion(old(Record()), survivor, victim)
      ensures sent == old(sent) + match AbsorbMessage(old(activeZones), survivor, victim)
                                  case None => []
                                  case Some(m) => [Envelope(survivor, m)]
    {
      var s, v := Find(activeZones, survivor), Find(activeZones, victim);
      if s.None? || v.None? {
        return;
      }
      var axis := MergeableAxis(s.value.box, v.value.box);
      if axis.None? {
        return;
      }
      var merged := Absorb(s.value.box, v.value.box, axis.value);
      ghost var zones := activeZones;
      for i := 0 to |activeZones|
        invariant |activeZones| == |zones|
        invariant forall j :: 0 <= j < i ==> activeZones[j] == Put(zones, s.value.(box := merged))[j]
        invariant forall j :: i <= j < |zones| ==> activeZones[j] == zones[j]
        invariant sent == old(sent)
      {
        if activeZones[i].fd == survivor {
          FindUnique(zones, i);
          activeZones := activeZones[i := activeZones[i].(box := merged)];
        }
      }
      assert activeZones == Put(zones, s.value.(box := merged));
      sent := sent + [Envelope(survivor, Resize(axis.value, merged.At(axis.value).lo, merged.At(axis.value).hi))];
    }

    /** The common tail of a merge and of a reassign. */
    method BeginDrain(victim: int, survivor: int, now: int)
      requires Valid() && Allowed(Record(), OpDrain(victim, survivor, now, cfg.drainTimeout))
      modifies `activeZones, `zoneStates, `drainDeadlineMs, `drainRequestId, `drainTarget, `lcSeq, `lastLifecycleMs,
          `sent
      ensures Valid()
      ensures Record() == StartDrain(old(Record()), victim, survivor, now, cfg.drainTimeout)
      ensures sent == old(sent) + DrainTraffic(old(Record()), victim, survivor)
    {
      var req := OpenDrainOf(victim, survivor, now);
      AbsorbRegionInto(survivor, victim);
      sent := sent + [Envelope(victim, DrainRequest(req))];
    }

    method OpenDrainOf(victim: int, survivor: int, now: int) returns (req: nat)
      modifies `zoneStates, `drainDeadlineMs, `drainRequestId, `drainTarget, `lcSeq, `lastLifecycleMs
      ensures req == old(lcSeq)
      ensures Record() == OpenDrain(old(Record()), victim, survivor, now, cfg.drainTimeout)
    {
      req := lcSeq;
      lcSeq := lcSeq + 1;
      drainRequestId := drainRequestId[victim := req];
      drainDeadlineMs := drainDeadlineMs[victim := now + cfg.drainTimeout];
      drainTarget := drainTarget[victim := survivor];
      zoneStates := zoneStates[victim := Draining][survivor := Ready];
      lastLifecycleMs := lastLifecycleMs[victim := now][survivor := now];
    }

    /** The partner with the least (or greatest) volume, the first one on a tie. */
    method PickPartner(fd: int, smallest: bool, ghost h: Head) returns (p: Option<Zone>)
      requires Valid() && Find(activeZones, fd).Some? && h == Record()
      ensures p.Some? <==> HasPartner(h, fd)
      ensures p.Some? && smallest ==> SmallestPartner(h, fd, p.value)
      ensures p.Some? && !smallest ==> LargestPartner(h, fd, p.value)
      ensures var box := Find(activeZones, fd).value.box;
              p.Some? && box.NonEmpty() && p.value.box.NonEmpty() ==> SharesFace(box, p.value.box)
    {
      var ready := ReadyNeighbours(fd, h);
      if ready == [] {
        return None;
      }
      var k := Extreme(ready, smallest);
      p := Some(ready[k]);
      assert Partner(h, fd, ready[k]);
      if Find(activeZones, fd).value.box.NonEmpty() && ready[k].box.NonEmpty() {
        PartnerIff(h, fd, ready[k]);
      }
    }

    method ReadyNeighbours(fd: int, ghost h: Head) returns (ready: seq<Zone>)
      requires Valid() && Find(activeZones, fd).Some? && h == Record()
      ensures forall z :: z in ready <==> Partner(h, fd, z)
    {
      var fds := FindNeighbours(fd, Face);
      ready := [];
      for i := 0 to |fds|
        invariant ready == ReadyAmong(zoneStates, activeZones, fds[..i])
      {
        assert fds[..i + 1][..i] == fds[..i];
        var n := Find(activeZones, fds[i]);
        if n.Some? && StateIn(zoneStates, fds[i]) == Ready {
          ready := ready + [n.value];
        }
      }
      assert fds[..|fds|] == fds;
      ReadyArePartners(h, fd);
    }

    /** Scaling down: the idle zone takes over its smallest neighbour, once it has been idle for a whole window. */
    method TryMergeDown(fd: int, now: int) returns (acted: bool)
      requires Valid()
      modifies `activeZones, `zoneStates, `drainDeadlineMs, `drainRequestId, `drainTarget, `lcSeq, `lastLifecycleMs,
          `sent, `lowSinceMs
      ensures Valid()
      ensures old(sent) <= sent && MergeOutcome(old(Record()), Record(), sent[|old(sent)|..], fd, now, cfg, acted)
    {
      ghost var h := Record();
      assert sent[|old(sent)|..] == [];
      var victim := MergeCandidate(fd, now, h);
      if victim.None? {
        return false;
      }
      var v := victim.value;
      PartnerIsFound(h, fd, v);
      BeginDrain(v.fd, fd, now);
      lowSinceMs := lowSinceMs - {fd};
      assert MergedInto(h, Record(), sent[|old(sent)|..], fd, v, now, cfg);
      return true;
    }

    /** The part of a load report that merges look at. */
    method NoteLoad(fd: int, low: bool, now: int)
      modifies `lowSinceMs
      ensures Record() == old(Record()).(lowSince := LoadNoted(old(lowSinceMs), fd, low, now))
    {
      if low {
        if fd !in lowSinceMs {
          lowSinceMs := lowSinceMs[fd := now];
        }
      } else {
        lowSinceMs := lowSinceMs - {fd};
      }
    }

    method MayDrain(fd: int) returns (ok: bool)
      ensures ok <==> CanDrain(Record(), fd, cfg)
    {
      var n := RoutableZoneCount();
      ok := n > cfg.minReplicas && StateIn(zoneStates, fd) == Ready && Find(activeZones, fd).Some?;
    }

    method MayMerge(fd: int, now: int) returns (ok: bool)
      ensures ok <==> CanMerge(Record(), fd, now, cfg)
    {
      ok := MayDrain(fd);
      if fd in lastLifecycleMs && now - lastLifecycleMs[fd] < cfg.mergeWindow {
        ok := false;
      }
    }

    /** Whether the zone has been idle for a whole window; the first idle report opens it. */
    method IdleLongEnough(fd: int, now: int) returns (ok: bool)
      modifies `lowSinceMs
      ensures lowSinceMs == if fd in old(lowSinceMs) then old(lowSinceMs) else old(lowSinceMs)[fd := now]
      ensures ok <==> LongIdle(old(Record()), fd, now, cfg)
    {
      if fd !in lowSinceMs {
        lowSinceMs := lowSinceMs[fd := now];
        return false;
      }
      ok := now - lowSinceMs[fd] >= cfg.mergeWindow;
    }

    /** The guards of a merge. Without a partner the idle window restarts. */
    method MergeCandidate(fd: int, now: int, ghost h: Head) returns (victim: Option<Zone>)
      requires Valid() && h == Record()
      modifies `lowSinceMs
      ensures victim.Some? <==> CanMerge(h, fd, now, cfg) && HasPartner(h, fd) && LongIdle(h, fd, now, cfg)
      ensures Record() == h.(lowSince := IdleAfter(h, fd, now, cfg))
      ensures victim.Some? ==> SmallestPartner(h, fd, victim.value)
    {
      var ok := MayMerge(fd, now);
      if !ok {
        return None;
      }
      victim := PickPartner(fd, true, h);
      if victim.None? {
        lowSinceMs := lowSinceMs - {fd};
        return None;
      }
      var idle := IdleLongEnough(fd, now);
      if !idle {
        return None;
      }
    }

    method ReassignCandidate(fd: int, ghost h: Head) returns (survivor: Option<Zone>)
      requires Valid() && h == Record()
      ensures survivor.Some? <==> CanDrain(h, fd, cfg) && HasPartner(h, fd)
      ensures survivor.Some? ==> LargestPartner(h, fd, survivor.value)
    {
      var ok := MayDrain(fd);
      if !ok {
        return None;
      }
      survivor := PickPartner(fd, false, h);
    }

    /** Handing a failing zone over: it is drained into its largest healthy neighbour. */
    method TryReassign(fd: int, now: int) returns (acted: bool)
      requires Valid()
      modifies `activeZones, `zoneStates, `drainDeadlineMs, `drainRequestId, `drainTarget, `lcSeq, `lastLifecycleMs,
          `sent
      ensures Valid()
      ensures old(sent) <= sent && ReassignOutcome(old(Record()), Record(), sent[|old(sent)|..], fd, now, cfg, acted)
    {
      ghost var h := Record();
      assert sent[|old(sent)|..] == [];
      var survivor := ReassignCandidate(fd, h);
      acted := survivor.Some?;
      if !acted {
        assert Record() == h && ReassignOutcome(h, h, [], fd, now, cfg, false);
        return;
      }
      HandOver(fd, survivor.value, now, h);
    }

    method HandOver(fd: int, s: Zone, now: int, ghost h: Head)
      requires Valid() && h == Record() && LargestPartner(h, fd, s) && CanDrain(h, fd, cfg)
      modifies `activeZones, `zoneStates, `drainDeadlineMs, `drainRequestId, `drainTarget, `lcSeq, `lastLifecycleMs,
          `sent
      ensures Valid() && old(sent) <= sent && ReassignOutcome(h, Record(), sent[|old(sent)|..], fd, now, cfg, true)
    {
      PartnerAllowsDrain(h, fd, s, now, cfg.drainTimeout);
      BeginDrain(fd, s.fd, now);
      assert sent[|old(sent)|..] == DrainTraffic(h, fd, s.fd);
      ReassignDone(h, Record(), sent[|old(sent)|..], fd, s, now, cfg);
    }

    /** Scaling up. Whether the child could be started is the environment's answer. */
    method TrySplitDown(fd: int, now: int, spawnWorks: bool) returns (acted: bool, spawn: Spawn)
      requires Valid()
      modifies `atSplitFloor, `lastScaleTime, `sent
      ensures Valid()
      ensures old(sent) <= sent
      ensures SplitOutcome(
                old(Record()), Record(), sent[|old(sent)|..], spawn, fd, now, cfg, spawnWorks, acted)
    {
      ghost var h := Record();
      assert sent[|old(sent)|..] == [];
      acted, spawn := false, NoSpawn;
      var plan := SplitCandidate(fd, now);
      if plan.Some? && spawnWorks {
        var box, p := Find(activeZones, fd).value.box, plan.value;
        spawn := Spawn(HighHalf(box, p.axis, p.bottom));
        lastScaleTime := lastScaleTime[fd := now];
        sent := sent + [Envelope(fd, Resize(p.axis, box.At(p.axis).lo, p.top))];
        acted := true;
        ghost var traffic := sent[|old(sent)|..];
        assert traffic == [Envelope(fd, Resize(p.axis, box.At(p.axis).lo, p.top))];
        assert SplitBy(box, ProfileOf(h, fd), p, traffic, spawn, fd);
      }
    }

    /** The guards of a split and its plan; a zone down to one chunk is remembered as unsplittable. */
    method SplitCandidate(fd: int, now: int) returns (plan: Option<Plan>)
      requires Valid()
      modifies `atSplitFloor
      ensures plan.Some? <==> CanSplit(Record(), fd, now, cfg) && !SingleChunk(Find(activeZones, fd).value.box)
      ensures plan.Some? ==> IsPlan(Find(activeZones, fd).value.box, ProfileOf(Record(), fd), plan.value)
      ensures atSplitFloor == FloorAfter(old(Record()), fd, now, cfg)
    {
      var me := Find(activeZones, fd);
      if me.None? || StateIn(zoneStates, fd) != Ready {
        return None;
      }
      if fd in lastScaleTime && now - lastScaleTime[fd] < cfg.cooldown {
        return None;
      }
      plan := PlanSplit(me.value.box, if fd in popProfiles then Some(popProfiles[fd]) else None);
      atSplitFloor := if plan.None? then atSplitFloor + {fd} else atSplitFloor - {fd};
    }

    method EnqueueLifecycle(fd: int, op: LifecycleOp)
      modifies `pendingLifecycle
      ensures var was := old(pendingLifecycle);
              pendingLifecycle == was[fd := Queued(if fd in was then Some(was[fd]) else None, op)]
    {
      if fd !in pendingLifecycle {
        pendingLifecycle := pendingLifecycle[fd := op];
        return;
      }
      var there := pendingLifecycle[fd];
      if (op.Scaling() && there.Scaling()) || op.Priority() > there.Priority() {
        pendingLifecycle := pendingLifecycle[fd := op];
      }
    }

    /** The scan of the queue, in ascending order of descriptor. */
    method NextOperation(now: int) returns (best: Option<int>)
      ensures best.None? <==> forall fd :: fd in pendingLifecycle ==> !Settled(Record(), fd, now, cfg)
      ensures best.Some? ==> IsNext(Record(), best.value, now, cfg)
      ensures best.Some? ==> forall fd :: fd < best.value ==> !IsNext(Record(), fd, now, cfg)
    {
      best := None;
      ghost var h := Record();
      var left := pendingLifecycle.Keys;
      while left != {}
        invariant left <= pendingLifecycle.Keys
        invariant forall done, g :: done in pendingLifecycle.Keys - left && g in left ==> done < g
        invariant best.Some? ==> best.value in pendingLifecycle.Keys - left && Settled(h, best.value, now, cfg)
        invariant forall fd :: fd in pendingLifecycle.Keys - left && Settled(h, fd, now, cfg) ==>
                    && best.Some? && pendingLifecycle[fd].Priority() <= pendingLifecycle[best.value].Priority()
                    && (fd < best.value ==> pendingLifecycle[fd].Priority() < pendingLifecycle[best.value].Priority())
      {
        ghost var least := LeastExists(left);
        var fd :| fd in left && forall g :: g in left ==> fd <= g;
        assert forall g :: g in pendingLifecycle.Keys - (left - {fd}) ==> g == fd || g in pendingLifecycle.Keys - left;
        left := left - {fd};
        if best.Some? && pendingLifecycle[fd].Priority() <= pendingLifecycle[best.value].Priority() {
          continue;
        }
        if fd in lastLifecycleMs && now - lastLifecycleMs[fd] < cfg.settle {
          continue;
        }
        best := Some(fd);
      }
    }

    /** Runs at most one operation: the most urgent one whose zone is outside its settle window. */
    method ProcessLifecycleQueue(now: int, spawnWorks: bool) returns (ran: Option<int>, spawn: Spawn)
      requires Valid()
      modifies this
      ensures Valid() && old(sent) <= sent
      ensures exists done: Head, acted: bool ::
                Processed(old(Record()), Record(), sent[|old(sent)|..], now, cfg, spawnWorks, ran, done, acted, spawn)
    {
      spawn := NoSpawn;
      ran := NextOperation(now);
      if ran.None? {
        assert Processed(Record(), Record(), [], now, cfg, spawnWorks, ran, Record(), false, spawn);
        assert sent[|old(sent)|..] == [];
        return;
      }
      var fd := ran.value;
      var op := pendingLifecycle[fd];
      pendingLifecycle := pendingLifecycle - {fd};
      ghost var h1 := Record();
      var acted := true;
      match op {
        case Evict =>
          EvictStaleZone(fd);
          assert sent[|old(sent)|..] == [];
        case Reassign =>
          ghost var done := TryReassign(fd, now);
        case Merge =>
          acted := TryMergeDown(fd, now);
        case Split =>
          acted, spawn := TrySplitDown(fd, now, spawnWorks);
      }
      ghost var done := Record();
      assert Executed(h1, done, sent[|old(sent)|..], fd, op, now, cfg, spawnWorks, spawn, acted);
      if acted {
        lastLifecycleMs := lastLifecycleMs[fd := now];
      }
      assert Processed(old(Record()), Record(), sent[|old(sent)|..], now, cfg, spawnWorks, ran, done, acted, spawn);
    }
  }

  // ------------------------------------------------------------------------------------------------
  // What every lifecycle operation keeps
  // ------------------------------------------------------------------------------------------------

  lemma PartnerAllowsDrain(h: Head, fd: int, z: Zone, now: int, timeout: int)
    requires UniqueFds(h.zones) && Partner(h, fd, z) && h.State(fd) == Ready
    ensures Allowed(h, OpDrain(z.fd, fd, now, timeout)) && Allowed(h, OpDrain(fd, z.fd, now, timeout))
  {
    PartnerIsFound(h, fd, z);
  }

  lemma ReassignDone(h: Head, h': Head, traffic: seq<Envelope>, fd: int, s: Zone, now: int, cfg: Config)
    requires CanDrain(h, fd, cfg) && HasPartner(h, fd) && ReassignedTo(h, h', traffic, fd, s, now, cfg)
    ensures ReassignOutcome(h, h', traffic, fd, now, cfg, true)
  {
  }

  /** A merge that acts is a legal drain: it keeps the drain books and never goes below the replica floor. */
  lemma MergeIsLegal(h: Head, h': Head, traffic: seq<Envelope>, fd: int, now: int, cfg: Config, acted: bool)
    requires Bookkept(h) && MergeOutcome(h, h', traffic, fd, now, cfg, acted)
    ensures Bookkept(h')
    ensures acted ==> h'.RoutableCount() == h.RoutableCount() - 1 >= cfg.minReplicas
    ensures !acted ==> h'.RoutableCount() == h.RoutableCount()
  {
    if acted {
      var v :| MergedInto(h, h', traffic, fd, v, now, cfg);
      PartnerAllowsDrain(h, fd, v, now, cfg.drainTimeout);
      DrainKeepsBooks(h, v.fd, fd, now, cfg.drainTimeout);
      DrainKeepsReplicas(h, v.fd, fd, now, cfg.drainTimeout, cfg.minReplicas);
    }
  }

  /** What else `fd` could be merged with or drained into: a ready zone with a proper box across a face. */
  ghost predicate Candidate(h: Head, fd: int, z: Zone) {
    && z in h.zones && z.fd != fd && h.State(z.fd) == Ready
    && Find(h.zones, fd).Some? && SharesFace(Find(h.zones, fd).value.box, z.box)
  }

  /**
   Between proper boxes: a merge that acts drains, into the zone it was asked for, a ready zone across a face with the
   fewest chunks of all these.
   */
  lemma MergeTakesTheSmallest(h: Head, h': Head, traffic: seq<Envelope>, fd: int, now: int, cfg: Config)
    returns (v: Zone)
    requires MergeOutcome(h, h', traffic, fd, now, cfg, true)
    requires forall z :: z in h.zones ==> z.box.NonEmpty()
    ensures Candidate(h, fd, v) && h'.State(v.fd) == Draining && v.fd in h'.targets && h'.targets[v.fd] == fd
    ensures forall z :: Candidate(h, fd, z) ==> v.box.Volume() <= z.box.Volume()
  {
    v :| MergedInto(h, h', traffic, fd, v, now, cfg);
    DrainZones(h, v.fd, fd, now, cfg.drainTimeout);
    assert Partner(h, fd, v);
    forall z | z in h.zones ensures Partner(h, fd, z) <==> Candidate(h, fd, z) {
      PartnerIff(h, fd, z);
    }
  }

  /** And a reassign that acts drains the zone it was asked for into one of these with the most chunks. */
  lemma ReassignTakesTheLargest(h: Head, h': Head, traffic: seq<Envelope>, fd: int, now: int, cfg: Config)
    returns (w: Zone)
    requires ReassignOutcome(h, h', traffic, fd, now, cfg, true)
    requires forall z :: z in h.zones ==> z.box.NonEmpty()
    ensures Candidate(h, fd, w) && h'.State(fd) == Draining && fd in h'.targets && h'.targets[fd] == w.fd
    ensures forall z :: Candidate(h, fd, z) ==> z.box.Volume() <= w.box.Volume()
  {
    w :| ReassignedTo(h, h', traffic, fd, w, now, cfg);
    DrainZones(h, fd, w.fd, now, cfg.drainTimeout);
    assert Partner(h, fd, w);
    forall z | z in h.zones ensures Partner(h, fd, z) <==> Candidate(h, fd, z) {
      PartnerIff(h, fd, z);
    }
  }

  lemma ReassignIsLegal(h: Head, h': Head, traffic: seq<Envelope>, fd: int, now: int, cfg: Config, acted: bool)
    requires Bookkept(h) && ReassignOutcome(h, h', traffic, fd, now, cfg, acted)
    ensures Bookkept(h')
    ensures acted ==> h'.RoutableCount() == h.RoutableCount() - 1 >= cfg.minReplicas
    ensures !acted ==> h'.RoutableCount() == h.RoutableCount()
  {
    if acted {
      var s :| ReassignedTo(h, h', traffic, fd, s, now, cfg);
      PartnerAllowsDrain(h, fd, s, now, cfg.drainTimeout);
      DrainKeepsBooks(h, fd, s.fd, now, cfg.drainTimeout);
      DrainKeepsReplicas(h, fd, s.fd, now, cfg.drainTimeout, cfg.minReplicas);
    }
  }

  /** Every operation the queue can run keeps the drain books in order. */
  lemma ExecutedKeepsBooks(
    h: Head, h': Head, traffic: seq<Envelope>, fd: int, op: LifecycleOp, now: int, cfg: Config, spawnWorks: bool,
    spawn: Spawn, acted: bool)
    requires Bookkept(h) && Executed(h, h', traffic, fd, op, now, cfg, spawnWorks, spawn, acted)
    ensures Bookkept(h')
  {
    match op {
      case Evict => EvictKeepsBooks(h, fd);
      case Reassign =>
        var done :| ReassignOutcome(h, h', traffic, fd, now, cfg, done);
        ReassignIsLegal(h, h', traffic, fd, now, cfg, done);
      case Merge => MergeIsLegal(h, h', traffic, fd, now, cfg, acted);
      case Split =>
    }
  }

  // ------------------------------------------------------------------------------------------------
  // Partners
  // ------------------------------------------------------------------------------------------------

  lemma FindMember(zones: seq<Zone>, z: Zone)
    requires UniqueFds(zones) && z in zones
    ensures Find(zones, z.fd) == Some(z)
  {
    var i :| 0 <= i < |zones| && zones[i] == z;
    FindUnique(zones, i);
  }

  lemma PartnerIsFound(h: Head, fd: int, z: Zone)
    requires UniqueFds(h.zones) && Partner(h, fd, z)
    ensures Find(h.zones, z.fd) == Some(z)
  {
    FindMember(h.zones, z);
  }

  lemma ReadyIsPartner(h: Head, fd: int, z: Zone)
    requires UniqueFds(h.zones) && Find(h.zones, fd).Some?
    ensures var fds := Neighbours(h.states, h.zones, fd, Find(h.zones, fd).value.box, Face);
            z in ReadyAmong(h.states, h.zones, fds) <==> Partner(h, fd, z)
  {
    var box := Find(h.zones, fd).value.box;
    var fds := Neighbours(h.states, h.zones, fd, box, Face);
    ReadyAmongMember(h.states, h.zones, fds, z);
    NeighboursMember(h.states, h.zones, fd, box, Face, z.fd);
    if z in h.zones {
      FindMember(h.zones, z);
    }
    if z.fd in fds {
      var y :| y in h.zones && y.fd == z.fd && z.fd != fd && IsNeighbour(box, y.box, Face);
      FindMember(h.zones, y);
    }
  }

  /** The ready face neighbours are exactly the partners. */
  lemma ReadyArePartners(h: Head, fd: int)
    requires UniqueFds(h.zones) && Find(h.zones, fd).Some?
    ensures var fds := Neighbours(h.states, h.zones, fd, Find(h.zones, fd).value.box, Face);
            forall z :: z in ReadyAmong(h.states, h.zones, fds) <==> Partner(h, fd, z)
  {
    var fds := Neighbours(h.states, h.zones, fd, Find(h.zones, fd).value.box, Face);
    forall z: Zone ensures z in ReadyAmong(h.states, h.zones, fds) <==> Partner(h, fd, z) {
      ReadyIsPartner(h, fd, z);
    }
  }

  lemma {:induction false} LeastExists(s: set<int>) returns (m: int)
    requires s != {}
    ensures m in s && forall g :: g in s ==> m <= g
  {
    assert (forall x: int :: x !in s) ==> s == {};
    m :| m in s;
    if s != {m} {
      var rest := s - {m};
      assert s == rest + {m};
      var other := LeastExists(rest);
      m := if m < other then m else other;
    }
  }
}
