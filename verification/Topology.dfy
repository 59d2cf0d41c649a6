/**
 The head's record of the cluster and the operations on it, as values: the registered zones, their lifecycle
 states, the open drains and the queue of lifecycle operations. `Orchestrator` is the object that holds this
 record; `Cluster` puts it together with the zones it commands.
 */
module Topology {
  import opened Geometry
  import opened Population

  datatype ZoneState = Provisioning | Ready | Draining | Dead | Destroyed

  datatype Zone = Zone(fd: int, box: Box, addr: string, port: int)

  /** Lifecycle operations, by ascending priority. */
  datatype LifecycleOp = Split | Merge | Reassign | Evict {
    function Priority(): nat {
      match this
      case Split => 0
      case Merge => 1
      case Reassign => 2
      case Evict => 3
    }

    /** Merge and split contradict each other; they are not a question of priority. */
    predicate Scaling() { this == Merge || this == Split }
  }

  /** What the head sends to a zone. */
  datatype Message =
    | Resize(axis: Axis, newMin: int, newMax: int)
    | Relocate(chunk: Chunk)
    | DrainRequest(requestId: nat)
    | DeleteZone(requestId: nat)

  datatype Envelope = Envelope(fd: int, message: Message)

  /** What a zone reports about itself with its metrics. */
  datatype Report = Report(box: Box, addr: string, port: int, profile: Profile)

  datatype Head = Head(
    zones: seq<Zone>,
    states: map<int, ZoneState>,
    deadlines: map<int, int>,
    requests: map<int, nat>,
    targets: map<int, int>,
    nextRequest: nat,
    pending: map<int, LifecycleOp>,
    lastOp: map<int, int>,
    lowSince: map<int, int>,
    profiles: map<int, Profile>,
    atFloor: set<int>,
    lastScale: map<int, int>)
  {
    function State(fd: int): ZoneState { StateIn(states, fd) }

    predicate Routable(fd: int) { RoutableIn(states, fd) }

    /** The first routable zone, in order of registration, that contains the chunk. */
    function Route(c: Chunk): Option<Zone> { FirstServing(states, zones, c) }

    function RoutableCount(): nat { CountRoutable(states, zones) }
  }

  type States = map<int, ZoneState>

  /** A zone nothing was ever recorded about is ready. */
  function StateIn(states: States, fd: int): ZoneState { if fd in states then states[fd] else Ready }

  predicate RoutableIn(states: States, fd: int) {
    var s := StateIn(states, fd);
    s != Draining && s != Dead && s != Destroyed
  }

  function FirstServing(states: States, zones: seq<Zone>, c: Chunk): Option<Zone> {
    if zones == [] then None
    else if RoutableIn(states, zones[0].fd) && zones[0].box.Has(c) then Some(zones[0])
    else FirstServing(states, zones[1..], c)
  }

  function CountRoutable(states: States, zones: seq<Zone>): nat {
    if zones == [] then 0
    else CountRoutable(states, zones[..|zones| - 1]) + (if RoutableIn(states, zones[|zones| - 1].fd) then 1 else 0)
  }

  // ------------------------------------------------------------------------------------------------
  // The zone list
  // ------------------------------------------------------------------------------------------------

  predicate UniqueFds(zones: seq<Zone>) {
    forall i, j :: 0 <= i < j < |zones| ==> zones[i].fd != zones[j].fd
  }

  function Find(zones: seq<Zone>, fd: int): (r: Option<Zone>)
    ensures r.Some? ==> r.value in zones && r.value.fd == fd
    ensures r.None? ==> forall i :: 0 <= i < |zones| ==> zones[i].fd != fd
  {
    if zones == [] then None
    else if zones[0].fd == fd then Some(zones[0])
    else Find(zones[1..], fd)
  }

  lemma {:induction false} FindUnique(zones: seq<Zone>, i: nat)
    requires UniqueFds(zones) && i < |zones|
    ensures Find(zones, zones[i].fd) == Some(zones[i])
  {
    if i > 0 {
      assert zones[0].fd != zones[i].fd;
      FindUnique(zones[1..], i - 1);
    }
  }

  /** Writes `z` over the entry with its descriptor. */
  function Put(zones: seq<Zone>, z: Zone): (r: seq<Zone>)
    ensures |r| == |zones|
    ensures forall i :: 0 <= i < |zones| ==> r[i] == (if zones[i].fd == z.fd then z else zones[i])
    ensures UniqueFds(zones) ==> UniqueFds(r)
  {
    seq(|zones|, i requires 0 <= i < |zones| => if zones[i].fd == z.fd then z else zones[i])
  }

  lemma {:induction false} FindPut(zones: seq<Zone>, z: Zone, fd: int)
    ensures Find(Put(zones, z), fd) == if fd == z.fd && Find(zones, fd).Some? then Some(z) else Find(zones, fd)
  {
    if zones != [] {
      FindPut(zones[1..], z, fd);
      assert Put(zones, z)[1..] == Put(zones[1..], z);
    }
  }

  /** The position of a descriptor, or the length of the list. */
  function IndexOf(zones: seq<Zone>, fd: int): (k: nat)
    ensures k <= |zones|
    ensures forall i :: 0 <= i < k ==> zones[i].fd != fd
    ensures k < |zones| ==> zones[k].fd == fd
  {
    if zones == [] then 0
    else if zones[0].fd == fd then 0
    else 1 + IndexOf(zones[1..], fd)
  }

  function Drop(zones: seq<Zone>, fd: int): (r: seq<Zone>)
    ensures forall z :: z in r ==> z in zones
    ensures UniqueFds(zones) ==> UniqueFds(r)
  {
    var k := IndexOf(zones, fd);
    if k == |zones| then zones else zones[..k] + zones[k + 1..]
  }

  lemma FindDrop(zones: seq<Zone>, fd: int, g: int)
    requires UniqueFds(zones)
    ensures Find(Drop(zones, fd), g) == if g == fd then None else Find(zones, g)
  {
    var k, r := IndexOf(zones, fd), Drop(zones, fd);
    assert forall i :: 0 <= i < |r| ==> r[i].fd != fd && r[i] in zones;
    if g != fd && Find(zones, g).Some? {
      var i := IndexOf(zones, g);
      FindUnique(zones, i);
      var j := if i < k then i else i - 1;
      assert r[j] == zones[i];
      FindUnique(r, j);
    }
  }

  lemma {:induction false} FindAppend(zones: seq<Zone>, z: Zone, fd: int)
    requires Find(zones, z.fd).None?
    ensures Find(zones + [z], fd) == if fd == z.fd then Some(z) else Find(zones, fd)
  {
    if zones == [] {
      assert (zones + [z])[1..] == [];
    } else {
      assert (zones + [z])[1..] == zones[1..] + [z];
      assert zones[0].fd != z.fd;
      FindAppend(zones[1..], z, fd);
    }
  }

  // ------------------------------------------------------------------------------------------------
  // Routing
  // ------------------------------------------------------------------------------------------------

  lemma {:induction false} RouteIsServing(states: States, zones: seq<Zone>, c: Chunk)
    ensures var r := FirstServing(states, zones, c);
            && (r.Some? ==> r.value in zones && RoutableIn(states, r.value.fd) && r.value.box.Has(c))
            && (r.None? ==> forall z :: z in zones ==> !(RoutableIn(states, z.fd) && z.box.Has(c)))
  {
    if zones != [] {
      RouteIsServing(states, zones[1..], c);
      assert forall z :: z in zones ==> z == zones[0] || z in zones[1..];
    }
  }

  /** A retiring or gone zone is never routed to, and a chunk is unrouted only if every zone that has it is. */
  lemma RetiringIsNotRouted(h: Head, c: Chunk)
    ensures h.Route(c).Some? ==>
              h.State(h.Route(c).value.fd) == Provisioning || h.State(h.Route(c).value.fd) == Ready
    ensures h.Route(c).None? ==> forall z :: z in h.zones && z.box.Has(c) ==>
              h.State(z.fd) == Draining || h.State(z.fd) == Dead || h.State(z.fd) == Destroyed
  {
    RouteIsServing(h.states, h.zones, c);
  }

  lemma {:induction false} SameServing(states: States, after: States, zones: seq<Zone>, c: Chunk)
    requires forall g :: RoutableIn(after, g) <==> RoutableIn(states, g)
    ensures FirstServing(after, zones, c) == FirstServing(states, zones, c)
  {
    if zones != [] {
      SameServing(states, after, zones[1..], c);
    }
  }

  lemma {:induction false} UnroutableIsSkipped(states: States, a: seq<Zone>, z: Zone, b: seq<Zone>, c: Chunk)
    requires !RoutableIn(states, z.fd)
    ensures FirstServing(states, a + [z] + b, c) == FirstServing(states, a + b, c)
  {
    if a == [] {
      assert (a + [z] + b)[1..] == b && a + b == b;
    } else {
      UnroutableIsSkipped(states, a[1..], z, b, c);
      assert (a + [z] + b)[1..] == a[1..] + [z] + b && (a + b)[1..] == a[1..] + b;
    }
  }

  /** A zone that is not routable may as well be taken off the list. */
  lemma DropUnrouted(states: States, zones: seq<Zone>, fd: int, c: Chunk)
    requires !RoutableIn(states, fd)
    ensures FirstServing(states, Drop(zones, fd), c) == FirstServing(states, zones, c)
  {
    var k := IndexOf(zones, fd);
    if k < |zones| {
      UnroutableIsSkipped(states, zones[..k], zones[k], zones[k + 1..], c);
      assert zones == zones[..k] + [zones[k]] + zones[k + 1..];
    }
  }

  /** The head's own copies of the boxes it routes to are pairwise disjoint. */
  ghost predicate CopiesDisjoint(h: Head) {
    forall y, z :: y in h.zones && z in h.zones && y.fd != z.fd && h.Routable(y.fd) && h.Routable(z.fd) ==>
      Disjoint(y.box, z.box)
  }

  /** With disjoint copies, routing does not depend on the order in which the zones registered. */
  lemma RouteIgnoresOrder(h: Head, k: Head, c: Chunk)
    requires UniqueFds(h.zones) && UniqueFds(k.zones) && CopiesDisjoint(h)
    requires multiset(k.zones) == multiset(h.zones) && k.states == h.states
    ensures h.Route(c) == k.Route(c)
  {
    RouteIsServing(h.states, h.zones, c);
    RouteIsServing(k.states, k.zones, c);
    forall z: Zone ensures z in h.zones <==> z in k.zones {
      assert z in h.zones <==> z in multiset(h.zones);
      assert z in k.zones <==> z in multiset(k.zones);
    }
    if h.Route(c).Some? && k.Route(c).Some? {
      var y, z := h.Route(c).value, k.Route(c).value;
      assert y.fd == z.fd by {
        assert y.fd != z.fd ==> Disjoint(y.box, z.box);
        assert y.box.Has(c) && z.box.Has(c);
      }
      var i, j :| 0 <= i < |h.zones| && 0 <= j < |h.zones| && h.zones[i] == y && h.zones[j] == z;
      assert i == j;
    }
  }

  // ------------------------------------------------------------------------------------------------
  // Operations on the record
  // ------------------------------------------------------------------------------------------------

  /** A known zone's entry is rewritten, an unknown zone is registered unless it is retiring or gone. */
  function Registered(zones: seq<Zone>, states: States, fd: int, r: Report): seq<Zone> {
    var z := Zone(fd, r.box, r.addr, r.port);
    if Find(zones, fd).Some? then Put(zones, z) else if RoutableIn(states, fd) then zones + [z] else zones
  }

  /** A metrics report. */
  function Hear(h: Head, fd: int, r: Report): Head {
    h.(profiles := h.profiles[fd := r.profile], zones := Registered(h.zones, h.states, fd, r))
  }

  /** The box the survivor takes over, if the two boxes make one. */
  function Absorbed(zones: seq<Zone>, survivor: int, victim: int): Option<Box> {
    var s, v := Find(zones, survivor), Find(zones, victim);
    if s.None? || v.None? then None
    else
      match MergeableAxis(s.value.box, v.value.box)
      case None => None
      case Some(a) => Some(Absorb(s.value.box, v.value.box, a))
  }

  /** The resize the survivor is told about, if any. */
  function AbsorbMessage(zones: seq<Zone>, survivor: int, victim: int): Option<Message> {
    var s, v := Find(zones, survivor), Find(zones, victim);
    if s.None? || v.None? then None
    else
      match MergeableAxis(s.value.box, v.value.box)
      case None => None
      case Some(a) =>
        var r := Absorb(s.value.box, v.value.box, a).At(a);
        Some(Resize(a, r.lo, r.hi))
  }

  function AbsorbRegion(h: Head, survivor: int, victim: int): Head {
    match Absorbed(h.zones, survivor, victim)
    case None => h
    case Some(b) => h.(zones := Put(h.zones, Find(h.zones, survivor).value.(box := b)))
  }

  function OpenDrain(h: Head, victim: int, survivor: int, now: int, timeout: int): Head {
    h.(requests := h.requests[victim := h.nextRequest],
    deadlines := h.deadlines[victim := now + timeout],
    targets := h.targets[victim := survivor],
    nextRequest := h.nextRequest + 1,
    states := h.states[victim := Draining][survivor := Ready],
    lastOp := h.lastOp[victim := now][survivor := now])
  }

  /** Opens the drain of `victim`; its region goes to `survivor` at once, if the two boxes make one. */
  function StartDrain(h: Head, victim: int, survivor: int, now: int, timeout: int): Head {
    AbsorbRegion(OpenDrain(h, victim, survivor, now, timeout), survivor, victim)
  }

  function CloseDrain(h: Head, fd: int): Head {
    h.(requests := h.requests - {fd}, deadlines := h.deadlines - {fd}, targets := h.targets - {fd})
  }

  /** The fail-safe: a drain that was not acknowledged in time puts the zone back to work. */
  function ExpireDrain(h: Head, fd: int, now: int): Head {
    if h.State(fd) == Draining && fd in h.deadlines && now > h.deadlines[fd]
    then CloseDrain(h.(states := h.states[fd := Ready]), fd)
    else h
  }

  predicate AckAccepted(h: Head, fd: int, id: nat) {
    h.State(fd) == Draining && (fd in h.requests ==> h.requests[fd] == id)
  }

  function Forget(h: Head, fd: int): Head {
    h.(zones := Drop(h.zones, fd), atFloor := h.atFloor - {fd}, profiles := h.profiles - {fd})
  }

  /** The zone confirms its drain: it leaves the topology. A stale confirmation changes nothing. */
  function AckDrain(h: Head, fd: int, id: nat, now: int): Head {
    if AckAccepted(h, fd, id)
    then CloseDrain(Forget(h, fd).(states := h.states[fd := Destroyed], lastOp := h.lastOp[fd := now]), fd)
    else h
  }

  function EvictZone(h: Head, fd: int): Head {
    Forget(CloseDrain(h.(states := h.states[fd := Dead]), fd), fd)
  }

  predicate Level(z: Zone, c: Chunk) { z.box.y.Has(c.y) && z.box.z.Has(c.z) }

  function FirstLevel(states: States, zones: seq<Zone>, c: Chunk): Option<Zone> {
    if zones == [] then None
    else if RoutableIn(states, zones[0].fd) && Level(zones[0], c) then Some(zones[0])
    else FirstLevel(states, zones[1..], c)
  }

  function FirstRoutable(states: States, zones: seq<Zone>): Option<Zone> {
    if zones == [] then None
    else if RoutableIn(states, zones[0].fd) then Some(zones[0])
    else FirstRoutable(states, zones[1..])
  }

  /**
   The zone a miss is answered with: the first routable one level with the chunk on Y and Z, else the first routable
   one.
   */
  function RelocationChoice(h: Head, c: Chunk): Option<Zone> {
    var level := FirstLevel(h.states, h.zones, c);
    if level.Some? then level else FirstRoutable(h.states, h.zones)
  }

  function RelocateHead(h: Head, c: Chunk): Head {
    match RelocationChoice(h, c)
    case None => h
    case Some(z) => h.(zones := Put(h.zones, z.(box := Stretch(z.box, c))))
  }

  // ------------------------------------------------------------------------------------------------
  // The lifecycle queue
  // ------------------------------------------------------------------------------------------------

  /** The operation pending for a zone after one more was enqueued. */
  function Queued(there: Option<LifecycleOp>, op: LifecycleOp): LifecycleOp {
    match there
    case None => op
    case Some(p) => if (op.Scaling() && p.Scaling()) || op.Priority() > p.Priority() then op else p
  }

  /** The operation pending after a whole history of enqueues, oldest first. */
  function QueuedAll(ops: seq<LifecycleOp>): (r: Option<LifecycleOp>)
    ensures r.None? <==> ops == []
  {
    if ops == [] then None else Some(Queued(QueuedAll(ops[..|ops| - 1]), ops[|ops| - 1]))
  }

  /**
   Whatever was enqueued since a zone's last operation: an eviction if there was one, else a reassign if there
   was one, else the most recent of the merges and splits.
   */
  lemma {:induction false} QueueKeepsTheUrgent(ops: seq<LifecycleOp>)
    requires ops != []
    ensures QueuedAll(ops) == Some(if Evict in ops then Evict else if Reassign in ops then Reassign else ops[|ops| - 1])
  {
    var init, last := ops[..|ops| - 1], ops[|ops| - 1];
    assert ops == init + [last];
    if init != [] {
      QueueKeepsTheUrgent(init);
      assert Evict !in init && Reassign !in init ==> init[|init| - 1].Scaling();
    }
  }

  // ------------------------------------------------------------------------------------------------
  // Drain bookkeeping
  // ------------------------------------------------------------------------------------------------

  datatype HeadOp =
    | OpHear(fd: int, report: Report)
    | OpDrain(victim: int, survivor: int, now: int, timeout: int)
    | OpExpire(fd: int, now: int)
    | OpAck(fd: int, id: nat, now: int)
    | OpEvict(fd: int)
    | OpRelocate(chunk: Chunk)

  /** A drain is only ever opened between two different, ready, registered zones. */
  predicate Allowed(h: Head, op: HeadOp) {
    op.OpDrain? ==>
      && op.victim != op.survivor
      && h.State(op.victim) == Ready && h.State(op.survivor) == Ready
      && Find(h.zones, op.victim).Some? && Find(h.zones, op.survivor).Some?
  }

  function Do(h: Head, op: HeadOp): Head {
    match op
    case OpHear(fd, r) => Hear(h, fd, r)
    case OpDrain(v, s, now, timeout) => StartDrain(h, v, s, now, timeout)
    case OpExpire(fd, now) => ExpireDrain(h, fd, now)
    case OpAck(fd, id, now) => AckDrain(h, fd, id, now)
    case OpEvict(fd) => EvictZone(h, fd)
    case OpRelocate(c) => RelocateHead(h, c)
  }

  ghost predicate AllAllowed(h: Head, ops: seq<HeadOp>)
    decreases |ops|
  {
    ops != [] ==> Allowed(h, ops[0]) && AllAllowed(Do(h, ops[0]), ops[1..])
  }

  function DoAll(h: Head, ops: seq<HeadOp>): Head
    decreases |ops|
  {
    if ops == [] then h else DoAll(Do(h, ops[0]), ops[1..])
  }

  const EMPTY_HEAD: Head := Head([], map[], map[], map[], map[], 1, map[], map[], map[], map[], {}, map[])

  /** A zone is draining exactly while it has an open request, deadline and target; request ids are never reissued. */
  ghost predicate Books(
    states: States, requests: map<int, nat>, deadlines: map<int, int>, targets: map<int, int>, next: nat)
  {
    && (forall fd :: StateIn(states, fd) == Draining <==> fd in requests)
    && requests.Keys == deadlines.Keys == targets.Keys
    && (forall fd :: fd in requests ==> requests[fd] < next)
    && (forall fd :: fd in targets ==> targets[fd] != fd)
  }

  ghost predicate Bookkept(h: Head) {
    Listed(h.zones, h.states) && Books(h.states, h.requests, h.deadlines, h.targets, h.nextRequest)
  }

  /** Zones are listed once, and not at all once they are gone. */
  ghost predicate Listed(zones: seq<Zone>, states: States) {
    && UniqueFds(zones)
    && forall i :: 0 <= i < |zones| ==>
         StateIn(states, zones[i].fd) != Dead && StateIn(states, zones[i].fd) != Destroyed
  }

  lemma OpKeepsBooks(h: Head, op: HeadOp)
    requires Bookkept(h) && Allowed(h, op)
    ensures Bookkept(Do(h, op))
  {
    match op {
      case OpHear(fd, r) => HearKeepsBooks(h, fd, r);
      case OpDrain(v, s, now, timeout) => DrainKeepsBooks(h, v, s, now, timeout);
      case OpExpire(fd, now) => ExpireKeepsBooks(h, fd, now);
      case OpAck(fd, id, now) => AckKeepsBooks(h, fd, id, now);
      case OpEvict(fd) => EvictKeepsBooks(h, fd);
      case OpRelocate(c) => RelocateKeepsBooks(h, c);
    }
  }

  lemma ExpireKeepsBooks(h: Head, fd: int, now: int)
    requires Bookkept(h)
    ensures Bookkept(ExpireDrain(h, fd, now))
  {
  }

  lemma RelocateKeepsBooks(h: Head, c: Chunk)
    requires Bookkept(h)
    ensures Bookkept(RelocateHead(h, c))
  {
    ChoiceIsRoutable(h, c);
    if RelocationChoice(h, c).Some? {
      var z := RelocationChoice(h, c).value;
      PutListed(h.zones, h.states, z.(box := Stretch(z.box, c)));
    }
  }

  lemma PutListed(zones: seq<Zone>, states: States, z: Zone)
    requires Listed(zones, states)
    ensures Listed(Put(zones, z), states)
  {
  }

  lemma AppendListed(zones: seq<Zone>, states: States, z: Zone)
    requires Listed(zones, states) && Find(zones, z.fd).None? && RoutableIn(states, z.fd)
    ensures Listed(zones + [z], states)
  {
  }

  lemma HearKeepsBooks(h: Head, fd: int, r: Report)
    requires Bookkept(h)
    ensures Bookkept(Hear(h, fd, r))
  {
    var z := Zone(fd, r.box, r.addr, r.port);
    PutListed(h.zones, h.states, z);
    if Find(h.zones, fd).None? && h.Routable(fd) {
      AppendListed(h.zones, h.states, z);
    }
  }

  lemma DrainKeepsBooks(h: Head, v: int, s: int, now: int, timeout: int)
    requires Bookkept(h) && Allowed(h, OpDrain(v, s, now, timeout))
    ensures Bookkept(StartDrain(h, v, s, now, timeout))
  {
    DrainZones(h, v, s, now, timeout);
    var after := h.states[v := Draining][s := Ready];
    BooksOpen(h.states, h.requests, h.deadlines, h.targets, h.nextRequest, v, s, now + timeout);
    assert Listed(h.zones, after);
    if Absorbed(h.zones, s, v).Some? {
      PutListed(h.zones, after, Find(h.zones, s).value.(box := Absorbed(h.zones, s, v).value));
    }
  }

  lemma BooksOpen(states: States, requests: map<int, nat>, deadlines: map<int, int>, targets: map<int, int>, next: nat,
                  v: int, s: int, deadline: int)
    requires Books(states, requests, deadlines, targets, next)
    requires v != s && StateIn(states, v) == Ready && StateIn(states, s) == Ready
    ensures Books(states[v := Draining][s := Ready], requests[v := next], deadlines[v := deadline], targets[v := s],
            next + 1)
  {
  }

  lemma AckKeepsBooks(h: Head, fd: int, id: nat, now: int)
    requires Bookkept(h)
    ensures Bookkept(AckDrain(h, fd, id, now))
  {
    DropForgets(h.zones, fd);
  }

  lemma EvictKeepsBooks(h: Head, fd: int)
    requires Bookkept(h)
    ensures Bookkept(EvictZone(h, fd))
  {
    DropForgets(h.zones, fd);
  }

  lemma DropForgets(zones: seq<Zone>, fd: int)
    requires UniqueFds(zones)
    ensures forall z :: z in Drop(zones, fd) ==> z in zones && z.fd != fd
  {
    FindDrop(zones, fd, fd);
  }

  lemma {:induction false} LevelIsRoutable(states: States, zones: seq<Zone>, c: Chunk)
    ensures var r := FirstLevel(states, zones, c); r.Some? ==> r.value in zones && RoutableIn(states, r.value.fd)
    ensures var r := FirstRoutable(states, zones); r.Some? ==> r.value in zones && RoutableIn(states, r.value.fd)
    ensures FirstRoutable(states, zones).None? ==> forall z :: z in zones ==> !RoutableIn(states, z.fd)
  {
    if zones != [] {
      LevelIsRoutable(states, zones[1..], c);
      assert forall z :: z in zones ==> z == zones[0] || z in zones[1..];
    }
  }

  lemma ChoiceIsRoutable(h: Head, c: Chunk)
    ensures var r := RelocationChoice(h, c);
            && (r.Some? ==> r.value in h.zones && h.Routable(r.value.fd))
            && (r.None? ==> forall z :: z in h.zones ==> !h.Routable(z.fd))
  {
    LevelIsRoutable(h.states, h.zones, c);
  }

  /** A zone that is evicted, or confirms its drain, leaves nothing behind in the record but its state. */
  lemma GoneIsForgotten(h: Head, fd: int, id: nat, now: int, evicted: bool)
    requires UniqueFds(h.zones) && (!evicted ==> AckAccepted(h, fd, id))
    ensures var k := if evicted then EvictZone(h, fd) else AckDrain(h, fd, id, now);
            && (forall z :: z in k.zones ==> z.fd != fd && z in h.zones)
            && (forall z :: z in h.zones && z.fd != fd ==> z in k.zones)
            && fd !in k.requests && fd !in k.deadlines && fd !in k.targets && fd !in k.profiles && fd !in k.atFloor
            && k.State(fd) == (if evicted then Dead else Destroyed)
            && (forall g :: g != fd ==> k.State(g) == h.State(g))
  {
    DropForgets(h.zones, fd);
    var k := IndexOf(h.zones, fd);
    forall z | z in h.zones && z.fd != fd ensures z in Drop(h.zones, fd) {
      var i :| 0 <= i < |h.zones| && h.zones[i] == z;
      if k < |h.zones| {
        assert Drop(h.zones, fd)[if i < k then i else i - 1] == z;
      }
    }
  }

  /** A confirmation is accepted exactly if the zone is draining and the id is that of its open drain. */
  lemma AcceptedIff(h: Head, fd: int, id: nat)
    requires Bookkept(h)
    ensures AckAccepted(h, fd, id) <==> fd in h.requests && h.requests[fd] == id
    ensures !AckAccepted(h, fd, id) ==> forall now :: AckDrain(h, fd, id, now) == h
  {
  }

  /** What the head knows of a zone that serves after its report is what it reported. */
  lemma ReportIsTaken(h: Head, fd: int, r: Report)
    requires h.Routable(fd)
    ensures var k := Hear(h, fd, r);
            && Find(k.zones, fd) == Some(Zone(fd, r.box, r.addr, r.port))
            && fd in k.profiles && k.profiles[fd] == r.profile
            && (forall g :: g != fd ==> Find(k.zones, g) == Find(h.zones, g))
            && k.states == h.states
  {
    var z := Zone(fd, r.box, r.addr, r.port);
    if Find(h.zones, fd).Some? {
      FindPut(h.zones, z, fd);
    } else {
      FindAppend(h.zones, z, fd);
    }
    forall g | g != fd ensures Find(Hear(h, fd, r).zones, g) == Find(h.zones, g) {
      FindPut(h.zones, z, g);
      if Find(h.zones, fd).None? {
        FindAppend(h.zones, z, g);
      }
    }
  }

  /** In every reachable state of the record the drain books are in order. */
  lemma {:induction false} BooksOverRuns(h: Head, ops: seq<HeadOp>)
    requires Bookkept(h) && AllAllowed(h, ops)
    ensures Bookkept(DoAll(h, ops))
    decreases |ops|
  {
    if ops != [] {
      OpKeepsBooks(h, ops[0]);
      BooksOverRuns(Do(h, ops[0]), ops[1..]);
    }
  }

  /** A zone becomes destroyed only on the acknowledgement of its open drain, with the id of that drain. */
  lemma DestroyedOnlyByAck(h: Head, op: HeadOp, fd: int)
    requires Bookkept(h) && Allowed(h, op)
    requires h.State(fd) != Destroyed && Do(h, op).State(fd) == Destroyed
    ensures ClosesDrain(h, op, fd)
  {
    match op {
      case OpHear(_, _) =>
      case OpDrain(v, s, now, timeout) => DrainZones(h, v, s, now, timeout);
      case OpExpire(_, _) =>
      case OpAck(_, _, _) =>
      case OpEvict(_) =>
      case OpRelocate(_) =>
    }
  }

  /** What a head has done before the operation at `k`. */
  function Before(h: Head, ops: seq<HeadOp>, k: nat): Head
    requires k <= |ops|
  {
    DoAll(h, ops[..k])
  }

  lemma BeforeCons(h: Head, ops: seq<HeadOp>, k: nat)
    requires 0 < k <= |ops|
    ensures Before(h, ops, k) == Before(Do(h, ops[0]), ops[1..], k - 1)
  {
    assert ops[..k][1..] == ops[1..][..k - 1] && ops[..k][0] == ops[0];
  }

  /** Only opening a drain gives a zone an open request, and its id is the next one. */
  lemma OpensRequest(h: Head, op: HeadOp, fd: int)
    requires fd in Do(h, op).requests && (fd in h.requests ==> h.requests[fd] != Do(h, op).requests[fd])
    ensures op.OpDrain? && op.victim == fd && Do(h, op).requests[fd] == h.nextRequest
  {
    match op {
      case OpHear(f, r) => HearKeepsRequests(h, f, r);
      case OpRelocate(c) => RelocateKeepsRequests(h, c);
      case OpDrain(v, s, now, timeout) => DrainZones(h, v, s, now, timeout);
      case _ =>
    }
  }

  lemma {:induction false} RequestWasOpened(h: Head, ops: seq<HeadOp>, fd: int) returns (j: nat)
    requires fd !in h.requests && fd in DoAll(h, ops).requests
    ensures j < |ops| && ops[j].OpDrain? && ops[j].victim == fd
    ensures Before(h, ops, j).nextRequest == DoAll(h, ops).requests[fd]
    decreases |ops|
  {
    var last := |ops| - 1;
    var k := Before(h, ops, last);
    DoAllSnoc(h, ops);
    if fd in k.requests && k.requests[fd] == DoAll(h, ops).requests[fd] {
      j := RequestWasOpened(h, ops[..last], fd);
      assert ops[..last][..j] == ops[..j];
    } else {
      OpensRequest(k, ops[last], fd);
      j := last;
    }
  }

  lemma {:induction false} DoAllSnoc(h: Head, ops: seq<HeadOp>)
    requires ops != []
    ensures DoAll(h, ops) == Do(DoAll(h, ops[..|ops| - 1]), ops[|ops| - 1])
    decreases |ops|
  {
    if |ops| > 1 {
      DoAllSnoc(Do(h, ops[0]), ops[1..]);
      assert ops[1..][..|ops| - 2] == ops[..|ops| - 1][1..];
    }
  }

  lemma {:induction false} FirstDestroyed(h: Head, ops: seq<HeadOp>, fd: int) returns (k: nat)
    requires Bookkept(h) && AllAllowed(h, ops) && h.State(fd) != Destroyed && DoAll(h, ops).State(fd) == Destroyed
    ensures k < |ops| && ClosesDrain(Before(h, ops, k), ops[k], fd)
    decreases |ops|
  {
    var g := Do(h, ops[0]);
    if g.State(fd) == Destroyed {
      DestroyedOnlyByAck(h, ops[0], fd);
      k := 0;
    } else {
      OpKeepsBooks(h, ops[0]);
      var i := FirstDestroyed(g, ops[1..], fd);
      k := i + 1;
      BeforeCons(h, ops, k);
    }
  }

  /** The operation acknowledges the open drain of `fd`, with the id of that drain. */
  predicate ClosesDrain(h: Head, op: HeadOp, fd: int) {
    op.OpAck? && op.fd == fd && h.State(fd) == Draining && fd in h.requests && op.id == h.requests[fd]
  }

  /**
   Over every run: a zone that ends up destroyed was drained at some point of the run, and later on acknowledged that
   very drain while it was open.
   */
  lemma DestroyedOverRuns(h: Head, ops: seq<HeadOp>, fd: int) returns (j: nat, k: nat)
    requires Bookkept(h) && AllAllowed(h, ops) && fd !in h.requests
    requires h.State(fd) != Destroyed && DoAll(h, ops).State(fd) == Destroyed
    ensures j < k < |ops| && ops[j].OpDrain? && ops[j].victim == fd && ClosesDrain(Before(h, ops, k), ops[k], fd)
    ensures ops[k].id == Before(h, ops, j).nextRequest
  {
    k := FirstDestroyed(h, ops, fd);
    j := RequestWasOpened(h, ops[..k], fd);
    assert ops[..k][..j] == ops[..j];
  }

  /** Request `id` was issued in the past and is not the open drain of `fd`. */
  predicate Stale(h: Head, fd: int, id: nat) { id < h.nextRequest && (fd in h.requests ==> h.requests[fd] != id) }

  lemma HearKeepsRequests(h: Head, fd: int, r: Report)
    ensures Hear(h, fd, r).requests == h.requests && Hear(h, fd, r).nextRequest == h.nextRequest
  {
  }

  lemma RelocateKeepsRequests(h: Head, c: Chunk)
    ensures RelocateHead(h, c).requests == h.requests && RelocateHead(h, c).nextRequest == h.nextRequest
  {
  }

  lemma ClosingKeepsStale(h: Head, op: HeadOp, fd: int, id: nat)
    requires Stale(h, fd, id) && (op.OpExpire? || op.OpAck? || op.OpEvict?)
    ensures Stale(Do(h, op), fd, id)
  {
    assert Do(h, op).nextRequest == h.nextRequest;
    assert Do(h, op).requests == h.requests || Do(h, op).requests == h.requests - {op.fd};
  }

  lemma DrainingKeepsStale(h: Head, op: HeadOp, fd: int, id: nat)
    requires Stale(h, fd, id) && op.OpDrain?
    ensures Stale(Do(h, op), fd, id)
  {
    DrainZones(h, op.victim, op.survivor, op.now, op.timeout);
  }

  lemma StaleStaysStale(h: Head, op: HeadOp, fd: int, id: nat)
    requires Stale(h, fd, id)
    ensures Stale(Do(h, op), fd, id)
  {
    if op.OpHear? {
      HearKeepsRequests(h, op.fd, op.report);
    } else if op.OpRelocate? {
      RelocateKeepsRequests(h, op.chunk);
    } else if op.OpDrain? {
      DrainingKeepsStale(h, op, fd, id);
    } else {
      ClosingKeepsStale(h, op, fd, id);
    }
  }

  /**
   The late acknowledgement of a drain that timed out is ignored for good: whatever happens in between,
   including new drains of the same zone, it changes nothing.
   */
  lemma {:induction false} LateAckIsIgnored(h: Head, ops: seq<HeadOp>, fd: int, id: nat, now: int)
    requires Bookkept(h) && AllAllowed(h, ops) && Stale(h, fd, id)
    ensures var k := DoAll(h, ops); AckDrain(k, fd, id, now) == k
    decreases |ops|
  {
    if ops != [] {
      OpKeepsBooks(h, ops[0]);
      StaleStaysStale(h, ops[0], fd, id);
      LateAckIsIgnored(Do(h, ops[0]), ops[1..], fd, id, now);
    }
  }

  /** Expiry is what makes an open id stale. */
  lemma ExpiryMakesStale(h: Head, fd: int, now: int)
    requires Bookkept(h) && fd in h.requests && now > h.deadlines[fd]
    ensures Stale(ExpireDrain(h, fd, now), fd, h.requests[fd])
    ensures ExpireDrain(h, fd, now).Routable(fd)
  {
  }

  /** So whatever happens after a drain has timed out, its own acknowledgement never destroys the zone. */
  lemma TimedOutAckIsIgnored(h: Head, fd: int, now: int, ops: seq<HeadOp>, later: int)
    requires Bookkept(h) && fd in h.requests && now > h.deadlines[fd] && AllAllowed(ExpireDrain(h, fd, now), ops)
    ensures var k := DoAll(ExpireDrain(h, fd, now), ops); AckDrain(k, fd, h.requests[fd], later) == k
  {
    ExpireKeepsBooks(h, fd, now);
    ExpiryMakesStale(h, fd, now);
    LateAckIsIgnored(ExpireDrain(h, fd, now), ops, fd, h.requests[fd], later);
  }

  // ------------------------------------------------------------------------------------------------
  // The replica floor
  // ------------------------------------------------------------------------------------------------

  lemma {:induction false} CountDropsByOne(states: States, after: States, zones: seq<Zone>, victim: int)
    requires UniqueFds(zones)
    requires forall fd :: RoutableIn(after, fd) <==> RoutableIn(states, fd) && fd != victim
    requires RoutableIn(states, victim)
    ensures CountRoutable(after, zones) + (if Find(zones, victim).Some? then 1 else 0) == CountRoutable(states, zones)
  {
    if zones != [] {
      var init, last := zones[..|zones| - 1], zones[|zones| - 1];
      CountDropsByOne(states, after, init, victim);
      assert zones == init + [last];
      if last.fd == victim {
        assert Find(init, victim).None?;
        FindAppend(init, last, victim);
      } else {
        FindInit(init, last, victim);
      }
    }
  }

  lemma {:induction false} FindInit(init: seq<Zone>, last: Zone, fd: int)
    requires last.fd != fd
    ensures Find(init + [last], fd) == Find(init, fd)
  {
    if init != [] {
      assert (init + [last])[1..] == init[1..] + [last];
      FindInit(init[1..], last, fd);
    } else {
      assert (init + [last])[1..] == [];
    }
  }

  lemma {:induction false} CountIgnoresBoxes(states: States, zones: seq<Zone>, z: Zone)
    ensures CountRoutable(states, Put(zones, z)) == CountRoutable(states, zones)
  {
    if zones != [] {
      CountIgnoresBoxes(states, zones[..|zones| - 1], z);
      assert Put(zones, z)[..|zones| - 1] == Put(zones[..|zones| - 1], z);
    }
  }

  /** A merge or reassign takes exactly one zone out of service, so it never goes below the floor it is guarded by. */
  lemma DrainKeepsReplicas(h: Head, victim: int, survivor: int, now: int, timeout: int, minReplicas: int)
    requires Bookkept(h) && Allowed(h, OpDrain(victim, survivor, now, timeout))
    requires h.RoutableCount() > minReplicas
    ensures StartDrain(h, victim, survivor, now, timeout).RoutableCount() == h.RoutableCount() - 1 >= minReplicas
  {
    var after := h.states[victim := Draining][survivor := Ready];
    CountDropsByOne(h.states, after, h.zones, victim);
    var k := StartDrain(h, victim, survivor, now, timeout);
    DrainZones(h, victim, survivor, now, timeout);
    if Absorbed(h.zones, survivor, victim).Some? {
      var b := Absorbed(h.zones, survivor, victim).value;
      CountIgnoresBoxes(after, h.zones, Find(h.zones, survivor).value.(box := b));
    }
  }

  /** What opening a drain does to the zone list and to the states. */
  lemma DrainZones(h: Head, victim: int, survivor: int, now: int, timeout: int)
    ensures var k := StartDrain(h, victim, survivor, now, timeout);
            && k.states == h.states[victim := Draining][survivor := Ready]
            && k.requests == h.requests[victim := h.nextRequest] && k.nextRequest == h.nextRequest + 1
            && k.deadlines == h.deadlines[victim := now + timeout] && k.targets == h.targets[victim := survivor]
            && k.lastOp == h.lastOp[victim := now][survivor := now]
            && k.zones == match Absorbed(h.zones, survivor, victim)
                          case None => h.zones
                          case Some(b) => Put(h.zones, Find(h.zones, survivor).value.(box := b))
  {
  }

  /** A drain times out only after its timeout; then the zone is back at work, with nothing left of the drain. */
  lemma DrainTimesOut(h: Head, v: int, w: int, now: int, timeout: int, later: int)
    requires v != w
    ensures var k := StartDrain(h, v, w, now, timeout); var t := ExpireDrain(k, v, later);
            if later <= now + timeout then t == k
            else
              && t.State(v) == Ready && v !in t.requests && v !in t.deadlines && v !in t.targets
              && t.zones == k.zones && t.lastOp == k.lastOp && forall g :: g != v ==> t.State(g) == k.State(g)
  {
    DrainZones(h, v, w, now, timeout);
    var k := StartDrain(h, v, w, now, timeout);
    assert k.State(v) == Draining && v in k.deadlines && k.deadlines[v] == now + timeout;
    Expired(k, v, later);
  }

  lemma Expired(k: Head, v: int, later: int)
    requires k.State(v) == Draining && v in k.deadlines
    ensures var t := ExpireDrain(k, v, later);
            if later <= k.deadlines[v] then t == k
            else
              && t.State(v) == Ready && v !in t.requests && v !in t.deadlines && v !in t.targets
              && t.zones == k.zones && t.lastOp == k.lastOp && forall g :: g != v ==> t.State(g) == k.State(g)
  {
  }

  // ------------------------------------------------------------------------------------------------
  // Relocation
  // ------------------------------------------------------------------------------------------------

  /**
   After a miss on a chunk within the limits the chunk is answered by the stretched zone, and by no other, and the
   zone computes the very same box; beyond the limits it stays a miss. Every chunk within the limits that was routed
   before still is, and so is every chunk at all if the chosen box was within the limits. If no zone is routable,
   nothing changes.
   */
  lemma RelocationServesMiss(h: Head, c: Chunk, d: Chunk)
    requires UniqueFds(h.zones) && h.Route(c).None?
    ensures RelocationChoice(h, c).None? ==> RelocateHead(h, c) == h && forall z :: z in h.zones ==> !h.Routable(z.fd)
    ensures RelocationChoice(h, c).Some? ==>
              var z := RelocationChoice(h, c).value;
              && RelocateHead(h, c).Route(c) ==
                 (if ChunkInLimits(c) then Some(z.(box := ZoneStretch(z.box, c))) else None)
              && (h.Route(d).Some? && (ChunkInLimits(d) || (InLimits(z.box) && z.box.NonEmpty())) ==>
                    RelocateHead(h, c).Route(d).Some?)
  {
    ChoiceIsRoutable(h, c);
    if RelocationChoice(h, c).Some? {
      var z := RelocationChoice(h, c).value;
      StretchAgrees(z.box, c);
      RouteIsServing(h.states, h.zones, c);
      var i :| 0 <= i < |h.zones| && h.zones[i] == z;
      StretchedAnswers(h, c, i);
      if ChunkInLimits(d) || (InLimits(z.box) && z.box.NonEmpty()) {
        StretchKeepsRoutes(h, i, Stretch(z.box, c), d);
      }
    }
  }

  /** The zone at `i` has the chunk on Y and on Z. */
  predicate LevelAt(h: Head, c: Chunk, i: nat)
    requires i < |h.zones|
  {
    var b := h.zones[i].box;
    b.y.lo <= c.y <= b.y.hi && b.z.lo <= c.z <= b.z.hi
  }

  lemma {:induction false} FirstLevelIs(states: States, zones: seq<Zone>, c: Chunk, h: Head)
    requires h.zones == zones && h.states == states
    ensures FirstLevel(states, zones, c).None? <==>
            forall i :: 0 <= i < |zones| && RoutableIn(states, zones[i].fd) ==> !LevelAt(h, c, i)
    ensures FirstLevel(states, zones, c).Some? ==>
              exists i :: 0 <= i < |zones| && zones[i] == FirstLevel(states, zones, c).value && LevelAt(h, c, i) &&
                          RoutableIn(states, zones[i].fd) &&
                          forall j :: 0 <= j < i && RoutableIn(states, zones[j].fd) ==> !LevelAt(h, c, j)
  {
    if zones != [] {
      var tail := h.(zones := zones[1..]);
      FirstLevelIs(states, zones[1..], c, tail);
      forall i | 0 <= i < |zones| - 1 ensures LevelAt(tail, c, i) == LevelAt(h, c, i + 1) {
      }
      if LevelAt(h, c, 0) && RoutableIn(states, zones[0].fd) {
      } else if FirstLevel(states, zones[1..], c).Some? {
        var i :| 0 <= i < |zones| - 1 && zones[1..][i] == FirstLevel(states, zones[1..], c).value &&
          LevelAt(tail, c, i) && RoutableIn(states, zones[1..][i].fd) &&
          forall j :: 0 <= j < i && RoutableIn(states, zones[1..][j].fd) ==> !LevelAt(tail, c, j);
        assert zones[i + 1] == zones[1..][i];
        forall j | 0 <= j < i + 1 && RoutableIn(states, zones[j].fd) ensures !LevelAt(h, c, j) {
          assert j > 0 ==> zones[j] == zones[1..][j - 1];
        }
      }
    }
  }

  /**
   A miss is answered by the first routable zone, in order of registration, that is level with the chunk, if there is
   one; within the limits that stretches it along X alone.
   */
  lemma RelocationIsLevel(h: Head, c: Chunk, l: nat) returns (i: nat)
    requires l < |h.zones| && h.Routable(h.zones[l].fd) && LevelAt(h, c, l)
    ensures i <= l && RelocationChoice(h, c) == Some(h.zones[i]) && h.Routable(h.zones[i].fd) && LevelAt(h, c, i)
    ensures forall j :: 0 <= j < i && h.Routable(h.zones[j].fd) ==> !LevelAt(h, c, j)
    ensures InLimits(h.zones[i].box) ==>
              var b := Stretch(h.zones[i].box, c); b.y == h.zones[i].box.y && b.z == h.zones[i].box.z
  {
    FirstLevelIs(h.states, h.zones, c, h);
    i :| 0 <= i < |h.zones| && h.zones[i] == FirstLevel(h.states, h.zones, c).value && LevelAt(h, c, i) &&
      h.Routable(h.zones[i].fd) && forall j :: 0 <= j < i && h.Routable(h.zones[j].fd) ==> !LevelAt(h, c, j);
  }

  lemma StretchedAnswers(h: Head, c: Chunk, i: nat)
    requires UniqueFds(h.zones) && i < |h.zones| && h.Route(c).None? && h.Routable(h.zones[i].fd)
    ensures var z := h.zones[i].(box := Stretch(h.zones[i].box, c));
            FirstServing(h.states, Put(h.zones, z), c) == if z.box.Has(c) then Some(z) else None
  {
    var z := h.zones[i].(box := Stretch(h.zones[i].box, c));
    var zones := Put(h.zones, z);
    RouteIsServing(h.states, h.zones, c);
    RouteIsServing(h.states, zones, c);
    assert zones[i] == z;
    forall y | y in zones && RoutableIn(h.states, y.fd) && y.box.Has(c) ensures y == z {
      var j :| 0 <= j < |zones| && zones[j] == y;
      assert h.zones[j] in h.zones;
    }
  }

  lemma StretchKeepsRoutes(h: Head, i: nat, b: Box, d: Chunk)
    requires i < |h.zones| && UniqueFds(h.zones) && (h.zones[i].box.Has(d) ==> b.Has(d))
    ensures h.Route(d).Some? ==> FirstServing(h.states, Put(h.zones, h.zones[i].(box := b)), d).Some?
  {
    var zones := Put(h.zones, h.zones[i].(box := b));
    RouteIsServing(h.states, h.zones, d);
    RouteIsServing(h.states, zones, d);
    if h.Route(d).Some? {
      var j :| 0 <= j < |h.zones| && h.zones[j] == h.Route(d).value;
      assert zones[j] in zones && zones[j].fd == h.zones[j].fd;
      assert j != i ==> zones[j] == h.zones[j];
    }
  }

  // ------------------------------------------------------------------------------------------------
  // What stays routed
  // ------------------------------------------------------------------------------------------------

  /** Every chunk the one record routes, the other does too. */
  ghost predicate RoutedKept(h: Head, k: Head) { forall c: Chunk :: h.Route(c).Some? ==> k.Route(c).Some? }

  /** Another zone than `fd` serves the chunk. */
  ghost predicate ServedBeside(h: Head, fd: int, c: Chunk) {
    exists i :: 0 <= i < |h.zones| && h.zones[i].fd != fd && h.Routable(h.zones[i].fd) && h.zones[i].box.Has(c)
  }

  /** The copy of `fd` may be overwritten with that box: each chunk it loses has another routable copy. */
  ghost predicate Replaceable(h: Head, fd: int, box: Box) {
    h.Routable(fd) && Find(h.zones, fd).Some? ==>
      forall c: Chunk :: Find(h.zones, fd).value.box.Has(c) && !box.Has(c) ==> ServedBeside(h, fd, c)
  }

  ghost predicate Serves(h: Head, i: nat, c: Chunk)
    requires i < |h.zones|
  {
    h.Routable(h.zones[i].fd) && h.zones[i].box.Has(c)
  }

  lemma RoutedIffServed(h: Head, c: Chunk)
    ensures h.Route(c).Some? <==> exists i :: 0 <= i < |h.zones| && Serves(h, i, c)
  {
    RouteIsServing(h.states, h.zones, c);
    if h.Route(c).Some? {
      var i :| 0 <= i < |h.zones| && h.zones[i] == h.Route(c).value;
      assert Serves(h, i, c);
    }
    if i :| 0 <= i < |h.zones| && Serves(h, i, c) {
      assert h.zones[i] in h.zones;
    }
  }

  lemma FoundAt(zones: seq<Zone>, fd: int) returns (i: nat)
    requires UniqueFds(zones) && Find(zones, fd).Some?
    ensures i < |zones| && zones[i] == Find(zones, fd).value && zones[i].fd == fd
    ensures forall j :: 0 <= j < |zones| && j != i ==> zones[j].fd != fd
  {
    i :| 0 <= i < |zones| && zones[i] == Find(zones, fd).value;
  }

  /** Overwriting the copy of a zone keeps every routed chunk routed exactly if it is replaceable. */
  lemma OverwriteKeepsRoutesIff(h: Head, z: Zone)
    requires UniqueFds(h.zones) && Find(h.zones, z.fd).Some?
    ensures RoutedKept(h, h.(zones := Put(h.zones, z))) <==> Replaceable(h, z.fd, z.box)
  {
    var k := h.(zones := Put(h.zones, z));
    var i := FoundAt(h.zones, z.fd);
    forall c: Chunk
      ensures (h.Route(c).Some? ==> k.Route(c).Some?) <==>
              (h.Routable(z.fd) && h.zones[i].box.Has(c) && !z.box.Has(c) ==> ServedBeside(h, z.fd, c))
    {
      OverwrittenRoute(h, z, i, c);
    }
  }

  lemma OverwrittenRoute(h: Head, z: Zone, i: nat, c: Chunk)
    requires i < |h.zones| && h.zones[i].fd == z.fd
    requires forall j :: 0 <= j < |h.zones| && j != i ==> h.zones[j].fd != z.fd
    ensures h.Route(c).Some? <==> (h.Routable(z.fd) && h.zones[i].box.Has(c)) || ServedBeside(h, z.fd, c)
    ensures h.(zones := Put(h.zones, z)).Route(c).Some? <==>
            (h.Routable(z.fd) && z.box.Has(c)) || ServedBeside(h, z.fd, c)
  {
    var k := h.(zones := Put(h.zones, z));
    RoutedIffServed(h, c);
    RoutedIffServed(k, c);
    assert k.zones[i] == z && Serves(k, i, c) <==> h.Routable(z.fd) && z.box.Has(c);
    forall j: nat | j < |h.zones| && j != i ensures Serves(k, j, c) == Serves(h, j, c) {
      assert k.zones[j] == h.zones[j];
    }
    assert Serves(h, i, c) <==> h.Routable(z.fd) && h.zones[i].box.Has(c);
    if j :| 0 <= j < |h.zones| && h.zones[j].fd != z.fd && h.Routable(h.zones[j].fd) && h.zones[j].box.Has(c) {
      assert Serves(h, j, c) && Serves(k, j, c);
    }
  }
}
