/**
 The head together with the zones it commands. Commands and reports travel on FIFO links, so the head's copy of
 a box may lag behind the zone, and the zone behind the head. The boxes that matter are the *targets*: what
 each zone's box becomes once it has obeyed everything already sent to it.
 */
module Cluster {
  import opened Geometry
  import opened Population
  import opened Topology
  import Orchestration

  /** A zone process: its box, the commands on their way to it and the reports on their way to the head. */
  datatype Node = Node(box: Box, inbox: seq<Message>, outbox: seq<Box>) {
    function Target(): Box { After(box, inbox) }
  }

  /** What a zone does with its box on a command; an inverted range is refused. */
  function Obey(b: Box, m: Message): Box {
    match m
    case Resize(axis, newMin, newMax) => if newMin > newMax then b else b.With(axis, Range(newMin, newMax))
    case Relocate(c) => ZoneStretch(b, c)
    case DrainRequest(_) => b
    case DeleteZone(_) => b
  }

  function After(b: Box, ms: seq<Message>): Box
    decreases |ms|
  {
    if ms == [] then b else After(Obey(b, ms[0]), ms[1..])
  }

  lemma {:induction false} AfterAppend(b: Box, ms: seq<Message>, m: Message)
    ensures After(b, ms + [m]) == Obey(After(b, ms), m)
    decreases |ms|
  {
    if ms == [] {
      assert (ms + [m])[1..] == [];
    } else {
      assert (ms + [m])[1..] == ms[1..] + [m];
      AfterAppend(Obey(b, ms[0]), ms[1..], m);
    }
  }

  datatype State = State(head: Head, nodes: map<int, Node>)

  /** The target boxes of the zones in service. A child counts from the moment it is spawned, registered or not. */
  ghost function Owners(s: State): map<int, Box> { OwnersIn(s.head.states, s.nodes) }

  ghost function OwnersIn(states: States, nodes: map<int, Node>): map<int, Box> {
    map fd | fd in nodes && RoutableIn(states, fd) :: nodes[fd].Target()
  }

  /** The zones cut the world into disjoint boxes with nothing left over and nothing beyond it. */
  ghost predicate Tiling(m: map<int, Box>, world: iset<Chunk>) {
    && (forall f, g :: f in m && g in m && f != g ==> Disjoint(m[f], m[g]))
    && (forall c: Chunk :: c in world <==> exists f :: f in m && m[f].Has(c))
  }

  ghost predicate Covering(m: map<int, Box>, world: iset<Chunk>) {
    forall c: Chunk :: c in world ==> OwnedBy(m, c)
  }

  /** The head's copy of this zone's box is up to date with everything it has sent. */
  predicate InSync(s: State, fd: int) {
    && fd in s.nodes && Find(s.head.zones, fd).Some?
    && Find(s.head.zones, fd).value.box == s.nodes[fd].Target()
  }

  datatype Step =
    | Split(fd: int, axis: Axis, top: int, bottom: int, child: int)
    | Drain(victim: int, survivor: int, now: int, timeout: int)
    | Ack(fd: int, id: nat, now: int)
    | Obeys(fd: int)
    | Reports(fd: int)
    | Hears(fd: int, addr: string, port: int, profile: Profile)
    | Expire(fd: int, now: int)
    | Evict(fd: int)
    | Miss(chunk: Chunk)

  /** The head's own copy of a box, up to date or not. */
  function CopyOf(s: State, fd: int): Box
    requires Find(s.head.zones, fd).Some?
  {
    Find(s.head.zones, fd).value.box
  }

  /**
   A step the head or a zone may take. A split cuts the head's copy of the box, and a drain is between two ready zones
   it has registered; nothing says that the copies are up to date. A child comes with a descriptor that was never used
   before.
   */
  predicate Legal(s: State, step: Step) {
    match step
    case Split(fd, axis, top, bottom, child) =>
      && fd in s.nodes && Find(s.head.zones, fd).Some? && s.head.State(fd) == Ready
      && CopyOf(s, fd).At(axis).Has(top) && CopyOf(s, fd).At(axis).Has(bottom)
      && child !in s.nodes && child !in s.head.states && Find(s.head.zones, child).None?
    case Drain(v, w, now, timeout) => v in s.nodes && w in s.nodes && Allowed(s.head, OpDrain(v, w, now, timeout))
    case Ack(fd, id, now) => fd in s.nodes
    case Obeys(fd) => fd in s.nodes && s.nodes[fd].inbox != []
    case Reports(fd) => fd in s.nodes
    case Hears(fd, addr, port, profile) => fd in s.nodes && s.nodes[fd].outbox != []
    case Expire(fd, now) => fd in s.nodes
    case Evict(fd) => fd in s.nodes
    case Miss(c) => true
  }

  /** The head's copies make one box, so that it tells the survivor to absorb the victim. */
  predicate CopiesMerge(h: Head, v: int, w: int) { Absorbed(h.zones, w, v).Some? }

  /** What a split leaves the parent with: its own target, cut to the range the head names. */
  function KeptBySplit(s: State, fd: int, axis: Axis, top: int): Box
    requires fd in s.nodes && Find(s.head.zones, fd).Some?
  {
    s.nodes[fd].Target().With(axis, Range(CopyOf(s, fd).At(axis).lo, top))
  }

  /** What a split starts the child with: the upper part of the head's copy. */
  function GivenBySplit(s: State, fd: int, axis: Axis, bottom: int): Box
    requires Find(s.head.zones, fd).Some?
  {
    HighHalf(CopyOf(s, fd), axis, bottom)
  }

  /** What a drain leaves the survivor with: its own target, after the resize computed from the copies, if any. */
  function LeftByDrain(s: State, v: int, w: int): Box
    requires w in s.nodes
  {
    match AbsorbMessage(s.head.zones, w, v)
    case None => s.nodes[w].Target()
    case Some(m) => Obey(s.nodes[w].Target(), m)
  }

  function Sending(n: Node, m: Message): Node { n.(inbox := n.inbox + [m]) }

  function Next(s: State, step: Step): State
    requires Legal(s, step)
  {
    match step
    case Split(fd, axis, top, bottom, child) =>
      State(s.head,
            s.nodes[fd := Sending(s.nodes[fd], Resize(axis, CopyOf(s, fd).At(axis).lo, top))]
            [child := Node(GivenBySplit(s, fd, axis, bottom), [], [])])
    case Drain(v, w, now, timeout) =>
      var head := StartDrain(s.head, v, w, now, timeout);
      var n := match AbsorbMessage(s.head.zones, w, v) case None => s.nodes[w] case Some(m) => Sending(s.nodes[w], m);
      State(head, s.nodes[w := n][v := Sending(s.nodes[v], DrainRequest(s.head.nextRequest))])
    case Ack(fd, id, now) =>
      var n := if AckAccepted(s.head, fd, id) then Sending(s.nodes[fd], DeleteZone(id)) else s.nodes[fd];
      State(AckDrain(s.head, fd, id, now), s.nodes[fd := n])
    case Obeys(fd) =>
      var n := s.nodes[fd];
      State(s.head, s.nodes[fd := n.(box := Obey(n.box, n.inbox[0]), inbox := n.inbox[1..])])
    case Reports(fd) =>
      var n := s.nodes[fd];
      State(s.head, s.nodes[fd := n.(outbox := n.outbox + [n.box])])
    case Hears(fd, addr, port, profile) =>
      var n := s.nodes[fd];
      State(Hear(s.head, fd, Topology.Report(n.outbox[0], addr, port, profile)),
            s.nodes[fd := n.(outbox := n.outbox[1..])])
    case Expire(fd, now) => State(ExpireDrain(s.head, fd, now), s.nodes)
    case Evict(fd) => State(EvictZone(s.head, fd), s.nodes)
    case Miss(c) =>
      var r := RelocationChoice(s.head, c);
      var nodes :=
        if r.Some? && r.value.fd in s.nodes
        then s.nodes[r.value.fd := Sending(s.nodes[r.value.fd], Relocate(c))]
        else s.nodes;
      State(RelocateHead(s.head, c), nodes)
  }

  ghost predicate AllLegal(s: State, steps: seq<Step>)
    decreases |steps|
  {
    steps != [] ==> Legal(s, steps[0]) && AllLegal(Next(s, steps[0]), steps[1..])
  }

  ghost function Run(s: State, steps: seq<Step>): State
    requires AllLegal(s, steps)
    decreases |steps|
  {
    if steps == [] then s else Run(Next(s, steps[0]), steps[1..])
  }

  ghost predicate BoxOk(b: Box) { b.NonEmpty() && InLimits(b) }

  /** A range in a command is within the limits; a zone refuses an inverted one. */
  predicate MessageOk(m: Message) { m.Resize? ==> RangeInLimits(Range(m.newMin, m.newMax)) }

  ghost predicate NodeOk(n: Node) {
    && BoxOk(n.box)
    && (forall i :: 0 <= i < |n.inbox| ==> MessageOk(n.inbox[i]))
    && (forall i :: 0 <= i < |n.outbox| ==> BoxOk(n.outbox[i]))
  }

  ghost predicate ZonesOk(zones: seq<Zone>, nodes: map<int, Node>) {
    && UniqueFds(zones)
    && (forall i :: 0 <= i < |zones| ==> zones[i].fd in nodes && BoxOk(zones[i].box))
  }

  /** Registered zones exist and are listed once, and every box, held, copied or reported, is proper and in limits. */
  ghost predicate Sound(s: State) {
    ZonesOk(s.head.zones, s.nodes) && forall fd :: fd in s.nodes ==> NodeOk(s.nodes[fd])
  }

  lemma ObeyOk(b: Box, m: Message)
    requires BoxOk(b) && MessageOk(m)
    ensures BoxOk(Obey(b, m))
  {
    if m.Relocate? {
      StretchAgrees(b, m.chunk);
    }
  }

  lemma {:induction false} AfterOk(b: Box, ms: seq<Message>)
    requires BoxOk(b) && forall i :: 0 <= i < |ms| ==> MessageOk(ms[i])
    ensures BoxOk(After(b, ms))
    decreases |ms|
  {
    if ms != [] {
      ObeyOk(b, ms[0]);
      AfterOk(Obey(b, ms[0]), ms[1..]);
    }
  }

  lemma TargetsOk(s: State)
    requires Sound(s)
    ensures forall fd :: fd in s.nodes ==> BoxOk(s.nodes[fd].Target())
  {
    forall fd | fd in s.nodes ensures BoxOk(s.nodes[fd].Target()) {
      AfterOk(s.nodes[fd].box, s.nodes[fd].inbox);
    }
  }

  lemma CopyOk(s: State, fd: int)
    requires Sound(s) && Find(s.head.zones, fd).Some?
    ensures fd in s.nodes && BoxOk(CopyOf(s, fd))
  {
    var i := FoundAt(s.head.zones, fd);
  }

  // ------------------------------------------------------------------------------------------------
  // Targets of a step
  // ------------------------------------------------------------------------------------------------

  lemma SendingTarget(n: Node, m: Message)
    ensures Sending(n, m).Target() == Obey(n.Target(), m)
  {
    AfterAppend(n.box, n.inbox, m);
  }

  lemma SplitOwners(s: State, fd: int, axis: Axis, top: int, bottom: int, child: int)
    requires Legal(s, Step.Split(fd, axis, top, bottom, child))
    ensures Owners(Next(s, Step.Split(fd, axis, top, bottom, child))) ==
            Owners(s)[fd := KeptBySplit(s, fd, axis, top)][child := GivenBySplit(s, fd, axis, bottom)]
  {
    SendingTarget(s.nodes[fd], Resize(axis, CopyOf(s, fd).At(axis).lo, top));
  }

  lemma DrainStates(h: Head, v: int, w: int, now: int, timeout: int)
    ensures StartDrain(h, v, w, now, timeout).states == h.states[v := Draining][w := Ready]
  {
    DrainZones(h, v, w, now, timeout);
  }

  lemma DrainNodes(s: State, v: int, w: int, now: int, timeout: int)
    requires Legal(s, Drain(v, w, now, timeout))
    ensures var t := Next(s, Drain(v, w, now, timeout));
            && t.nodes.Keys == s.nodes.Keys
            && t.nodes[w].Target() == LeftByDrain(s, v, w) && t.nodes[v].Target() == s.nodes[v].Target()
            && (forall fd :: fd in s.nodes && fd != v && fd != w ==> t.nodes[fd] == s.nodes[fd])
            && t.head.states == s.head.states[v := Draining][w := Ready]
  {
    SendingTarget(s.nodes[v], DrainRequest(s.head.nextRequest));
    match AbsorbMessage(s.head.zones, w, v) {
      case None =>
      case Some(m) => SendingTarget(s.nodes[w], m);
    }
    DrainStates(s.head, v, w, now, timeout);
  }

  lemma DrainOwners(s: State, v: int, w: int, now: int, timeout: int)
    requires Legal(s, Drain(v, w, now, timeout))
    ensures Owners(Next(s, Drain(v, w, now, timeout))) == (Owners(s) - {v})[w := LeftByDrain(s, v, w)]
  {
    DrainNodes(s, v, w, now, timeout);
    var t := Next(s, Drain(v, w, now, timeout));
    RetireOwner(s.head.states, t.head.states, s.nodes, t.nodes, v, w);
  }

  lemma RetireOwner(states: States, states': States, nodes: map<int, Node>, nodes': map<int, Node>, v: int, w: int)
    requires states' == states[v := Draining][w := Ready] && v != w && v in nodes && w in nodes && RoutableIn(states, w)
    requires nodes'.Keys == nodes.Keys && forall fd :: fd in nodes && fd != v && fd != w ==> nodes'[fd] == nodes[fd]
    ensures OwnersIn(states', nodes') == (OwnersIn(states, nodes) - {v})[w := nodes'[w].Target()]
  {
    assert forall fd :: RoutableIn(states', fd) <==> RoutableIn(states, fd) && fd != v;
  }

  /** Acknowledgements, commands taking effect and reports never change who is responsible for what. */
  lemma QuietOwners(s: State, step: Step)
    requires Legal(s, step) && (step.Ack? || step.Obeys? || step.Reports? || step.Hears?)
    ensures Owners(Next(s, step)) == Owners(s)
  {
    var t := Next(s, step);
    assert t.nodes[step.fd].Target() == s.nodes[step.fd].Target() by {
      if step.Ack? {
        SendingTarget(s.nodes[step.fd], DeleteZone(step.id));
      }
    }
    assert forall fd :: t.head.Routable(fd) <==> s.head.Routable(fd);
    SameTargets(s.head.states, t.head.states, s.nodes, t.nodes);
  }

  lemma SameTargets(states: States, states': States, nodes: map<int, Node>, nodes': map<int, Node>)
    requires forall fd :: RoutableIn(states', fd) <==> RoutableIn(states, fd)
    requires nodes'.Keys == nodes.Keys && forall fd :: fd in nodes ==> nodes'[fd].Target() == nodes[fd].Target()
    ensures OwnersIn(states', nodes') == OwnersIn(states, nodes)
  {
  }

  // ------------------------------------------------------------------------------------------------
  // Every legal step keeps a sound state
  // ------------------------------------------------------------------------------------------------

  lemma SendingOk(n: Node, m: Message)
    requires NodeOk(n) && MessageOk(m)
    ensures NodeOk(Sending(n, m))
  {
  }

  lemma SplitIsSound(s: State, fd: int, axis: Axis, top: int, bottom: int, child: int)
    requires Sound(s) && Legal(s, Step.Split(fd, axis, top, bottom, child))
    ensures Sound(Next(s, Step.Split(fd, axis, top, bottom, child)))
  {
    CopyOk(s, fd);
    SendingOk(s.nodes[fd], Resize(axis, CopyOf(s, fd).At(axis).lo, top));
    assert NodeOk(Node(GivenBySplit(s, fd, axis, bottom), [], []));
  }

  lemma PutOk(zones: seq<Zone>, z: Zone, nodes: map<int, Node>)
    requires ZonesOk(zones, nodes) && BoxOk(z.box)
    ensures ZonesOk(Put(zones, z), nodes)
  {
    forall i | 0 <= i < |zones| ensures Put(zones, z)[i].fd in nodes && BoxOk(Put(zones, z)[i].box) {
      assert Put(zones, z)[i].fd == zones[i].fd;
    }
  }

  lemma AbsorbOk(a: Box, b: Box)
    requires BoxOk(a) && BoxOk(b) && MergeableAxis(a, b).Some?
    ensures BoxOk(Absorb(a, b, MergeableAxis(a, b).value))
  {
    MergeableIsSound(a, b);
  }

  lemma DrainZonesOk(s: State, v: int, w: int, now: int, timeout: int)
    requires Sound(s)
    ensures ZonesOk(StartDrain(s.head, v, w, now, timeout).zones, s.nodes)
    ensures match AbsorbMessage(s.head.zones, w, v) case None => true case Some(m) => MessageOk(m)
  {
    DrainZones(s.head, v, w, now, timeout);
    if CopiesMerge(s.head, v, w) {
      CopyOk(s, v);
      CopyOk(s, w);
      AbsorbOk(CopyOf(s, w), CopyOf(s, v));
      PutOk(s.head.zones, Find(s.head.zones, w).value.(box := Absorbed(s.head.zones, w, v).value), s.nodes);
    }
  }

  lemma DrainIsSound(s: State, v: int, w: int, now: int, timeout: int)
    requires Sound(s) && Legal(s, Drain(v, w, now, timeout))
    ensures Sound(Next(s, Drain(v, w, now, timeout)))
  {
    var t := Next(s, Drain(v, w, now, timeout));
    DrainZonesOk(s, v, w, now, timeout);
    SendingOk(s.nodes[v], DrainRequest(s.head.nextRequest));
    match AbsorbMessage(s.head.zones, w, v) {
      case None =>
      case Some(m) => SendingOk(s.nodes[w], m);
    }
    assert t.nodes.Keys == s.nodes.Keys;
  }

  lemma HearsIsSound(s: State, fd: int, addr: string, port: int, profile: Profile)
    requires Sound(s) && Legal(s, Hears(fd, addr, port, profile))
    ensures Sound(Next(s, Hears(fd, addr, port, profile)))
  {
    var n := s.nodes[fd];
    HearOk(s.head, fd, Topology.Report(n.outbox[0], addr, port, profile), s.nodes);
    assert NodeOk(n.(outbox := n.outbox[1..]));
  }

  lemma HearOk(h: Head, fd: int, r: Topology.Report, nodes: map<int, Node>)
    requires ZonesOk(h.zones, nodes) && fd in nodes && BoxOk(r.box)
    ensures ZonesOk(Hear(h, fd, r).zones, nodes)
  {
    var z := Zone(fd, r.box, r.addr, r.port);
    if Find(h.zones, fd).Some? {
      PutOk(h.zones, z, nodes);
    } else {
      AppendOk(h.zones, z, nodes);
    }
  }

  lemma AppendOk(zones: seq<Zone>, z: Zone, nodes: map<int, Node>)
    requires ZonesOk(zones, nodes) && z.fd in nodes && BoxOk(z.box) && Find(zones, z.fd).None?
    ensures ZonesOk(zones + [z], nodes)
  {
  }

  lemma DropOk(zones: seq<Zone>, fd: int, nodes: map<int, Node>)
    requires ZonesOk(zones, nodes)
    ensures ZonesOk(Drop(zones, fd), nodes)
  {
    var after := Drop(zones, fd);
    forall i | 0 <= i < |after| ensures after[i].fd in nodes && BoxOk(after[i].box) {
      assert after[i] in zones;
    }
  }

  lemma AckIsSound(s: State, fd: int, id: nat, now: int)
    requires Sound(s) && Legal(s, Ack(fd, id, now))
    ensures Sound(Next(s, Ack(fd, id, now)))
  {
    SendingOk(s.nodes[fd], DeleteZone(id));
    DropOk(s.head.zones, fd, s.nodes);
  }

  lemma EvictIsSound(s: State, fd: int)
    requires Sound(s) && Legal(s, Step.Evict(fd))
    ensures Sound(Next(s, Step.Evict(fd)))
  {
    DropOk(s.head.zones, fd, s.nodes);
  }

  lemma MissIsSound(s: State, c: Chunk)
    requires Sound(s)
    ensures Sound(Next(s, Miss(c)))
  {
    ChoiceIsRoutable(s.head, c);
    if RelocationChoice(s.head, c).Some? {
      var z := RelocationChoice(s.head, c).value;
      StretchAgrees(z.box, c);
      PutOk(s.head.zones, z.(box := Stretch(z.box, c)), s.nodes);
      SendingOk(s.nodes[z.fd], Relocate(c));
    }
  }

  lemma ObeysIsSound(s: State, fd: int)
    requires Sound(s) && Legal(s, Obeys(fd))
    ensures Sound(Next(s, Obeys(fd)))
  {
    var n := s.nodes[fd];
    ObeyOk(n.box, n.inbox[0]);
    assert NodeOk(n.(box := Obey(n.box, n.inbox[0]), inbox := n.inbox[1..]));
  }

  lemma StepIsSound(s: State, step: Step)
    requires Sound(s) && Legal(s, step)
    ensures Sound(Next(s, step))
  {
    match step {
      case Split(fd, axis, top, bottom, child) => SplitIsSound(s, fd, axis, top, bottom, child);
      case Drain(v, w, now, timeout) => DrainIsSound(s, v, w, now, timeout);
      case Ack(fd, id, now) => AckIsSound(s, fd, id, now);
      case Obeys(fd) => ObeysIsSound(s, fd);
      case Reports(fd) =>
      case Hears(fd, addr, port, profile) => HearsIsSound(s, fd, addr, port, profile);
      case Expire(fd, now) =>
      case Evict(fd) => EvictIsSound(s, fd);
      case Miss(c) => MissIsSound(s, c);
    }
  }

  // ------------------------------------------------------------------------------------------------
  // Tiling
  // ------------------------------------------------------------------------------------------------

  lemma SplitTiling(m: map<int, Box>, world: iset<Chunk>, fd: int, child: int, l: Box, h: Box)
    requires Tiling(m, world) && fd in m && child !in m && Partitions(m[fd], l, h)
    ensures Tiling(m[fd := l][child := h], world)
  {
    var k := m[fd := l][child := h];
    forall c: Chunk ensures c in world <==> exists f :: f in k && k[f].Has(c) {
      if c in world {
        var f :| f in m && m[f].Has(c);
        assert if f != fd then k[f].Has(c) else k[fd].Has(c) || k[child].Has(c);
      } else {
        assert forall f :: f in m ==> !m[f].Has(c);
        assert !m[fd].Has(c);
      }
    }
    forall f, g | f in k && g in k && f != g ensures Disjoint(k[f], k[g]) {
      var f0, g0 := if f == child then fd else f, if g == child then fd else g;
      assert forall c: Chunk :: (k[f].Has(c) ==> m[f0].Has(c)) && (k[g].Has(c) ==> m[g0].Has(c));
      if f0 != g0 {
        assert Disjoint(m[f0], m[g0]);
      }
    }
  }

  lemma MergeTiling(m: map<int, Box>, world: iset<Chunk>, victim: int, survivor: int, u: Box)
    requires Tiling(m, world) && victim in m && survivor in m && victim != survivor &&
             IsUnion(u, m[survivor], m[victim])
    ensures Tiling((m - {victim})[survivor := u], world)
  {
    var k := (m - {victim})[survivor := u];
    forall c: Chunk ensures c in world <==> exists f :: f in k && k[f].Has(c) {
      if c in world {
        var f :| f in m && m[f].Has(c);
        assert k[if f == victim then survivor else f].Has(c);
      } else {
        assert forall f :: f in m ==> !m[f].Has(c);
        assert !m[victim].Has(c) && !m[survivor].Has(c);
      }
    }
    forall f, g | f in k && g in k && f != g ensures Disjoint(k[f], k[g]) {
      assert Disjoint(m[f], m[g]) && Disjoint(m[f], m[victim]) && Disjoint(m[victim], m[g]);
    }
  }

  /** Cutting an owner in two keeps the tiling exactly if the two partition it. */
  lemma SplitTilingIff(m: map<int, Box>, world: iset<Chunk>, fd: int, child: int, l: Box, h: Box)
    requires Tiling(m, world) && fd in m && child !in m
    ensures Tiling(m[fd := l][child := h], world) <==> Partitions(m[fd], l, h)
  {
    var k := m[fd := l][child := h];
    if Partitions(m[fd], l, h) {
      SplitTiling(m, world, fd, child, l, h);
    } else if Tiling(k, world) {
      assert Disjoint(k[fd], k[child]);
      forall c: Chunk ensures m[fd].Has(c) <==> l.Has(c) || h.Has(c) {
        SameOwner(m, k, world, fd, child, c);
      }
    }
  }

  /** In two tilings of one world that differ in two places, those two places have the same chunks. */
  lemma SameOwner(m: map<int, Box>, k: map<int, Box>, world: iset<Chunk>, a: int, b: int, c: Chunk)
    requires Tiling(m, world) && Tiling(k, world)
    requires forall f :: f != a && f != b ==> (f in m <==> f in k) && (f in m ==> m[f] == k[f])
    ensures Owned(m, a, c) || Owned(m, b, c) <==> Owned(k, a, c) || Owned(k, b, c)
  {
    if c in world {
      var f :| f in m && m[f].Has(c);
      var g :| g in k && k[g].Has(c);
      forall x | Owned(m, x, c) ensures x == f {
        OneOwner(m, world, x, f, c);
      }
      forall x | Owned(k, x, c) ensures x == g {
        OneOwner(k, world, x, g, c);
      }
      assert f != a && f != b ==> Owned(k, f, c);
      assert g != a && g != b ==> Owned(m, g, c);
    }
  }

  lemma OneOwner(m: map<int, Box>, world: iset<Chunk>, f: int, g: int, c: Chunk)
    requires Tiling(m, world) && Owned(m, f, c) && Owned(m, g, c)
    ensures f == g
  {
  }

  predicate Owned(m: map<int, Box>, f: int, c: Chunk) { f in m && m[f].Has(c) }

  /** Taking one owner out and giving another a new box keeps the tiling exactly if that box is the union of the two. */
  lemma MergeTilingIff(m: map<int, Box>, world: iset<Chunk>, victim: int, survivor: int, u: Box)
    requires Tiling(m, world) && victim in m && survivor in m && victim != survivor
    ensures Tiling((m - {victim})[survivor := u], world) <==> IsUnion(u, m[survivor], m[victim])
  {
    var k := (m - {victim})[survivor := u];
    if IsUnion(u, m[survivor], m[victim]) {
      MergeTiling(m, world, victim, survivor, u);
    } else if Tiling(k, world) {
      forall c: Chunk ensures u.Has(c) <==> m[survivor].Has(c) || m[victim].Has(c) {
        SameOwner(m, k, world, survivor, victim, c);
        assert Owned(k, survivor, c) <==> u.Has(c);
      }
    }
  }

  lemma AdditionBreaksTiling(m: map<int, Box>, world: iset<Chunk>, fd: int, box: Box)
    requires Tiling(m, world) && fd !in m && box.NonEmpty()
    ensures !Tiling(m[fd := box], world)
  {
    var k, c := m[fd := box], box.Corner();
    assert k[fd].Has(c);
    if c in world {
      var f :| f in m && m[f].Has(c);
      assert k[f].Has(c) && f != fd;
    }
  }

  lemma GrowthBreaksTiling(m: map<int, Box>, world: iset<Chunk>, fd: int, box: Box, c: Chunk)
    requires Tiling(m, world) && fd in m && box.Has(c) && !m[fd].Has(c)
    ensures !Tiling(m[fd := box], world)
  {
    var k := m[fd := box];
    assert k[fd].Has(c);
    if c in world {
      var f :| f in m && m[f].Has(c);
      assert k[f].Has(c) && f != fd;
    }
  }

  /** The drain of `fd` is overdue, so that it is put back to work. */
  predicate Expires(h: Head, fd: int, now: int) {
    h.State(fd) == Draining && fd in h.deadlines && now > h.deadlines[fd]
  }

  /** The relocation makes the chosen zone responsible for nothing new. */
  predicate StretchesNothing(s: State, c: Chunk) {
    var r := RelocationChoice(s.head, c);
    r.Some? && r.value.fd in s.nodes ==> ZoneStretch(s.nodes[r.value.fd].Target(), c) == s.nodes[r.value.fd].Target()
  }

  /**
   A split leaves parent and child a partition of what the parent was responsible for, a drain leaves the survivor the
   union of what the two were, no drain is put back, no zone in service is evicted, and no relocation adds a chunk.
   */
  ghost predicate Orderly(s: State, step: Step)
    requires Legal(s, step)
  {
    match step
    case Split(fd, axis, top, bottom, _) =>
      Partitions(s.nodes[fd].Target(), KeptBySplit(s, fd, axis, top), GivenBySplit(s, fd, axis, bottom))
    case Drain(v, w, _, _) => IsUnion(LeftByDrain(s, v, w), s.nodes[w].Target(), s.nodes[v].Target())
    case Expire(fd, now) => !Expires(s.head, fd, now)
    case Evict(fd) => !s.head.Routable(fd)
    case Miss(c) => StretchesNothing(s, c)
    case _ => true
  }

  lemma IdleMissOwners(s: State, c: Chunk)
    requires Sound(s) && StretchesNothing(s, c)
    ensures Owners(Next(s, Miss(c))) == Owners(s)
  {
    MissOwners(s, c);
    var m, r := Owners(s), RelocationChoice(s.head, c);
    assert r.Some? ==> m[r.value.fd := m[r.value.fd]] == m;
  }

  lemma StepKeepsTiling(s: State, step: Step, world: iset<Chunk>)
    requires Sound(s) && Legal(s, step) && Orderly(s, step) && Tiling(Owners(s), world)
    ensures Tiling(Owners(Next(s, step)), world)
  {
    StepKeepsTilingIff(s, step, world);
  }

  /** A time-out keeps the tiling exactly if it changes nothing, whatever has happened since its drain. */
  lemma ExpireKeepsTilingIff(s: State, fd: int, now: int, world: iset<Chunk>)
    requires Sound(s) && Legal(s, Expire(fd, now)) && Tiling(Owners(s), world)
    ensures Tiling(Owners(Next(s, Expire(fd, now))), world) <==> !Expires(s.head, fd, now)
    ensures Expires(s.head, fd, now) <==> Next(s, Expire(fd, now)).head.states != s.head.states
  {
    if Expires(s.head, fd, now) {
      ExpireOwners(s, fd, now);
      TargetsOk(s);
      AdditionBreaksTiling(Owners(s), world, fd, s.nodes[fd].Target());
    }
  }

  lemma EvictOwners(s: State, fd: int)
    requires Legal(s, Step.Evict(fd))
    ensures Owners(Next(s, Step.Evict(fd))) == Owners(s) - {fd}
  {
    var after := s.head.states[fd := Dead];
    assert forall g :: RoutableIn(after, g) <==> RoutableIn(s.head.states, g) && g != fd;
  }

  /** An eviction keeps the tiling exactly if the zone was out of service already; nobody takes its chunks over. */
  lemma EvictKeepsTilingIff(s: State, fd: int, world: iset<Chunk>)
    requires Sound(s) && Legal(s, Step.Evict(fd)) && Tiling(Owners(s), world)
    ensures Tiling(Owners(Next(s, Step.Evict(fd))), world) <==> !s.head.Routable(fd)
  {
    EvictOwners(s, fd);
    var m := Owners(s);
    if s.head.Routable(fd) {
      TargetsOk(s);
      RemovalBreaksTiling(m, world, fd);
    } else {
      assert m - {fd} == m;
    }
  }

  lemma RemovalBreaksTiling(m: map<int, Box>, world: iset<Chunk>, fd: int)
    requires Tiling(m, world) && fd in m && m[fd].NonEmpty()
    ensures !Tiling(m - {fd}, world)
  {
    var k, c := m - {fd}, m[fd].Corner();
    assert m[fd].Has(c) && c in world;
    if f :| f in k && k[f].Has(c) {
      OneOwner(m, world, f, fd, c);
    }
  }

  /**
   A relocation keeps the tiling exactly if the stretched target adds no chunk; if it adds one, it is taken or beyond
   the world.
   */
  lemma MissKeepsTilingIff(s: State, c: Chunk, world: iset<Chunk>)
    requires Sound(s) && Tiling(Owners(s), world)
    ensures Tiling(Owners(Next(s, Miss(c))), world) <==> StretchesNothing(s, c)
  {
    MissOwners(s, c);
    if StretchesNothing(s, c) {
      IdleMissOwners(s, c);
    } else {
      ChoiceIsRoutable(s.head, c);
      var fd := RelocationChoice(s.head, c).value.fd;
      var b := s.nodes[fd].Target();
      TargetsOk(s);
      StretchAgrees(b, c);
      var d := StrictlyLarger(b, ZoneStretch(b, c));
      GrowthBreaksTiling(Owners(s), world, fd, ZoneStretch(b, c), d);
    }
  }

  /** Exactly the orderly steps keep the zones in service a tiling of the world. */
  lemma StepKeepsTilingIff(s: State, step: Step, world: iset<Chunk>)
    requires Sound(s) && Legal(s, step) && Tiling(Owners(s), world)
    ensures Tiling(Owners(Next(s, step)), world) <==> Orderly(s, step)
  {
    var m := Owners(s);
    match step {
      case Split(fd, axis, top, bottom, child) =>
        SplitOwners(s, fd, axis, top, bottom, child);
        SplitTilingIff(m, world, fd, child, KeptBySplit(s, fd, axis, top), GivenBySplit(s, fd, axis, bottom));
      case Drain(v, w, now, timeout) =>
        DrainOwners(s, v, w, now, timeout);
        MergeTilingIff(m, world, v, w, LeftByDrain(s, v, w));
      case Expire(fd, now) => ExpireKeepsTilingIff(s, fd, now, world);
      case Evict(fd) => EvictKeepsTilingIff(s, fd, world);
      case Miss(c) => MissKeepsTilingIff(s, c, world);
      case Ack(_, _, _) => QuietOwners(s, step);
      case Obeys(_) => QuietOwners(s, step);
      case Reports(_) => QuietOwners(s, step);
      case Hears(_, _, _, _) => QuietOwners(s, step);
    }
  }

  // ------------------------------------------------------------------------------------------------
  // With copies that are up to date
  // ------------------------------------------------------------------------------------------------

  /** A population or crowd cut of an up-to-date copy is orderly. */
  lemma ProperSplitIsOrderly(s: State, fd: int, axis: Axis, cut: int, child: int)
    requires Sound(s) && InSync(s, fd) && CopyOf(s, fd).At(axis).lo <= cut < CopyOf(s, fd).At(axis).hi
    requires Legal(s, Step.Split(fd, axis, cut, cut + 1, child))
    ensures Orderly(s, Step.Split(fd, axis, cut, cut + 1, child))
    ensures KeptBySplit(s, fd, axis, cut) == LowHalf(s.nodes[fd].Target(), axis, cut)
  {
    CopyOk(s, fd);
    CutPartitions(CopyOf(s, fd), axis, cut);
  }

  /** A geometric cut of an up-to-date copy is orderly exactly if the two halves do not share the middle layer. */
  lemma GeometricSplitIsOrderlyIff(s: State, fd: int, axis: Axis, child: int)
    requires Sound(s) && InSync(s, fd) && CopyOf(s, fd).At(axis).Span() >= 2
    requires var r := CopyOf(s, fd).At(axis); Legal(s, Step.Split(fd, axis, GeometricLow(r), GeometricHigh(r), child))
    ensures var r := CopyOf(s, fd).At(axis);
            Orderly(s, Step.Split(fd, axis, GeometricLow(r), GeometricHigh(r), child)) <==> !SharedMiddle(r)
  {
    CopyOk(s, fd);
    GeometricCut(CopyOf(s, fd), axis);
  }

  /** A drain between up-to-date copies is orderly exactly if the two boxes can be merged. */
  lemma DrainIsOrderlyIff(s: State, v: int, w: int, now: int, timeout: int)
    requires Sound(s) && InSync(s, v) && InSync(s, w) && Legal(s, Drain(v, w, now, timeout))
    requires Disjoint(s.nodes[w].Target(), s.nodes[v].Target())
    ensures Orderly(s, Drain(v, w, now, timeout)) <==> CopiesMerge(s.head, v, w)
    ensures CopiesMerge(s.head, v, w) ==> LeftByDrain(s, v, w) == Absorbed(s.head.zones, w, v).value
  {
    var bw, bv := s.nodes[w].Target(), s.nodes[v].Target();
    TargetsOk(s);
    if CopiesMerge(s.head, v, w) {
      MergeableIsSound(bw, bv);
    } else {
      assert bv.Has(bv.Corner()) && !bw.Has(bv.Corner());
    }
  }

  /**
   A refused drain leaves every chunk of the victim without an owner, in any tiled state, whatever the copies say.
   */
  lemma RefusedLeavesNobody(s: State, v: int, w: int, now: int, timeout: int, world: iset<Chunk>, c: Chunk, f: int)
    requires Legal(s, Drain(v, w, now, timeout)) && Tiling(Owners(s), world) && !CopiesMerge(s.head, v, w)
    requires s.nodes[v].Target().Has(c)
    ensures !Owned(Owners(Next(s, Drain(v, w, now, timeout))), f, c)
  {
    DrainOwners(s, v, w, now, timeout);
    var m := Owners(s);
    assert f in m && f != v ==> Disjoint(m[f], m[v]);
  }

  ghost predicate AllOrderly(s: State, steps: seq<Step>)
    requires AllLegal(s, steps)
    decreases |steps|
  {
    steps != [] ==> Orderly(s, steps[0]) && AllOrderly(Next(s, steps[0]), steps[1..])
  }

  /**
   Over whole runs: whatever splits, merges, reassigns and acknowledgements happen, and however commands and
   reports are interleaved with them, the zones in service tile the same world.
   */
  lemma {:induction false} TilingOverRuns(s: State, steps: seq<Step>, world: iset<Chunk>)
    requires Sound(s) && AllLegal(s, steps) && AllOrderly(s, steps) && Tiling(Owners(s), world)
    ensures Sound(Run(s, steps)) && Tiling(Owners(Run(s, steps)), world)
    decreases |steps|
  {
    if steps != [] {
      StepIsSound(s, steps[0]);
      StepKeepsTiling(s, steps[0], world);
      TilingOverRuns(Next(s, steps[0]), steps[1..], world);
    }
  }

  /** Everything the head has sent has been obeyed and reported back, so that its copies are the targets. */
  ghost predicate AllInSync(s: State) { forall fd :: fd in Owners(s) ==> InSync(s, fd) }

  lemma CopiesAreOwners(s: State)
    requires Sound(s) && AllInSync(s)
    ensures forall z :: z in s.head.zones && s.head.Routable(z.fd) ==> z.fd in Owners(s) && Owners(s)[z.fd] == z.box
  {
    forall z | z in s.head.zones && s.head.Routable(z.fd) ensures z.fd in Owners(s) && Owners(s)[z.fd] == z.box {
      var i :| 0 <= i < |s.head.zones| && s.head.zones[i] == z;
      FindUnique(s.head.zones, i);
      assert InSync(s, z.fd);
    }
  }

  /**
   Whenever the head's copies are up to date in a tiled cluster, every chunk of the world is routed to its one
   owner, no chunk outside is routed anywhere, and the order of registration does not matter.
   */
  lemma RoutingIsExact(s: State, world: iset<Chunk>, c: Chunk)
    requires Sound(s) && Tiling(Owners(s), world) && AllInSync(s)
    ensures c !in world ==> s.head.Route(c).None?
    ensures c in world ==>
              && s.head.Route(c).Some?
              && var f := s.head.Route(c).value.fd;
                 f in Owners(s) && Owners(s)[f].Has(c) && forall g :: g in Owners(s) && Owners(s)[g].Has(c) ==> g == f
    ensures CopiesDisjoint(s.head)
  {
    var m, zones := Owners(s), s.head.zones;
    CopiesAreOwners(s);
    RouteIsServing(s.head.states, zones, c);
    if c in world {
      var f :| f in m && m[f].Has(c);
      assert InSync(s, f);
      var z := Find(zones, f).value;
      assert z in zones && s.head.Routable(z.fd) && z.box.Has(c);
      var r := s.head.Route(c).value;
      assert r in zones && m[r.fd].Has(c);
      forall g | Owned(m, g, c) ensures g == r.fd {
        OneOwner(m, world, g, r.fd, c);
      }
    }
  }

  // ------------------------------------------------------------------------------------------------
  // Coverage never shrinks
  // ------------------------------------------------------------------------------------------------

  /** Every chunk of `m` is in `k`. */
  ghost predicate CoversAll(k: map<int, Box>, m: map<int, Box>) {
    forall f, c: Chunk :: f in m && m[f].Has(c) ==> OwnedBy(k, c)
  }

  lemma ExpireOwners(s: State, fd: int, now: int)
    requires Legal(s, Expire(fd, now))
    ensures Owners(Next(s, Expire(fd, now))) ==
            if Expires(s.head, fd, now) then Owners(s)[fd := s.nodes[fd].Target()] else Owners(s)
    ensures Expires(s.head, fd, now) ==> fd !in Owners(s)
  {
  }

  lemma MissOwners(s: State, c: Chunk)
    requires Sound(s)
    ensures var r := RelocationChoice(s.head, c);
            Owners(Next(s, Miss(c))) ==
            if r.Some? && r.value.fd in s.nodes
            then Owners(s)[r.value.fd := ZoneStretch(s.nodes[r.value.fd].Target(), c)] else Owners(s)
    ensures var r := RelocationChoice(s.head, c);
            r.Some? ==> r.value.fd in Owners(s) && Owners(s)[r.value.fd] == s.nodes[r.value.fd].Target()
  {
    ChoiceIsRoutable(s.head, c);
    if RelocationChoice(s.head, c).Some? {
      SendingTarget(s.nodes[RelocationChoice(s.head, c).value.fd], Relocate(c));
    }
  }

  /** Somebody other than those two owns the chunk. */
  ghost predicate OwnedBeside(m: map<int, Box>, a: int, b: int, c: Chunk) {
    exists f :: f in m && f != a && f != b && m[f].Has(c)
  }

  /** Two maps that differ in two places: the one covers the other exactly if what these places lose is owned beside. */
  lemma CoversIff(m: map<int, Box>, k: map<int, Box>, a: int, b: int)
    requires forall f :: f != a && f != b ==> (f in m <==> f in k) && (f in m ==> m[f] == k[f])
    ensures CoversAll(k, m) <==>
            forall c: Chunk :: Owned(m, a, c) || Owned(m, b, c) ==>
              Owned(k, a, c) || Owned(k, b, c) || OwnedBeside(m, a, b, c)
  {
    forall c: Chunk ensures OwnedBy(k, c) <==> Owned(k, a, c) || Owned(k, b, c) || OwnedBeside(m, a, b, c) {
      if g :| g in k && k[g].Has(c) {
        assert g != a && g != b ==> g in m && m[g].Has(c);
      }
      if OwnedBeside(m, a, b, c) {
        var f :| f in m && f != a && f != b && m[f].Has(c);
        assert f in k && k[f].Has(c);
      }
    }
    forall f, c: Chunk | f in m && m[f].Has(c) ensures Owned(m, a, c) || Owned(m, b, c) || OwnedBy(k, c) {
      assert f != a && f != b ==> f in k && k[f].Has(c);
    }
    forall c: Chunk | CoversAll(k, m) && (Owned(m, a, c) || Owned(m, b, c)) ensures OwnedBy(k, c) {
      var f := if Owned(m, a, c) then a else b;
      assert f in m && m[f].Has(c);
    }
  }

  ghost predicate OwnedBy(m: map<int, Box>, c: Chunk) { exists g :: g in m && m[g].Has(c) }

  /**
   What a split or a drain takes from the targets it changes is left to one of them or owned by somebody else.
   */
  ghost predicate KeepsCover(s: State, step: Step)
    requires Legal(s, step)
  {
    match step
    case Split(fd, axis, top, bottom, child) =>
      forall c: Chunk :: s.nodes[fd].Target().Has(c) ==>
        || KeptBySplit(s, fd, axis, top).Has(c) || GivenBySplit(s, fd, axis, bottom).Has(c)
        || OwnedBeside(Owners(s), fd, child, c)
    case Drain(v, w, _, _) =>
      forall c: Chunk :: s.nodes[v].Target().Has(c) || s.nodes[w].Target().Has(c) ==>
        LeftByDrain(s, v, w).Has(c) || OwnedBeside(Owners(s), v, w, c)
    case Evict(fd) =>
      s.head.Routable(fd) ==> forall c: Chunk :: s.nodes[fd].Target().Has(c) ==> OwnedBeside(Owners(s), fd, fd, c)
    case _ => true
  }

  lemma SplitCoversIff(s: State, fd: int, axis: Axis, top: int, bottom: int, child: int)
    requires Legal(s, Step.Split(fd, axis, top, bottom, child))
    ensures var step := Step.Split(fd, axis, top, bottom, child);
            CoversAll(Owners(Next(s, step)), Owners(s)) <==> KeepsCover(s, step)
  {
    var m, k := Owners(s), Owners(Next(s, Step.Split(fd, axis, top, bottom, child)));
    SplitOwners(s, fd, axis, top, bottom, child);
    CoversIff(m, k, fd, child);
    assert forall c: Chunk :: (Owned(m, fd, c) <==> s.nodes[fd].Target().Has(c)) && !Owned(m, child, c);
    assert forall c: Chunk :: Owned(k, fd, c) <==> KeptBySplit(s, fd, axis, top).Has(c);
    assert forall c: Chunk :: Owned(k, child, c) <==> GivenBySplit(s, fd, axis, bottom).Has(c);
  }

  lemma DrainCoversIff(s: State, v: int, w: int, now: int, timeout: int)
    requires Legal(s, Drain(v, w, now, timeout))
    ensures var step := Drain(v, w, now, timeout);
            CoversAll(Owners(Next(s, step)), Owners(s)) <==> KeepsCover(s, step)
  {
    var m, k := Owners(s), Owners(Next(s, Drain(v, w, now, timeout)));
    DrainOwners(s, v, w, now, timeout);
    CoversIff(m, k, v, w);
    assert forall c: Chunk :: Owned(m, v, c) <==> s.nodes[v].Target().Has(c);
    assert forall c: Chunk :: Owned(m, w, c) <==> s.nodes[w].Target().Has(c);
    assert forall c: Chunk :: !Owned(k, v, c) && (Owned(k, w, c) <==> LeftByDrain(s, v, w).Has(c));
  }

  lemma EvictCoversIff(s: State, fd: int)
    requires Legal(s, Step.Evict(fd))
    ensures CoversAll(Owners(Next(s, Step.Evict(fd))), Owners(s)) <==> KeepsCover(s, Step.Evict(fd))
  {
    var m, k := Owners(s), Owners(Next(s, Step.Evict(fd)));
    EvictOwners(s, fd);
    CoversIff(m, k, fd, fd);
    assert forall c: Chunk :: Owned(m, fd, c) <==> s.head.Routable(fd) && s.nodes[fd].Target().Has(c);
    assert forall c: Chunk :: !Owned(k, fd, c);
  }

  lemma StretchCovers(m: map<int, Box>, fd: int, box: Box)
    requires fd in m && forall d: Chunk :: m[fd].Has(d) ==> box.Has(d)
    ensures CoversAll(m[fd := box], m)
  {
    var k := m[fd := box];
    forall f, c: Chunk | f in m && m[f].Has(c) ensures OwnedBy(k, c) {
      assert k[f].Has(c);
    }
  }

  lemma AdditionCovers(m: map<int, Box>, fd: int, box: Box)
    requires fd !in m
    ensures CoversAll(m[fd := box], m) && CoversAll(m, m)
  {
    var k := m[fd := box];
    forall f, c: Chunk | f in m && m[f].Has(c) ensures OwnedBy(k, c) {
      assert k[f].Has(c);
    }
  }

  /** Exactly those steps leave every served chunk served; time-outs and relocations are among them. */
  lemma StepKeepsCoverageIff(s: State, step: Step)
    requires Sound(s) && Legal(s, step)
    ensures CoversAll(Owners(Next(s, step)), Owners(s)) <==> KeepsCover(s, step)
  {
    match step {
      case Split(fd, axis, top, bottom, child) => SplitCoversIff(s, fd, axis, top, bottom, child);
      case Drain(v, w, now, timeout) => DrainCoversIff(s, v, w, now, timeout);
      case Ack(_, _, _) => QuietOwners(s, step);
      case Obeys(_) => QuietOwners(s, step);
      case Reports(_) => QuietOwners(s, step);
      case Hears(_, _, _, _) => QuietOwners(s, step);
      case Expire(fd, now) =>
        ExpireOwners(s, fd, now);
        if Expires(s.head, fd, now) {
          AdditionCovers(Owners(s), fd, s.nodes[fd].Target());
        }
      case Evict(fd) => EvictCoversIff(s, fd);
      case Miss(c) =>
        MissOwners(s, c);
        var r := RelocationChoice(s.head, c);
        if r.Some? {
          TargetsOk(s);
          StretchAgrees(s.nodes[r.value.fd].Target(), c);
          StretchCovers(Owners(s), r.value.fd, ZoneStretch(s.nodes[r.value.fd].Target(), c));
        }
    }
  }

  ghost predicate AllKeepCover(s: State, steps: seq<Step>)
    requires AllLegal(s, steps)
    decreases |steps|
  {
    steps != [] ==> KeepsCover(s, steps[0]) && AllKeepCover(Next(s, steps[0]), steps[1..])
  }

  /** Over whole runs, time-outs and relocations included: what some zone serves is served for ever. */
  lemma {:induction false} CoverageOverRuns(s: State, steps: seq<Step>, world: iset<Chunk>)
    requires Sound(s) && AllLegal(s, steps) && AllKeepCover(s, steps) && Covering(Owners(s), world)
    ensures Sound(Run(s, steps)) && Covering(Owners(Run(s, steps)), world)
    decreases |steps|
  {
    if steps != [] {
      StepIsSound(s, steps[0]);
      StepKeepsCoverageIff(s, steps[0]);
      var k := Owners(Next(s, steps[0]));
      forall c: Chunk | c in world ensures OwnedBy(k, c) {
        var f :| f in Owners(s) && Owners(s)[f].Has(c);
      }
      CoverageOverRuns(Next(s, steps[0]), steps[1..], world);
    }
  }

  // ------------------------------------------------------------------------------------------------
  // A time-out right after its drain
  // ------------------------------------------------------------------------------------------------

  /**
   A drain that times out after the survivor has taken over: the two overlap on exactly the victim's box, whatever has
   been left to the survivor, as long as the drain was orderly.
   */
  lemma ExpiryOverlaps(s: State, v: int, w: int, now: int, timeout: int, later: int)
    requires Sound(s) && Legal(s, Drain(v, w, now, timeout)) && Orderly(s, Drain(v, w, now, timeout))
    requires later > now + timeout
    ensures var t := Next(s, Drain(v, w, now, timeout));
            && Legal(t, Expire(v, later))
            && var m := Owners(Next(t, Expire(v, later)));
               && v in m && w in m && m[v] == s.nodes[v].Target()
               && (forall c: Chunk :: m[v].Has(c) && m[w].Has(c) <==> s.nodes[v].Target().Has(c))
               && forall world: iset<Chunk> :: !Tiling(m, world)
  {
    ExpiryOwners(s, v, w, now, timeout, later);
    TargetsOk(s);
    var m := Owners(Next(Next(s, Drain(v, w, now, timeout)), Expire(v, later)));
    assert m[v].Has(m[v].Corner()) && m[w].Has(m[v].Corner());
  }

  lemma ExpiryOwners(s: State, v: int, w: int, now: int, timeout: int, later: int)
    requires Legal(s, Drain(v, w, now, timeout)) && later > now + timeout
    ensures var t := Next(s, Drain(v, w, now, timeout));
            && Legal(t, Expire(v, later))
            && var m := Owners(Next(t, Expire(v, later)));
               v in m && w in m && m[v] == s.nodes[v].Target() && m[w] == LeftByDrain(s, v, w)
  {
    DrainNodes(s, v, w, now, timeout);
    DrainZones(s.head, v, w, now, timeout);
    var t := Next(s, Drain(v, w, now, timeout));
    assert ExpireDrain(t.head, v, later).states == t.head.states[v := Ready];
  }

  // ------------------------------------------------------------------------------------------------
  // What stays routed
  // ------------------------------------------------------------------------------------------------

  /**
   The head routes by its own copies. Overwriting one must not lose a chunk that no other copy has, and a drain that
   is refused must not retire a zone whose chunks no other copy has.
   */
  ghost predicate KeepsRoutes(s: State, step: Step)
    requires Legal(s, step)
  {
    match step
    case Hears(fd, _, _, _) => Replaceable(s.head, fd, s.nodes[fd].outbox[0])
    case Miss(c) =>
      var r := RelocationChoice(s.head, c);
      r.Some? ==> Replaceable(s.head, r.value.fd, Stretch(r.value.box, c))
    case Drain(v, w, _, _) =>
      CopiesMerge(s.head, v, w) ||
      Replicated(s.head, v)
    case Evict(fd) => s.head.Routable(fd) && Find(s.head.zones, fd).Some? ==> Replicated(s.head, fd)
    case _ => true
  }

  /** Every chunk of this copy has another routable one. */
  ghost predicate Replicated(h: Head, fd: int)
    requires Find(h.zones, fd).Some?
  {
    forall c: Chunk :: Find(h.zones, fd).value.box.Has(c) ==> ServedBeside(h, fd, c)
  }

  lemma HearsKeepsRoutesIff(h: Head, fd: int, r: Topology.Report)
    requires UniqueFds(h.zones)
    ensures RoutedKept(h, Hear(h, fd, r)) <==> Replaceable(h, fd, r.box)
  {
    var z, k := Zone(fd, r.box, r.addr, r.port), Hear(h, fd, r);
    if Find(h.zones, fd).Some? {
      OverwriteKeepsRoutesIff(h, z);
      forall c: Chunk ensures k.Route(c) == h.(zones := Put(h.zones, z)).Route(c) {
      }
    } else {
      forall c: Chunk | h.Route(c).Some? ensures k.Route(c).Some? {
        RoutedIffServed(h, c);
        RoutedIffServed(k, c);
        var i :| 0 <= i < |h.zones| && Serves(h, i, c);
        assert k.zones[i] == h.zones[i] && Serves(k, i, c);
      }
    }
  }

  lemma MissKeepsRoutesIff(h: Head, c: Chunk)
    requires UniqueFds(h.zones)
    ensures var r := RelocationChoice(h, c);
            RoutedKept(h, RelocateHead(h, c)) <==> (r.Some? ==> Replaceable(h, r.value.fd, Stretch(r.value.box, c)))
  {
    ChoiceIsRoutable(h, c);
    var r := RelocationChoice(h, c);
    if r.Some? {
      var i :| 0 <= i < |h.zones| && h.zones[i] == r.value;
      FindUnique(h.zones, i);
      OverwriteKeepsRoutesIff(h, r.value.(box := Stretch(r.value.box, c)));
    }
  }

  /** A record with the same list of zones, in which exactly `v` has stopped being routable. */
  lemma RetiringKeepsRoutesIff(h: Head, k: Head, v: int)
    requires UniqueFds(h.zones) && Find(h.zones, v).Some? && h.Routable(v) && k.zones == h.zones
    requires forall fd :: k.Routable(fd) <==> h.Routable(fd) && fd != v
    ensures RoutedKept(h, k) <==> Replicated(h, v)
  {
    var i := FoundAt(h.zones, v);
    forall c: Chunk
      ensures k.Route(c).Some? <==> ServedBeside(h, v, c)
      ensures h.Route(c).Some? <==> h.zones[i].box.Has(c) || ServedBeside(h, v, c)
    {
      RoutedIffServed(h, c);
      RoutedIffServed(k, c);
      assert Serves(h, i, c) <==> h.zones[i].box.Has(c);
      assert forall j :: 0 <= j < |h.zones| ==> (Serves(k, j, c) <==> Serves(h, j, c) && h.zones[j].fd != v);
      if ServedBeside(h, v, c) {
        var j :| 0 <= j < |h.zones| && h.zones[j].fd != v && h.Routable(h.zones[j].fd) && h.zones[j].box.Has(c);
        assert Serves(h, j, c) && Serves(k, j, c);
      }
    }
  }

  lemma EvictKeepsRoutesIff(h: Head, fd: int)
    requires UniqueFds(h.zones)
    ensures RoutedKept(h, EvictZone(h, fd)) <==>
            (h.Routable(fd) && Find(h.zones, fd).Some? ==> Replicated(h, fd))
  {
    var after := h.states[fd := Dead];
    var k := h.(states := after);
    forall c: Chunk ensures EvictZone(h, fd).Route(c) == k.Route(c) {
      DropUnrouted(after, h.zones, fd, c);
    }
    assert RoutedKept(h, EvictZone(h, fd)) <==> RoutedKept(h, k);
    if h.Routable(fd) && Find(h.zones, fd).Some? {
      RetiringKeepsRoutesIff(h, k, fd);
    } else {
      UnlistedKeepsRoutes(h, k, fd);
    }
  }

  lemma UnlistedKeepsRoutes(h: Head, k: Head, fd: int)
    requires k.zones == h.zones && !(h.Routable(fd) && Find(h.zones, fd).Some?)
    requires forall g :: g != fd ==> (k.Routable(g) <==> h.Routable(g))
    ensures RoutedKept(h, k)
  {
    forall c: Chunk | h.Route(c).Some? ensures k.Route(c).Some? {
      RoutedIffServed(h, c);
      RoutedIffServed(k, c);
      var i :| 0 <= i < |h.zones| && Serves(h, i, c);
      assert Serves(k, i, c);
    }
  }

  /** Some routable zone has at least the box of `z`. */
  ghost predicate ServedOn(k: Head, z: Zone) { exists y :: y in k.zones && k.Routable(y.fd) && Contains(y.box, z.box) }

  ghost predicate Contains(a: Box, b: Box) { forall c: Chunk :: b.Has(c) ==> a.Has(c) }

  /** A record in which every zone that is routable in the other has a successor. */
  lemma GrowingKeepsRoutes(h: Head, k: Head)
    requires forall z :: z in h.zones && h.Routable(z.fd) ==> ServedOn(k, z)
    ensures RoutedKept(h, k)
  {
    forall c: Chunk | h.Route(c).Some? ensures k.Route(c).Some? {
      RouteIsServing(h.states, h.zones, c);
      RouteIsServing(k.states, k.zones, c);
      var z := h.Route(c).value;
      assert ServedOn(k, z);
      var y :| y in k.zones && k.Routable(y.fd) && Contains(y.box, z.box);
    }
  }

  lemma AckKeepsRoutes(h: Head, fd: int, id: nat, now: int)
    ensures RoutedKept(h, AckDrain(h, fd, id, now))
  {
    var k := AckDrain(h, fd, id, now);
    forall z | z in h.zones && h.Routable(z.fd) ensures ServedOn(k, z) {
      if z.fd != fd {
        DropKeepsOthers(h.zones, fd, z);
      }
      assert z in k.zones && k.Routable(z.fd) && Contains(z.box, z.box);
    }
    GrowingKeepsRoutes(h, k);
  }

  lemma DropKeepsOthers(zones: seq<Zone>, fd: int, z: Zone)
    requires z in zones && z.fd != fd
    ensures z in Drop(zones, fd)
  {
    var k := IndexOf(zones, fd);
    var i :| 0 <= i < |zones| && zones[i] == z;
    if k < |zones| {
      var left, right := zones[..k], zones[k + 1..];
      assert i != k;
      assert if i < k then left[i] == z else right[i - k - 1] == z;
      assert z in left || z in right;
    }
  }

  lemma MergeKeepsRoutes(s: State, v: int, w: int, now: int, timeout: int)
    requires Sound(s) && Legal(s, Drain(v, w, now, timeout)) && CopiesMerge(s.head, v, w)
    ensures RoutedKept(s.head, StartDrain(s.head, v, w, now, timeout))
  {
    DrainZones(s.head, v, w, now, timeout);
    CopyOk(s, v);
    CopyOk(s, w);
    MergeableIsSound(CopyOf(s, w), CopyOf(s, v));
    var u := Absorbed(s.head.zones, w, v).value;
    AbsorbKeepsRoutes(s.head, StartDrain(s.head, v, w, now, timeout), v, w, u);
  }

  lemma AbsorbKeepsRoutes(h: Head, k: Head, v: int, w: int, u: Box)
    requires UniqueFds(h.zones) && Find(h.zones, v).Some? && Find(h.zones, w).Some? && v != w && h.Routable(w)
    requires IsUnion(u, Find(h.zones, w).value.box, Find(h.zones, v).value.box)
    requires k.zones == Put(h.zones, Find(h.zones, w).value.(box := u)) &&
             k.states == h.states[v := Draining][w := Ready]
    ensures RoutedKept(h, k)
  {
    forall z | z in h.zones && h.Routable(z.fd) ensures ServedOn(k, z) {
      var x := ServedAfterMerge(h.zones, v, w, u, z);
      assert k.Routable(x.fd);
    }
    GrowingKeepsRoutes(h, k);
  }

  lemma ServedAfterMerge(zones: seq<Zone>, v: int, w: int, u: Box, z: Zone) returns (x: Zone)
    requires UniqueFds(zones) && Find(zones, v).Some? && Find(zones, w).Some? && z in zones
    requires IsUnion(u, Find(zones, w).value.box, Find(zones, v).value.box)
    ensures x in Put(zones, Find(zones, w).value.(box := u))
    ensures x.fd == (if z.fd == v then w else z.fd) && Contains(x.box, z.box)
  {
    var after := Put(zones, Find(zones, w).value.(box := u));
    var i :| 0 <= i < |zones| && zones[i] == z;
    FindUnique(zones, i);
    var j := FoundAt(zones, w);
    x := if z.fd == v then after[j] else after[i];
  }

  lemma ExpireKeepsRoutes(h: Head, fd: int, now: int)
    ensures RoutedKept(h, ExpireDrain(h, fd, now))
  {
    var k := ExpireDrain(h, fd, now);
    forall z | z in h.zones && h.Routable(z.fd) ensures ServedOn(k, z) {
      assert z in k.zones && k.Routable(z.fd) && Contains(z.box, z.box);
    }
    GrowingKeepsRoutes(h, k);
  }

  lemma DrainKeepsRoutesIff(s: State, v: int, w: int, now: int, timeout: int)
    requires Sound(s) && Legal(s, Drain(v, w, now, timeout))
    ensures RoutedKept(s.head, Next(s, Drain(v, w, now, timeout)).head) <==> KeepsRoutes(s, Drain(v, w, now, timeout))
  {
    if CopiesMerge(s.head, v, w) {
      MergeKeepsRoutes(s, v, w, now, timeout);
    } else {
      DrainZones(s.head, v, w, now, timeout);
      RetiringKeepsRoutesIff(s.head, Next(s, Drain(v, w, now, timeout)).head, v);
    }
  }

  /**
   Which steps keep every routed chunk routed: all but a report or a relocation that overwrites a copy some chunk of
   which has no other, and a refused drain of such a zone.
   */
  lemma StepKeepsRoutesIff(s: State, step: Step)
    requires Sound(s) && Legal(s, step)
    ensures RoutedKept(s.head, Next(s, step).head) <==> KeepsRoutes(s, step)
  {
    match step {
      case Hears(fd, addr, port, profile) =>
        HearsKeepsRoutesIff(s.head, fd, Topology.Report(s.nodes[fd].outbox[0], addr, port, profile));
      case Miss(c) => MissKeepsRoutesIff(s.head, c);
      case Drain(v, w, now, timeout) => DrainKeepsRoutesIff(s, v, w, now, timeout);
      case Ack(fd, id, now) => AckKeepsRoutes(s.head, fd, id, now);
      case Expire(fd, now) => ExpireKeepsRoutes(s.head, fd, now);
      case Evict(fd) => EvictKeepsRoutesIff(s.head, fd);
      case _ =>
    }
  }

  // ------------------------------------------------------------------------------------------------
  // The head catches up
  // ------------------------------------------------------------------------------------------------

  /** Only zone `fd` and the head's entry for it differ between the two states. */
  ghost predicate OnlyTouches(s: State, t: State, fd: int) {
    && t.head.states == s.head.states && t.nodes.Keys == s.nodes.Keys
    && (forall g :: g in s.nodes && g != fd ==> t.nodes[g] == s.nodes[g])
    && (forall g :: g != fd ==> Find(t.head.zones, g) == Find(s.head.zones, g))
    && (fd in s.nodes ==> t.nodes[fd].Target() == s.nodes[fd].Target())
  }

  lemma HearFinds(h: Head, fd: int, r: Topology.Report, g: int)
    requires h.Routable(fd)
    ensures Find(Hear(h, fd, r).zones, g) == if g == fd then Some(Zone(fd, r.box, r.addr, r.port)) else Find(h.zones, g)
  {
    var z := Zone(fd, r.box, r.addr, r.port);
    if Find(h.zones, fd).Some? {
      FindPut(h.zones, z, g);
    } else {
      FindAppend(h.zones, z, g);
    }
  }

  /** The quiet moves of a zone: obeying, reporting, being heard. */
  predicate Quiet(step: Step) { step.Obeys? || step.Reports? || step.Hears? }

  predicate QuietMove(step: Step, fd: int) { Quiet(step) && step.fd == fd }

  lemma QuietMoveTouches(s: State, step: Step, fd: int)
    requires Legal(s, step) && QuietMove(step, fd) && s.head.Routable(fd)
    ensures OnlyTouches(s, Next(s, step), fd)
  {
    if step.Hears? {
      forall g | g != fd ensures Find(Next(s, step).head.zones, g) == Find(s.head.zones, g) {
        HearFinds(s.head, fd, Topology.Report(s.nodes[fd].outbox[0], step.addr, step.port, step.profile), g);
      }
    }
  }

  lemma RunCons(s: State, step: Step, rest: seq<Step>)
    requires Legal(s, step) && AllLegal(Next(s, step), rest)
    ensures AllLegal(s, [step] + rest) && Run(s, [step] + rest) == Run(Next(s, step), rest)
  {
    assert ([step] + rest)[1..] == rest;
  }

  lemma RunHead(s: State, a: seq<Step>) returns (t: State)
    requires a != [] && AllLegal(s, a)
    ensures Legal(s, a[0]) && t == Next(s, a[0]) && AllLegal(t, a[1..]) && Run(s, a) == Run(t, a[1..])
  {
    t := Next(s, a[0]);
  }

  lemma {:induction false} LegalConcat(s: State, a: seq<Step>, b: seq<Step>)
    requires AllLegal(s, a) && AllLegal(Run(s, a), b)
    ensures AllLegal(s, a + b)
    decreases |a|
  {
    if a == [] {
      assert a + b == b;
    } else {
      var t := RunHead(s, a);
      LegalConcat(t, a[1..], b);
      assert (a + b)[0] == a[0] && (a + b)[1..] == a[1..] + b;
    }
  }

  lemma {:induction false} RunConcat(s: State, a: seq<Step>, b: seq<Step>)
    requires AllLegal(s, a) && AllLegal(Run(s, a), b)
    ensures AllLegal(s, a + b) && Run(s, a + b) == Run(Run(s, a), b)
    decreases |a|
  {
    LegalConcat(s, a, b);
    if a == [] {
      assert a + b == b;
    } else {
      var t := RunHead(s, a);
      RunConcat(t, a[1..], b);
      var u := RunHead(s, a + b);
      assert (a + b)[1..] == a[1..] + b;
    }
  }

  /** Nothing is on its way to this zone, or from it. */
  predicate Idle(n: Node) { n.inbox == [] && n.outbox == [] }

  predicate CaughtUp(s: State, fd: int) { InSync(s, fd) && Idle(s.nodes[fd]) }

  lemma ReportsOnce(s: State, fd: int) returns (steps: seq<Step>)
    requires Sound(s) && fd in s.nodes && s.head.Routable(fd) && Idle(s.nodes[fd])
    ensures AllLegal(s, steps) && forall i :: 0 <= i < |steps| ==> QuietMove(steps[i], fd)
    ensures CaughtUp(Run(s, steps), fd) && OnlyTouches(s, Run(s, steps), fd) && Sound(Run(s, steps))
  {
    var blank := Profile([], [], []);
    var tell, hear := Reports(fd), Hears(fd, "", 0, blank);
    var t := Next(s, tell);
    StepIsSound(s, tell);
    StepIsSound(t, hear);
    QuietMoveTouches(s, tell, fd);
    QuietMoveTouches(t, hear, fd);
    HearFinds(t.head, fd, Topology.Report(s.nodes[fd].box, "", 0, blank), fd);
    RunCons(t, hear, []);
    RunCons(s, tell, [hear]);
    steps := [tell] + [hear];
  }

  /** From any state, letting one zone obey, report and be heard brings the head's copy of it up to date. */
  lemma {:induction false} CatchUp(s: State, fd: int) returns (steps: seq<Step>)
    requires Sound(s) && fd in s.nodes && s.head.Routable(fd)
    ensures AllLegal(s, steps) && forall i :: 0 <= i < |steps| ==> QuietMove(steps[i], fd)
    ensures CaughtUp(Run(s, steps), fd) && OnlyTouches(s, Run(s, steps), fd) && Sound(Run(s, steps))
    decreases |s.nodes[fd].inbox|, |s.nodes[fd].outbox|
  {
    var n := s.nodes[fd];
    var blank := Profile([], [], []);
    if n.inbox == [] && n.outbox == [] {
      steps := ReportsOnce(s, fd);
    } else {
      var step := if n.inbox != [] then Obeys(fd) else Hears(fd, "", 0, blank);
      StepIsSound(s, step);
      QuietMoveTouches(s, step, fd);
      var rest := CatchUp(Next(s, step), fd);
      RunCons(s, step, rest);
      steps := [step] + rest;
    }
  }

  lemma TouchKeepsSync(s: State, t: State, fd: int, g: int)
    requires OnlyTouches(s, t, fd) && g != fd && CaughtUp(s, g)
    ensures CaughtUp(t, g)
  {
  }

  lemma TouchKeepsOwners(s: State, t: State, fd: int)
    requires OnlyTouches(s, t, fd)
    ensures Owners(t) == Owners(s)
  {
  }

  ghost predicate AllCaughtUp(s: State, left: set<int>) {
    forall fd :: fd in Owners(s) && fd !in left ==> CaughtUp(s, fd)
  }

  /** Nobody's responsibility has changed. */
  ghost predicate Settled(s: State, t: State) {
    Sound(t) && Owners(t) == Owners(s) && t.head.states == s.head.states && t.nodes.Keys == s.nodes.Keys
  }

  predicate AllQuiet(steps: seq<Step>) { forall i :: 0 <= i < |steps| ==> Quiet(steps[i]) }

  lemma OneCatchesUp(s: State, left: set<int>, fd: int) returns (steps: seq<Step>)
    requires Sound(s) && left <= Owners(s).Keys && fd in left && AllCaughtUp(s, left)
    ensures AllLegal(s, steps) && AllQuiet(steps)
    ensures Settled(s, Run(s, steps)) && AllCaughtUp(Run(s, steps), left - {fd})
  {
    assert fd in Owners(s);
    steps := CatchUp(s, fd);
    var t := Run(s, steps);
    TouchKeepsOwners(s, t, fd);
    forall g | g in Owners(t) && g !in left - {fd} ensures CaughtUp(t, g) {
      if g != fd {
        TouchKeepsSync(s, t, fd, g);
      }
    }
  }

  /**
   From any state of a tiled cluster there is a way for the links to drain, with nobody's responsibility
   changing, after which routing is exact in the sense of `RoutingIsExact`.
   */
  lemma {:induction false} EveryoneCatchesUp(s: State, left: set<int>) returns (steps: seq<Step>)
    requires Sound(s) && left <= Owners(s).Keys && AllCaughtUp(s, left)
    ensures AllLegal(s, steps) && AllQuiet(steps)
    ensures Settled(s, Run(s, steps)) && AllCaughtUp(Run(s, steps), {})
    decreases |left|
  {
    if left == {} {
      steps := [];
    } else {
      assert (forall x: int :: x !in left) ==> left == {};
      var fd :| fd in left;
      var first := OneCatchesUp(s, left, fd);
      var rest := EveryoneCatchesUp(Run(s, first), left - {fd});
      RunConcat(s, first, rest);
      steps := first + rest;
    }
  }

  // ------------------------------------------------------------------------------------------------
  // The orchestrator takes these steps
  // ------------------------------------------------------------------------------------------------

  /** The links after the head has sent `traffic`. */
  function Deliver(nodes: map<int, Node>, traffic: seq<Envelope>): map<int, Node>
    decreases |traffic|
  {
    if traffic == [] then nodes
    else
      var e := traffic[0];
      Deliver(if e.fd in nodes then nodes[e.fd := Sending(nodes[e.fd], e.message)] else nodes, traffic[1..])
  }

  /** A merge is the step `Drain`, refused or not: the same record, the same messages on the links. */
  lemma MergeIsStep(s: State, h': Head, traffic: seq<Envelope>, fd: int, v: Zone, now: int, cfg: Orchestration.Config)
    requires Sound(s) && Orchestration.MergedInto(s.head, h', traffic, fd, v, now, cfg) && s.head.State(fd) == Ready
    ensures Legal(s, Drain(v.fd, fd, now, cfg.drainTimeout))
    ensures var t := Next(s, Drain(v.fd, fd, now, cfg.drainTimeout));
            h' == t.head.(lowSince := h'.lowSince) && Deliver(s.nodes, traffic) == t.nodes
  {
    Orchestration.PartnerAllowsDrain(s.head, fd, v, now, cfg.drainTimeout);
    CopyOk(s, fd);
    CopyOk(s, v.fd);
    DrainTrafficDelivered(s, v.fd, fd);
  }

  lemma ReassignIsStep(
    s: State, h': Head, traffic: seq<Envelope>, fd: int, w: Zone, now: int, cfg: Orchestration.Config)
    requires Sound(s) && Orchestration.ReassignedTo(s.head, h', traffic, fd, w, now, cfg) && s.head.State(fd) == Ready
    ensures Legal(s, Drain(fd, w.fd, now, cfg.drainTimeout))
    ensures var t := Next(s, Drain(fd, w.fd, now, cfg.drainTimeout));
            h' == t.head && Deliver(s.nodes, traffic) == t.nodes
  {
    Orchestration.PartnerAllowsDrain(s.head, fd, w, now, cfg.drainTimeout);
    CopyOk(s, fd);
    CopyOk(s, w.fd);
    DrainTrafficDelivered(s, fd, w.fd);
  }

  lemma DrainTrafficDelivered(s: State, v: int, w: int)
    requires v in s.nodes && w in s.nodes && v != w
    ensures var n := match AbsorbMessage(s.head.zones, w, v)
                     case None => s.nodes[w]
                     case Some(m) => Sending(s.nodes[w], m);
            Deliver(s.nodes, Orchestration.DrainTraffic(s.head, v, w)) ==
            s.nodes[w := n][v := Sending(s.nodes[v], DrainRequest(s.head.nextRequest))]
  {
    var d := Envelope(v, DrainRequest(s.head.nextRequest));
    var traffic := Orchestration.DrainTraffic(s.head, v, w);
    match AbsorbMessage(s.head.zones, w, v) {
      case Some(m) =>
        assert traffic == [Envelope(w, m), d];
        DeliverTwo(s.nodes, Envelope(w, m), d);
      case None =>
        assert traffic == [d] && [d][1..] == [];
        assert s.nodes[w := s.nodes[w]] == s.nodes;
        assert Deliver(s.nodes, [d]) == Deliver(s.nodes[v := Sending(s.nodes[v], d.message)], []);
    }
  }

  lemma DeliverTwo(nodes: map<int, Node>, d: Envelope, e: Envelope)
    requires d.fd in nodes && e.fd in nodes && d.fd != e.fd
    ensures Deliver(nodes, [d, e]) ==
            nodes[d.fd := Sending(nodes[d.fd], d.message)][e.fd := Sending(nodes[e.fd], e.message)]
  {
    var mid := nodes[d.fd := Sending(nodes[d.fd], d.message)];
    assert [d, e][1..] == [e] && [e][1..] == [];
    assert Deliver(nodes, [d, e]) == Deliver(mid, [e]);
    assert Deliver(mid, [e]) == Deliver(mid[e.fd := Sending(mid[e.fd], e.message)], []);
  }

  /**
   A split that acts, by population, around a crowd or in the geometric middle, is the step `Split`: the boxes, states
   and drains in the record do not change, the parent is told to resize, and the child starts with the other part.
   */
  lemma SplitIsStep(
    s: State, h': Head, traffic: seq<Envelope>, spawn: Orchestration.Spawn, fd: int, now: int,
    cfg: Orchestration.Config, plan: Plan, child: int)
    requires Sound(s) && child !in s.nodes && child !in s.head.states
    requires Orchestration.SplitOutcome(s.head, h', traffic, spawn, fd, now, cfg, true, true)
    requires Orchestration.SplitBy(CopyOf(s, fd), Orchestration.ProfileOf(s.head, fd), plan, traffic, spawn, fd)
    ensures Legal(s, Step.Split(fd, plan.axis, plan.top, plan.bottom, child))
    ensures var t := Next(s, Step.Split(fd, plan.axis, plan.top, plan.bottom, child));
            && h' == t.head.(atFloor := h'.atFloor, lastScale := h'.lastScale)
            && Deliver(s.nodes, traffic)[child := Node(spawn.box, [], [])] == t.nodes
  {
    CopyOk(s, fd);
    PlanIsInside(CopyOf(s, fd), Orchestration.ProfileOf(s.head, fd), plan);
    SplitDelivered(s, traffic, spawn, fd, Orchestration.ProfileOf(s.head, fd), plan, child);
  }

  lemma SplitDelivered(
    s: State, traffic: seq<Envelope>, spawn: Orchestration.Spawn, fd: int, prof: Option<Profile>, plan: Plan,
    child: int)
    requires Sound(s) && Find(s.head.zones, fd).Some? && fd in s.nodes && s.head.State(fd) == Ready
    requires prof.Some? ==> prof.value.Valid()
    requires Orchestration.SplitBy(CopyOf(s, fd), prof, plan, traffic, spawn, fd)
    requires CopyOf(s, fd).At(plan.axis).Has(plan.top) && CopyOf(s, fd).At(plan.axis).Has(plan.bottom)
    requires child !in s.nodes && child !in s.head.states
    ensures Legal(s, Step.Split(fd, plan.axis, plan.top, plan.bottom, child))
    ensures var t := Next(s, Step.Split(fd, plan.axis, plan.top, plan.bottom, child));
            t.head == s.head && Deliver(s.nodes, traffic)[child := Node(spawn.box, [], [])] == t.nodes
  {
    assert traffic[1..] == [];
    assert Find(s.head.zones, child).None?;
  }

  /** A run starts with the base zone alone, serving its own box. */
  lemma BaseZoneTiles(fd: int, box: Box)
    requires box.NonEmpty() && InLimits(box)
    ensures var s := State(EMPTY_HEAD, map[fd := Node(box, [], [])]);
            Sound(s) && Tiling(Owners(s), iset c: Chunk | box.Has(c))
  {
    assert NodeOk(Node(box, [], []));
    var m := Owners(State(EMPTY_HEAD, map[fd := Node(box, [], [])]));
    assert m == map[fd := box];
    forall c: Chunk ensures box.Has(c) <==> exists f :: f in m && m[f].Has(c) {
      if box.Has(c) {
        assert m[fd].Has(c);
      }
    }
  }
}
