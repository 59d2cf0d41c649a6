/**
 The lifecycle queue over time: reports, time-outs, confirmations and relocations in between its turns. What the settle
 window, the merge window, the cooldown of a split and the idle window are for: no zone flaps.
 */
module LifecycleRuns {
  import opened Geometry
  import opened Topology
  import opened Orchestration

  /** A turn of the queue, with what it ran and the record before the stamp; a request; a load report; or another. */
  datatype Event =
    | Process(now: int, spawnWorks: bool, ran: Option<int>, done: Head, acted: bool)
    | Enqueue(now: int, fd: int, op: LifecycleOp)
    | Load(now: int, fd: int, low: bool)
    | Told(now: int, told: HeadOp)

  function Enqueued(h: Head, fd: int, op: LifecycleOp): Head {
    h.(pending := h.pending[fd := Queued(if fd in h.pending then Some(h.pending[fd]) else None, op)])
  }

  ghost predicate Stepped(h: Head, e: Event, h': Head, cfg: Config) {
    match e
    case Process(now, spawnWorks, ran, done, acted) =>
      exists traffic, spawn :: Processed(h, h', traffic, now, cfg, spawnWorks, ran, done, acted, spawn)
    case Enqueue(_, fd, op) => h' == Enqueued(h, fd, op)
    case Load(now, fd, low) => h' == h.(lowSince := LoadNoted(h.lowSince, fd, low, now))
    case Told(now, op) =>
      && !op.OpDrain? && !op.OpEvict? && (op.OpAck? || op.OpExpire? ==> op.now == now)
      && h' == Do(h, op)
  }

  /** The record before and after each of the events, in the order of time. */
  ghost predicate Trace(hs: seq<Head>, es: seq<Event>, cfg: Config) {
    && |hs| == |es| + 1
    && (forall i {:trigger es[i]} :: 0 <= i < |es| ==> Stepped(hs[i], es[i], hs[i + 1], cfg))
    && forall i, j :: 0 <= i <= j < |es| ==> es[i].now <= es[j].now
  }

  // ------------------------------------------------------------------------------------------------
  // Whom an operation concerns
  // ------------------------------------------------------------------------------------------------

  /** A drain with victim `v` was opened. */
  predicate Opens(h: Head, k: Head, v: int) {
    k.nextRequest == h.nextRequest + 1 && v in k.requests && k.requests[v] == h.nextRequest && v in k.targets
  }

  ghost predicate EndOfDrain(h: Head, k: Head, z: int) { exists v :: Opens(h, k, v) && (z == v || z == k.targets[v]) }

  ghost predicate SameStamp(h: Head, k: Head, z: int) {
    (z in k.lastOp <==> z in h.lastOp) && (z in h.lastOp ==> k.lastOp[z] == h.lastOp[z])
  }

  /** An operation of this turn acted on `z` or drained it, or into it; or `z` confirmed its drain. */
  ghost predicate Concerns(h: Head, e: Event, z: int) {
    match e
    case Process(_, _, ran, done, acted) =>
      ran.Some? && acted && (z == ran.value || EndOfDrain(h, done, z))
    case Enqueue(_, _, _) => false
    case Load(_, _, _) => false
    case Told(_, op) => op.OpAck? && op.fd == z && AckAccepted(h, z, op.id)
  }

  /** What an operation leaves: exactly whoever it drains, or drains into, is stamped. */
  ghost predicate Stamps(h: Head, k: Head, now: int, z: int) {
    if EndOfDrain(h, k, z) then z in k.lastOp && k.lastOp[z] == now else SameStamp(h, k, z)
  }

  lemma OldIsNotNew(h: Head, v: int)
    requires Bookkept(h)
    ensures v in h.requests ==> h.requests[v] != h.nextRequest
  {
  }

  lemma DrainStamps(h: Head, k: Head, v: int, w: int, now: int, timeout: int, z: int)
    requires Bookkept(h) && var d := StartDrain(h, v, w, now, timeout); k == d.(lowSince := k.lowSince)
    ensures Stamps(h, k, now, z)
  {
    DrainZones(h, v, w, now, timeout);
    forall x | Opens(h, k, x) ensures x == v && k.targets[x] == w {
      OldIsNotNew(h, x);
    }
    assert Opens(h, k, v);
  }

  /** No operation but a drain opens one. */
  lemma NothingOpens(h: Head, k: Head, now: int, z: int)
    requires k.nextRequest == h.nextRequest && k.lastOp == h.lastOp
    ensures Stamps(h, k, now, z)
  {
  }

  lemma ExecutedStamps(h: Head, done: Head, traffic: seq<Envelope>, fd: int, op: LifecycleOp, now: int, cfg: Config,
                       spawnWorks: bool, spawn: Spawn, acted: bool, z: int)
    requires Bookkept(h) && Executed(h, done, traffic, fd, op, now, cfg, spawnWorks, spawn, acted)
    ensures Stamps(h, done, now, z)
  {
    match op {
      case Evict => NothingOpens(h, done, now, z);
      case Split => NothingOpens(h, done, now, z);
      case Merge => MergeStamps(h, done, traffic, fd, now, cfg, acted, z);
      case Reassign =>
        var did :| ReassignOutcome(h, done, traffic, fd, now, cfg, did);
        ReassignStamps(h, done, traffic, fd, now, cfg, did, z);
    }
  }

  lemma MergeStamps(
    h: Head, done: Head, traffic: seq<Envelope>, fd: int, now: int, cfg: Config, acted: bool, z: int)
    requires Bookkept(h) && MergeOutcome(h, done, traffic, fd, now, cfg, acted)
    ensures Stamps(h, done, now, z)
  {
    if acted {
      var v :| MergedInto(h, done, traffic, fd, v, now, cfg);
      DrainStamps(h, done, v.fd, fd, now, cfg.drainTimeout, z);
    } else {
      NothingOpens(h, done, now, z);
    }
  }

  lemma ReassignStamps(
    h: Head, done: Head, traffic: seq<Envelope>, fd: int, now: int, cfg: Config, did: bool, z: int)
    requires Bookkept(h) && ReassignOutcome(h, done, traffic, fd, now, cfg, did)
    ensures Stamps(h, done, now, z)
  {
    if did {
      var s :| ReassignedTo(h, done, traffic, fd, s, now, cfg);
      DrainStamps(h, done, fd, s.fd, now, cfg.drainTimeout, z);
    } else {
      NothingOpens(h, done, now, z);
    }
  }

  /** Whoever is concerned is stamped. */
  lemma ConcernedIsStamped(h: Head, e: Event, h': Head, cfg: Config, z: int)
    requires Bookkept(h) && Stepped(h, e, h', cfg) && Concerns(h, e, z)
    ensures z in h'.lastOp && h'.lastOp[z] == e.now
  {
    if e.Process? {
      var traffic, spawn :|
        Processed(h, h', traffic, e.now, cfg, e.spawnWorks, e.ran, e.done, e.acted, spawn);
      var fd := e.ran.value;
      ExecutedStamps(h.(pending := h.pending - {fd}), e.done, traffic, fd, h.pending[fd], e.now, cfg, e.spawnWorks,
                     spawn, e.acted, z);
      if z != fd {
        var v :| Opens(h, e.done, v) && (z == v || z == e.done.targets[v]);
        assert Opens(h.(pending := h.pending - {fd}), e.done, v);
      }
    }
  }

  /** A stamp is only ever replaced by a later one. */
  lemma StampsGrow(h: Head, e: Event, h': Head, cfg: Config, z: int, t: int)
    requires Bookkept(h) && Stepped(h, e, h', cfg) && z in h.lastOp && h.lastOp[z] >= t && e.now >= t
    ensures z in h'.lastOp && h'.lastOp[z] >= t
  {
    match e {
      case Process(now, spawnWorks, ran, done, acted) =>
        var traffic, spawn :| Processed(h, h', traffic, now, cfg, spawnWorks, ran, done, acted, spawn);
        if ran.Some? {
          var fd := ran.value;
          ExecutedStamps(h.(pending := h.pending - {fd}), done, traffic, fd, h.pending[fd], now, cfg, spawnWorks, spawn,
                         acted, z);
        }
      case Enqueue(_, _, _) =>
      case Load(_, _, _) =>
      case Told(_, op) => ToldStamps(h, op);
    }
  }

  lemma ToldStamps(h: Head, op: HeadOp)
    requires !op.OpDrain? && !op.OpEvict?
    ensures var k := Do(h, op);
            && (k.lastOp == h.lastOp || (op.OpAck? && k.lastOp == h.lastOp[op.fd := op.now]))
            && k.lastScale == h.lastScale && k.lowSince == h.lowSince
  {
    match op {
      case OpHear(fd, r) => HearLeavesTimes(h, fd, r);
      case OpRelocate(c) => RelocateLeavesTimes(h, c);
      case OpExpire(_, _) =>
      case OpAck(_, _, _) =>
    }
  }

  lemma HearLeavesTimes(h: Head, fd: int, r: Report)
    ensures var k := Hear(h, fd, r);
            k.lastOp == h.lastOp && k.lastScale == h.lastScale && k.lowSince == h.lowSince
  {
  }

  lemma RelocateLeavesTimes(h: Head, c: Chunk)
    ensures var k := RelocateHead(h, c);
            k.lastOp == h.lastOp && k.lastScale == h.lastScale && k.lowSince == h.lowSince
  {
    var r := RelocationChoice(h, c);
    if r.Some? {
      var list := Put(h.zones, r.value.(box := Stretch(r.value.box, c)));
      assert RelocateHead(h, c) == h.(zones := list);
    } else {
      assert RelocateHead(h, c) == h;
    }
  }

  lemma SteppedKeepsBooks(h: Head, e: Event, h': Head, cfg: Config)
    requires Bookkept(h) && Stepped(h, e, h', cfg)
    ensures Bookkept(h')
  {
    match e {
      case Process(now, spawnWorks, ran, done, acted) =>
        var traffic, spawn :| Processed(h, h', traffic, now, cfg, spawnWorks, ran, done, acted, spawn);
        if ran.Some? {
          var fd := ran.value;
          ExecutedKeepsBooks(h.(pending := h.pending - {fd}), done, traffic, fd, h.pending[fd], now, cfg, spawnWorks,
                             spawn, acted);
        }
      case Enqueue(_, _, _) =>
      case Load(_, _, _) =>
      case Told(_, op) => OpKeepsBooks(h, op);
    }
  }

  lemma {:induction false} TraceKeepsBooks(hs: seq<Head>, es: seq<Event>, cfg: Config, k: nat)
    requires Trace(hs, es, cfg) && Bookkept(hs[0]) && k <= |es|
    ensures Bookkept(hs[k])
  {
    if k > 0 {
      TraceKeepsBooks(hs, es, cfg, k - 1);
      SteppedKeepsBooks(hs[k - 1], es[k - 1], hs[k], cfg);
    }
  }

  lemma {:induction false} StampedSince(hs: seq<Head>, es: seq<Event>, cfg: Config, i: nat, k: nat, z: int)
    requires Trace(hs, es, cfg) && Bookkept(hs[0]) && i < k <= |es| && Concerns(hs[i], es[i], z)
    ensures z in hs[k].lastOp && hs[k].lastOp[z] >= es[i].now
  {
    TraceKeepsBooks(hs, es, cfg, k - 1);
    if k == i + 1 {
      ConcernedIsStamped(hs[i], es[i], hs[k], cfg, z);
    } else {
      StampedSince(hs, es, cfg, i, k - 1, z);
      StampsGrow(hs[k - 1], es[k - 1], hs[k], cfg, z, es[i].now);
    }
  }

  // ------------------------------------------------------------------------------------------------
  // No flapping
  // ------------------------------------------------------------------------------------------------

  /**
   No operation of the queue runs on a zone within the settle window of one that acted on it, drained it, or drained
   another into it; and no merge acts for it within the merge window.
   */
  lemma NoFlapping(hs: seq<Head>, es: seq<Event>, cfg: Config, i: nat, j: nat, z: int)
    requires Trace(hs, es, cfg) && Bookkept(hs[0]) && i < j < |es| && Concerns(hs[i], es[i], z)
    requires es[j].Process? && es[j].ran == Some(z)
    ensures es[j].now - es[i].now >= cfg.settle
    ensures z in hs[j].pending && hs[j].pending[z].Merge? && es[j].acted ==> es[j].now - es[i].now >= cfg.mergeWindow
  {
    StampedSince(hs, es, cfg, i, j, z);
    var traffic, spawn :| Processed(hs[j], hs[j + 1], traffic, es[j].now, cfg, es[j].spawnWorks, es[j].ran, es[j].done,
                                    es[j].acted, spawn);
  }

  /** Right after a drain was opened neither of the two is settled, nor may merge. */
  lemma DrainUnsettles(h: Head, v: int, w: int, now: int, timeout: int, later: int, cfg: Config, z: int)
    requires z == v || z == w
    ensures var k := StartDrain(h, v, w, now, timeout);
            && (later < now + cfg.settle ==> !Settled(k, z, later, cfg))
            && (later < now + cfg.mergeWindow ==> !CanMerge(k, z, later, cfg))
  {
    DrainZones(h, v, w, now, timeout);
  }

  /** And nobody else is stamped: a turn that did nothing, or concerned others, costs a zone no window. */
  lemma OnlyTheConcernedAreStamped(h: Head, e: Event, h': Head, cfg: Config, z: int)
    requires Bookkept(h) && Stepped(h, e, h', cfg) && !Concerns(h, e, z)
    ensures SameStamp(h, h', z)
  {
    match e {
      case Process(_, _, _, _, _) => TurnStampsOnly(h, e, h', cfg, z);
      case Enqueue(_, _, _) =>
      case Load(_, _, _) =>
      case Told(_, op) => ToldStamps(h, op);
    }
  }

  lemma TurnStampsOnly(h: Head, e: Event, h': Head, cfg: Config, z: int)
    requires Bookkept(h) && Stepped(h, e, h', cfg) && e.Process? && !Concerns(h, e, z)
    ensures SameStamp(h, h', z)
  {
    var traffic, spawn :| Processed(h, h', traffic, e.now, cfg, e.spawnWorks, e.ran, e.done, e.acted, spawn);
    if e.ran.Some? {
      var fd := e.ran.value;
      var queued := h.(pending := h.pending - {fd});
      ExecutedStamps(queued, e.done, traffic, fd, h.pending[fd], e.now, cfg, e.spawnWorks, spawn, e.acted, z);
      if !e.acted {
        UnactedDrainsNothing(queued, e.done, traffic, fd, h.pending[fd], e.now, cfg, e.spawnWorks, spawn);
      }
      assert h'.lastOp == if e.acted then e.done.lastOp[fd := e.now] else e.done.lastOp;
    }
  }

  lemma UnactedDrainsNothing(
    h: Head, done: Head, traffic: seq<Envelope>, fd: int, op: LifecycleOp, now: int, cfg: Config, spawnWorks: bool,
    spawn: Spawn)
    requires Executed(h, done, traffic, fd, op, now, cfg, spawnWorks, spawn, false)
    ensures forall v :: !Opens(h, done, v)
  {
  }

  ghost predicate SplitActs(h: Head, e: Event, z: int) {
    e.Process? && e.ran == Some(z) && e.acted && z in h.pending && h.pending[z].Split?
  }

  /** Only a split that acts moves the time of the last split. */
  lemma ScalesGrow(h: Head, e: Event, h': Head, cfg: Config, z: int)
    requires Stepped(h, e, h', cfg)
    ensures if SplitActs(h, e, z) then z in h'.lastScale && h'.lastScale[z] == e.now
            else (z in h'.lastScale <==> z in h.lastScale) && (z in h.lastScale ==> h'.lastScale[z] == h.lastScale[z])
  {
    match e {
      case Process(now, spawnWorks, ran, done, acted) =>
        var traffic, spawn :| Processed(h, h', traffic, now, cfg, spawnWorks, ran, done, acted, spawn);
        if ran.Some? {
          ExecutedScales(h.(pending := h.pending - {ran.value}), done, traffic, ran.value, h.pending[ran.value], now,
                         cfg, spawnWorks, spawn, acted);
        }
      case Enqueue(_, _, _) =>
      case Load(_, _, _) =>
      case Told(_, op) => ToldStamps(h, op);
    }
  }

  lemma ExecutedScales(h: Head, done: Head, traffic: seq<Envelope>, fd: int, op: LifecycleOp, now: int, cfg: Config,
                       spawnWorks: bool, spawn: Spawn, acted: bool)
    requires Executed(h, done, traffic, fd, op, now, cfg, spawnWorks, spawn, acted)
    ensures done.lastScale == if op.Split? && acted then h.lastScale[fd := now] else h.lastScale
  {
    match op {
      case Evict =>
      case Split =>
      case Merge =>
        if acted {
          var v :| MergedInto(h, done, traffic, fd, v, now, cfg);
          DrainLeavesTimes(h, v.fd, fd, now, cfg.drainTimeout);
        }
      case Reassign =>
        var did :| ReassignOutcome(h, done, traffic, fd, now, cfg, did);
        if did {
          var s :| ReassignedTo(h, done, traffic, fd, s, now, cfg);
          DrainLeavesTimes(h, fd, s.fd, now, cfg.drainTimeout);
        }
    }
  }

  lemma DrainLeavesTimes(h: Head, v: int, w: int, now: int, timeout: int)
    ensures var k := StartDrain(h, v, w, now, timeout); k.lastScale == h.lastScale && k.lowSince == h.lowSince
  {
  }

  lemma {:induction false} ScaledSince(hs: seq<Head>, es: seq<Event>, cfg: Config, i: nat, k: nat, z: int)
    requires Trace(hs, es, cfg) && i < k <= |es| && SplitActs(hs[i], es[i], z)
    ensures z in hs[k].lastScale && hs[k].lastScale[z] >= es[i].now
  {
    if k > i + 1 {
      ScaledSince(hs, es, cfg, i, k - 1, z);
    }
    ScaledOnce(hs[k - 1], es[k - 1], hs[k], cfg, z, es[i].now);
  }

  lemma ScaledOnce(h: Head, e: Event, h': Head, cfg: Config, z: int, t: int)
    requires Stepped(h, e, h', cfg) && t <= e.now && (SplitActs(h, e, z) || (z in h.lastScale && h.lastScale[z] >= t))
    ensures z in h'.lastScale && h'.lastScale[z] >= t
  {
    ScalesGrow(h, e, h', cfg, z);
  }

  /** Two splits of a zone are at least the cooldown apart. */
  lemma SplitsAreApart(hs: seq<Head>, es: seq<Event>, cfg: Config, i: nat, j: nat, z: int)
    requires Trace(hs, es, cfg) && i < j < |es| && SplitActs(hs[i], es[i], z) && SplitActs(hs[j], es[j], z)
    ensures es[j].now - es[i].now >= cfg.cooldown
  {
    ScaledSince(hs, es, cfg, i, j, z);
    var traffic, spawn :| Processed(hs[j], hs[j + 1], traffic, es[j].now, cfg, es[j].spawnWorks, es[j].ran, es[j].done,
                                    es[j].acted, spawn);
  }

  // ------------------------------------------------------------------------------------------------
  // Merges need an idle window
  // ------------------------------------------------------------------------------------------------

  /** A merge of `z` is run. */
  ghost predicate Merges(h: Head, e: Event, z: int) {
    e.Process? && e.ran == Some(z) && z in h.pending && h.pending[z].Merge?
  }

  /** A low load report of `z`, or a merge of it that has to wait. */
  ghost predicate Idles(h: Head, e: Event, z: int) { e == Load(e.now, z, true) || (Merges(h, e, z) && !e.acted) }

  /** A high load report of `z`, a merge of it that acted, or one that was only short of a partner. */
  ghost predicate Breaks(h: Head, e: Event, z: int, cfg: Config) {
    || e == Load(e.now, z, false)
    || (Merges(h, e, z) && (e.acted || (CanMerge(h, z, e.now, cfg) && Alone(h, z))))
  }

  ghost predicate Proper(h: Head) { forall y :: y in h.zones ==> y.box.NonEmpty() }

  ghost predicate Alone(h: Head, z: int) { Proper(h) && forall y :: !Candidate(h, z, y) }

  lemma AloneHasNoPartner(h: Head, z: int)
    requires Alone(h, z)
    ensures !HasPartner(h, z)
  {
    forall y ensures !Partner(h, z, y) {
      if Partner(h, z, y) {
        PartnerIff(h, z, y);
        assert Candidate(h, z, y);
      }
    }
  }

  /** The idle window of `z` goes on, or is opened now; a break closes it. */
  ghost predicate IdleMoves(h: Head, e: Event, h': Head, z: int, cfg: Config) {
    z in h'.lowSince ==>
      && !Breaks(h, e, z, cfg)
      && ((z in h.lowSince && h'.lowSince[z] == h.lowSince[z]) || (Idles(h, e, z) && h'.lowSince[z] == e.now))
  }

  lemma CandidateIsPartner(h: Head, z: int)
    requires Proper(h) && !Alone(h, z)
    ensures HasPartner(h, z)
  {
    var y :| Candidate(h, z, y);
    PartnerIff(h, z, y);
    assert Partner(h, z, y);
  }

  lemma PartnersIgnoreTheQueue(h: Head, p: map<int, LifecycleOp>, z: int, now: int, cfg: Config)
    ensures var q := h.(pending := p);
            && (CanMerge(q, z, now, cfg) <==> CanMerge(h, z, now, cfg))
            && (Alone(h, z) ==> !HasPartner(q, z)) && (Proper(h) && !Alone(h, z) ==> HasPartner(q, z))
  {
    var q := h.(pending := p);
    assert forall y :: Candidate(q, z, y) <==> Candidate(h, z, y);
    if Alone(h, z) {
      AloneHasNoPartner(q, z);
    } else if Proper(h) {
      CandidateIsPartner(q, z);
    }
  }

  /** What a turn of the queue does to the windows. */
  ghost predicate Windows(h: Head, e: Event, after: map<int, int>, cfg: Config) {
    && e.Process? && (e.ran.Some? ==> e.ran.value in h.pending)
    && after == if e.ran.None? || !h.pending[e.ran.value].Merge? then h.lowSince
                else if e.acted then h.lowSince - {e.ran.value}
                else IdleAfter(h.(pending := h.pending - {e.ran.value}), e.ran.value, e.now, cfg)
  }

  lemma TurnLeavesWindows(h: Head, e: Event, h': Head, cfg: Config)
    requires Stepped(h, e, h', cfg) && e.Process?
    ensures Windows(h, e, h'.lowSince, cfg)
  {
    var traffic, spawn :| Processed(h, h', traffic, e.now, cfg, e.spawnWorks, e.ran, e.done, e.acted, spawn);
    if e.ran.Some? {
      var fd := e.ran.value;
      ExecutedIdles(h.(pending := h.pending - {fd}), e.done, traffic, fd, h.pending[fd], e.now, cfg, e.spawnWorks,
                    spawn, e.acted);
    }
  }

  lemma TurnIdles(h: Head, e: Event, h': Head, cfg: Config, z: int)
    requires Windows(h, e, h'.lowSince, cfg)
    ensures IdleMoves(h, e, h', z, cfg)
  {
    PartnersIgnoreTheQueue(h, h.pending - {z}, z, e.now, cfg);
  }

  lemma IdleOpens(h: Head, e: Event, h': Head, cfg: Config, z: int)
    requires Stepped(h, e, h', cfg)
    ensures IdleMoves(h, e, h', z, cfg)
  {
    match e {
      case Process(_, _, _, _, _) =>
        TurnLeavesWindows(h, e, h', cfg);
        TurnIdles(h, e, h', cfg, z);
      case Enqueue(_, _, _) =>
      case Load(_, _, _) =>
      case Told(_, op) => ToldStamps(h, op);
    }
  }

  lemma ExecutedIdles(h: Head, done: Head, traffic: seq<Envelope>, fd: int, op: LifecycleOp, now: int, cfg: Config,
                      spawnWorks: bool, spawn: Spawn, acted: bool)
    requires Executed(h, done, traffic, fd, op, now, cfg, spawnWorks, spawn, acted)
    ensures done.lowSince == if !op.Merge? then h.lowSince
                             else if acted then h.lowSince - {fd} else IdleAfter(h, fd, now, cfg)
  {
    if op.Merge? && acted {
      var v :| MergedInto(h, done, traffic, fd, v, now, cfg);
    }
    if op.Reassign? {
      var did :| ReassignOutcome(h, done, traffic, fd, now, cfg, did);
      if did {
        var s :| ReassignedTo(h, done, traffic, fd, s, now, cfg);
        DrainLeavesTimes(h, fd, s.fd, now, cfg.drainTimeout);
      }
    }
  }

  /** The idle window that is open at `k` was opened at `i`, and nothing broke it since. */
  ghost predicate OpenedAt(hs: seq<Head>, es: seq<Event>, cfg: Config, i: nat, k: nat, z: int)
    requires |hs| == |es| + 1 && k <= |es|
  {
    && i < k && Idles(hs[i], es[i], z) && z in hs[k].lowSince && es[i].now == hs[k].lowSince[z]
    && forall m :: i <= m < k ==> !Breaks(hs[m], es[m], z, cfg)
  }

  lemma TraceIdles(hs: seq<Head>, es: seq<Event>, cfg: Config, k: nat, z: int)
    requires Trace(hs, es, cfg) && k < |es|
    ensures IdleMoves(hs[k], es[k], hs[k + 1], z, cfg)
  {
    IdleOpens(hs[k], es[k], hs[k + 1], cfg, z);
  }

  lemma OpenedStays(hs: seq<Head>, es: seq<Event>, cfg: Config, i: nat, k: nat, z: int)
    requires |hs| == |es| + 1 && k < |es| && IdleMoves(hs[k], es[k], hs[k + 1], z, cfg) && z in hs[k + 1].lowSince
    requires OpenedAt(hs, es, cfg, i, k, z) && hs[k + 1].lowSince[z] == hs[k].lowSince[z]
    ensures OpenedAt(hs, es, cfg, i, k + 1, z)
  {
  }

  lemma {:induction false} IdleSince(hs: seq<Head>, es: seq<Event>, cfg: Config, k: nat, z: int) returns (i: nat)
    requires |hs| == |es| + 1 && k <= |es| && z in hs[k].lowSince && z !in hs[0].lowSince
    requires forall m :: 0 <= m < k ==> IdleMoves(hs[m], es[m], hs[m + 1], z, cfg)
    ensures OpenedAt(hs, es, cfg, i, k, z)
  {
    assert IdleMoves(hs[k - 1], es[k - 1], hs[k - 1 + 1], z, cfg);
    if z in hs[k - 1].lowSince && hs[k].lowSince[z] == hs[k - 1].lowSince[z] {
      i := IdleSince(hs, es, cfg, k - 1, z);
      OpenedStays(hs, es, cfg, i, k - 1, z);
    } else {
      i := k - 1;
    }
  }

  lemma OpeningOf(hs: seq<Head>, es: seq<Event>, cfg: Config, k: nat, z: int) returns (i: nat)
    requires Trace(hs, es, cfg) && k <= |es| && z in hs[k].lowSince && z !in hs[0].lowSince
    ensures OpenedAt(hs, es, cfg, i, k, z)
  {
    forall m | 0 <= m < k ensures IdleMoves(hs[m], es[m], hs[m + 1], z, cfg) {
      TraceIdles(hs, es, cfg, m, z);
    }
    i := IdleSince(hs, es, cfg, k, z);
  }

  /**
   A merge acts for a zone only after a whole merge window that began with a low load report or a merge that had to
   wait, and in which its load was never high, it did not merge, and no merge found it without a partner.
   */
  lemma MergeWasIdle(hs: seq<Head>, es: seq<Event>, cfg: Config, j: nat, z: int) returns (i: nat)
    requires Trace(hs, es, cfg) && z !in hs[0].lowSince && j < |es| && Merges(hs[j], es[j], z) && es[j].acted
    ensures i < j && Idles(hs[i], es[i], z) && es[j].now - es[i].now >= cfg.mergeWindow
    ensures forall m :: i <= m < j ==> !Breaks(hs[m], es[m], z, cfg)
  {
    var traffic, spawn :| Processed(hs[j], hs[j + 1], traffic, es[j].now, cfg, es[j].spawnWorks, es[j].ran, es[j].done,
                                    es[j].acted, spawn);
    i := OpeningOf(hs, es, cfg, j, z);
  }

  /** An open window stays as it is until something breaks it. */
  lemma IdleStays(h: Head, e: Event, h': Head, cfg: Config, z: int)
    requires Stepped(h, e, h', cfg) && Proper(h) && z in h.lowSince && !Breaks(h, e, z, cfg)
    ensures z in h'.lowSince && h'.lowSince[z] == h.lowSince[z]
  {
    match e {
      case Process(_, _, _, _, _) =>
        TurnLeavesWindows(h, e, h', cfg);
        TurnLeavesIdle(h, e, h', cfg, z);
      case Enqueue(_, _, _) =>
      case Load(_, _, _) =>
      case Told(_, op) => ToldStamps(h, op);
    }
  }

  lemma TurnLeavesIdle(h: Head, e: Event, h': Head, cfg: Config, z: int)
    requires Windows(h, e, h'.lowSince, cfg) && Proper(h) && z in h.lowSince && !Breaks(h, e, z, cfg)
    ensures z in h'.lowSince && h'.lowSince[z] == h.lowSince[z]
  {
    PartnersIgnoreTheQueue(h, h.pending - {z}, z, e.now, cfg);
  }

  ghost predicate Unbroken(hs: seq<Head>, es: seq<Event>, cfg: Config, i: nat, k: nat, z: int)
    requires |hs| == |es| + 1 && k <= |es|
  {
    forall m :: i < m < k ==> Proper(hs[m]) && !Breaks(hs[m], es[m], z, cfg)
  }

  lemma LowLoadOpens(hs: seq<Head>, es: seq<Event>, cfg: Config, i: nat, z: int)
    requires Trace(hs, es, cfg) && i < |es| && z !in hs[0].lowSince && es[i] == Load(es[i].now, z, true)
    ensures z in hs[i + 1].lowSince && hs[i + 1].lowSince[z] <= es[i].now
  {
    assert Stepped(hs[i], es[i], hs[i + 1], cfg);
    if z in hs[i].lowSince {
      var first := OpeningOf(hs, es, cfg, i, z);
    }
  }

  ghost predicate KeepsWindow(h: Head, h': Head, z: int) {
    z in h.lowSince ==> z in h'.lowSince && h'.lowSince[z] == h.lowSince[z]
  }

  lemma {:induction false} WindowLasts(hs: seq<Head>, i: nat, k: nat, z: int)
    requires i <= k < |hs| && forall m :: i <= m < k ==> KeepsWindow(hs[m], hs[m + 1], z)
    ensures KeepsWindow(hs[i], hs[k], z)
  {
    if i < k {
      WindowLasts(hs, i, k - 1, z);
      assert KeepsWindow(hs[k - 1], hs[k - 1 + 1], z);
    }
  }

  lemma IdleLasts(hs: seq<Head>, es: seq<Event>, cfg: Config, i: nat, k: nat, z: int)
    requires Trace(hs, es, cfg) && i < k <= |es| && z !in hs[0].lowSince
    requires es[i] == Load(es[i].now, z, true) && Unbroken(hs, es, cfg, i, k, z)
    ensures z in hs[k].lowSince && hs[k].lowSince[z] <= es[i].now
  {
    LowLoadOpens(hs, es, cfg, i, z);
    forall m | i + 1 <= m < k ensures KeepsWindow(hs[m], hs[m + 1], z) {
      if z in hs[m].lowSince {
        IdleStays(hs[m], es[m], hs[m + 1], cfg, z);
      }
    }
    WindowLasts(hs, i + 1, k, z);
  }

  /** And after a low load report and a whole window without a break, a merge that may act and has a partner acts. */
  lemma IdleZoneMerges(hs: seq<Head>, es: seq<Event>, cfg: Config, i: nat, j: nat, z: int)
    requires Trace(hs, es, cfg) && i < j < |es| && z !in hs[0].lowSince
    requires es[i] == Load(es[i].now, z, true) && Unbroken(hs, es, cfg, i, j, z)
    requires Merges(hs[j], es[j], z) && CanMerge(hs[j], z, es[j].now, cfg) && Proper(hs[j]) && !Alone(hs[j], z)
    requires es[j].now - es[i].now >= cfg.mergeWindow
    ensures es[j].acted
  {
    IdleLasts(hs, es, cfg, i, j, z);
    PartnersIgnoreTheQueue(hs[j], hs[j].pending - {z}, z, es[j].now, cfg);
    MergeActs(hs[j], es[j], hs[j + 1], cfg, z);
  }

  lemma MergeActs(h: Head, e: Event, h': Head, cfg: Config, z: int)
    requires Stepped(h, e, h', cfg) && Merges(h, e, z) && z in h.lowSince && e.now - h.lowSince[z] >= cfg.mergeWindow
    requires var q := h.(pending := h.pending - {z}); CanMerge(q, z, e.now, cfg) && HasPartner(q, z)
    ensures e.acted
  {
    var traffic, spawn :| Processed(h, h', traffic, e.now, cfg, e.spawnWorks, e.ran, e.done, e.acted, spawn);
  }
}
