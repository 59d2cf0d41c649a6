/**
 Length-prefixed frames over a byte stream, and the accumulator that takes them apart again however the stream
 was cut into pieces.
 */
module Framing {
  import opened Geometry

  type Byte = b: int | 0 <= b < 256

  const MAX_PACKET_SIZE: nat := 65536

  // ------------------------------------------------------------------------------------------------
  // Frames
  // ------------------------------------------------------------------------------------------------

  /** The big-endian 32-bit length prefix. */
  function Prefix(n: nat): seq<Byte>
    requires n < 0x1_0000_0000
  {
    [n / 0x100_0000, n / 0x1_0000 % 256, n / 0x100 % 256, n % 256]
  }

  /** The length the four bytes at `i` announce. */
  function LengthAt(s: seq<Byte>, i: nat): nat
    requires i + 4 <= |s|
  {
    (s[i] as int) * 0x100_0000 + (s[i + 1] as int) * 0x1_0000 + (s[i + 2] as int) * 0x100 + s[i + 3]
  }

  lemma PrefixReadsBack(n: nat, t: seq<Byte>)
    requires n < 0x1_0000_0000
    ensures LengthAt(Prefix(n) + t, 0) == n
  {
    var a := n / 0x100;
    var b := a / 0x100;
    assert n / 0x1_0000 == b && n / 0x100_0000 == b / 0x100;
    assert n == a * 0x100 + n % 0x100 && a == b * 0x100 + a % 0x100 && b == b / 0x100 * 0x100 + b % 0x100;
  }

  predicate Plausible(len: nat) { 0 < len <= MAX_PACKET_SIZE }

  type Packet = p: seq<Byte> | Plausible(|p|) witness [0]

  function Frame(p: Packet): seq<Byte> { Prefix(|p|) + p }

  function Frames(ps: seq<Packet>): seq<Byte> {
    if ps == [] then [] else Frame(ps[0]) + Frames(ps[1..])
  }

  /** `toFramed`: a packet over the limit is refused. */
  method ToFramed(buffer: seq<Byte>) returns (r: Option<seq<Byte>>)
    ensures r.None? <==> |buffer| > 65536
    ensures r.Some? ==> |r.value| == |buffer| + 4 && r.value[4..] == buffer && LengthAt(r.value, 0) == |buffer|
    ensures Plausible(|buffer|) ==> r == Some(Frame(buffer))
  {
    if |buffer| > MAX_PACKET_SIZE {
      return None;
    }
    PrefixReadsBack(|buffer|, buffer);
    r := Some(Prefix(|buffer|) + buffer);
  }

  // ------------------------------------------------------------------------------------------------
  // The scan, as a value
  // ------------------------------------------------------------------------------------------------

  /** A frame to deliver, or the point up to which the buffer may be dropped, with where the scan stopped. */
  datatype Found = Hit(pos: nat, len: nat) | Miss(drop: nat, scan: nat, resyncing: bool)

  /**
   While resynchronising a candidate counts only if it is complete and followed by the end or by another plausible
   prefix.
   */
  predicate Verified(p: seq<Byte>, end: nat) {
    end <= |p| && (end == |p| || (end + 4 <= |p| && Plausible(LengthAt(p, end))))
  }

  function Scan(p: seq<Byte>, scan: nat, resyncing: bool, park: Option<nat>): Found
    decreases |p| - scan
  {
    if scan + 4 > |p| then Miss(if park.Some? then park.value else scan, scan, resyncing)
    else
      var len := LengthAt(p, scan);
      var end := scan + 4 + len;
      if !Plausible(len) then Scan(p, scan + 1, true, park)
      else if !resyncing then (if end > |p| then Miss(scan, scan, false) else Hit(scan, len))
      else if Verified(p, end) then Hit(scan, len)
      else Scan(p, scan + 1, true, if park.None? && end + 4 > |p| then Some(scan) else park)
  }

  datatype State = State(pending: seq<Byte>, scan: nat, discarded: nat, resyncing: bool)

  const FRESH: State := State([], 0, 0, false)

  /** `compact`: dropping nothing also leaves the scan where it is. */
  function Compact(s: State, pos: nat): State
    requires pos <= |s.pending|
  {
    if pos == 0 then s else s.(pending := s.pending[pos..], scan := 0, discarded := s.discarded + pos)
  }

  lemma {:induction false} ScanBounds(p: seq<Byte>, scan: nat, resyncing: bool, park: Option<nat>)
    requires scan <= |p| && (park.Some? ==> park.value <= scan)
    ensures var r := Scan(p, scan, resyncing, park);
            match r
            case Hit(pos, len) =>
              && scan <= pos && Plausible(len) && pos + 4 + len <= |p| && LengthAt(p, pos) == len
              && (!resyncing && pos > scan ==> !Plausible(LengthAt(p, scan)))
            case Miss(drop, at, re) =>
              && drop <= at <= |p| && scan <= at
              && (!re ==> !resyncing && at == scan
                          && drop == (if park.Some? && scan + 4 > |p| then park.value else scan))
    decreases |p| - scan
  {
    if scan + 4 <= |p| {
      var len := LengthAt(p, scan);
      var end := scan + 4 + len;
      if !Plausible(len) {
        ScanBounds(p, scan + 1, true, park);
      } else if resyncing && !Verified(p, end) {
        ScanBounds(p, scan + 1, true, if park.None? && end + 4 > |p| then Some(scan) else park);
      }
    }
  }

  /** At `k` stands the length of a packet of legal size. */
  predicate Sized(p: seq<Byte>, k: nat) { k + 4 <= |p| && 0 < LengthAt(p, k) <= 65536 }

  /** At `k` stands a frame that ends the buffer or has another length behind it. */
  predicate Confirmed(p: seq<Byte>, k: nat) {
    Sized(p, k) && (k + 4 + LengthAt(p, k) == |p| || Sized(p, k + 4 + LengthAt(p, k)))
  }

  /** At `k` stands a length, and what would follow the frame has not arrived yet. */
  predicate Undecided(p: seq<Byte>, k: nat) {
    Sized(p, k) && !Confirmed(p, k) && |p| < k + 8 + LengthAt(p, k)
  }

  /**
   Out of step, the first confirmed frame is taken; without one, what stands before the first undecided one is dropped,
   or all that has been looked at.
   */
  lemma {:induction false} ResyncIsExact(p: seq<Byte>, scan: nat, park: Option<nat>)
    requires scan <= |p|
    ensures match Scan(p, scan, true, park)
            case Hit(pos, len) =>
              && scan <= pos && Confirmed(p, pos) && len == LengthAt(p, pos)
              && forall k :: scan <= k < pos ==> !Confirmed(p, k)
            case Miss(drop, at, re) =>
              && re && |p| < at + 4 && (at == scan || at + 3 == |p|) && (forall k :: scan <= k ==> !Confirmed(p, k))
              && (park.Some? ==> drop == park.value)
              && (park.None? ==>
                    && scan <= drop && (Undecided(p, drop) || drop == at)
                    && forall k :: scan <= k < drop ==> !Undecided(p, k))
    decreases |p| - scan
  {
    if scan + 4 <= |p| && !Confirmed(p, scan) {
      ResyncIsExact(p, scan + 1, if park.None? && Undecided(p, scan) then Some(scan) else park);
    }
  }

  /** In step, the frame where the scan stands is taken as soon as it is there; a length of no packet puts it out. */
  lemma InStepIsExact(p: seq<Byte>, scan: nat)
    requires scan <= |p|
    ensures var r := Scan(p, scan, false, None);
            if |p| < scan + 4 || (Sized(p, scan) && |p| < scan + 4 + LengthAt(p, scan))
            then r == Miss(scan, scan, false)
            else if Sized(p, scan) then r == Hit(scan, LengthAt(p, scan))
            else r == Scan(p, scan + 1, true, None)
  {
  }

  /** One call of `next`. */
  function Next(s: State): (r: (State, Option<Packet>))
    requires s.scan <= |s.pending|
  {
    ScanBounds(s.pending, s.scan, s.resyncing, None);
    match Scan(s.pending, s.scan, s.resyncing, None)
    case Hit(pos, len) =>
      (State(s.pending[pos + 4 + len..], 0, s.discarded + pos, false), Some(s.pending[pos + 4..pos + 4 + len]))
    case Miss(drop, at, re) => (Compact(s.(scan := at, resyncing := re), drop), None)
  }

  function Fed(s: State, bytes: seq<Byte>): State { s.(pending := s.pending + bytes) }

  class PacketFramer {
    var pending: seq<Byte>
    var scan: nat
    var discarded: nat
    var resyncing: bool

    ghost predicate Valid()
      reads this
    {
      scan <= |pending|
    }

    ghost function Value(): State
      reads this
    {
      State(pending, scan, discarded, resyncing)
    }

    constructor ()
      ensures Valid() && Value() == FRESH
    {
      pending, scan, discarded, resyncing := [], 0, 0, false;
    }

    method Feed(data: seq<Byte>)
      requires Valid()
      modifies `pending
      ensures Valid() && Value() == Fed(old(Value()), data)
    {
      pending := pending + data;
    }

    method CompactTo(pos: nat)
      requires pos <= |pending|
      modifies `pending, `scan, `discarded
      ensures Value() == Compact(old(Value()), pos)
    {
      if pos == 0 {
        return;
      }
      discarded := discarded + pos;
      pending := pending[pos..];
      scan := 0;
    }

    /** Hands out the frame at `pos`: what lies before it is counted as lost, the frame is not. */
    method Deliver(pos: nat, len: nat) returns (out: Packet)
      requires pos + 4 + len <= |pending| && Plausible(len)
      modifies `pending, `scan, `discarded
      ensures out == old(pending)[pos + 4..pos + 4 + len]
      ensures pending == old(pending)[pos + 4 + len..] && scan == 0 && discarded == old(discarded) + pos
    {
      out := pending[pos + 4..pos + 4 + len];
      ghost var was := pending;
      CompactTo(pos);
      assert pending == was[pos..];
      pending := pending[4 + len..];
      scan := 0;
    }

    /** Moves the scan forward to a frame, or to the end of what can be judged so far. */
    method Search() returns (found: Found)
      requires Valid()
      modifies `scan, `resyncing
      ensures Valid()
      ensures found == Scan(pending, old(scan), old(resyncing), None)
      ensures match found case Hit(pos, _) => pos == scan case Miss(_, at, re) => at == scan && re == resyncing
    {
      ghost var from, was := scan, resyncing;
      var park: Option<nat> := None;
      while scan + 4 <= |pending|
        invariant scan <= |pending|
        invariant Scan(pending, scan, resyncing, park) == Scan(pending, from, was, None)
        decreases |pending| - scan
      {
        var len := LengthAt(pending, scan);
        if len == 0 || len > MAX_PACKET_SIZE {
          resyncing := true;
          scan := scan + 1;
          continue;
        }
        var end := scan + 4 + len;
        if !resyncing {
          if end > |pending| {
            return Miss(scan, scan, false);
          }
          return Hit(scan, len);
        }
        if Verified(pending, end) {
          return Hit(scan, len);
        }
        if park.None? && end + 4 > |pending| {
          park := Some(scan);
        }
        scan := scan + 1;
      }
      found := Miss(if park.Some? then park.value else scan, scan, resyncing);
    }

    /** The next complete packet, or none while bytes are missing. */
    method TakeNext() returns (out: Option<Packet>)
      requires Valid()
      modifies this
      ensures Valid()
      ensures (Value(), out) == Next(old(Value()))
    {
      ScanBounds(pending, scan, resyncing, None);
      var found := Search();
      match found {
        case Hit(pos, len) =>
          resyncing := false;
          var p := Deliver(pos, len);
          return Some(p);
        case Miss(drop, _, _) =>
          CompactTo(drop);
          return None;
      }
    }
  }

  // ------------------------------------------------------------------------------------------------
  // Well-formed streams
  // ------------------------------------------------------------------------------------------------

  /** Calls `next` until it has nothing more. */
  function Drain(s: State): (r: (State, seq<Packet>))
    requires s.scan <= |s.pending|
    ensures r.0.scan <= |r.0.pending|
    decreases |s.pending|
  {
    ScanBounds(s.pending, s.scan, s.resyncing, None);
    var (t, out) := Next(s);
    match out
    case None => (t, [])
    case Some(p) => var (u, ps) := Drain(t); (u, [p] + ps)
  }

  /** Feeds the pieces one after the other, draining after each. */
  function Pump(s: State, pieces: seq<seq<Byte>>): (r: (State, seq<Packet>))
    requires s.scan <= |s.pending|
    decreases |pieces|
  {
    if pieces == [] then (s, [])
    else
      var (t, ps) := Drain(Fed(s, pieces[0]));
      var (u, qs) := Pump(t, pieces[1..]);
      (u, ps + qs)
  }

  function Joined(pieces: seq<seq<Byte>>): seq<Byte> {
    if pieces == [] then [] else pieces[0] + Joined(pieces[1..])
  }

  /** In step with the stream: nothing lost, and what is buffered is the beginning of what is still to come. */
  predicate InStep(s: State, rest: seq<Byte>, ps: seq<Packet>) {
    s == State(s.pending, 0, 0, false) && s.pending + rest == Frames(ps)
  }

  lemma FrameAhead(pending: seq<Byte>, rest: seq<Byte>, ps: seq<Packet>)
    requires ps != [] && pending + rest == Frames(ps)
    ensures |Frame(ps[0])| == 4 + |ps[0]|
    ensures |pending| >= 4 ==> LengthAt(pending, 0) == |ps[0]|
    ensures |pending| >= 4 + |ps[0]| ==>
              pending[4..4 + |ps[0]|] == ps[0] && pending[4 + |ps[0]|..] + rest == Frames(ps[1..])
  {
    var all := Frames(ps);
    assert all == Prefix(|ps[0]|) + (ps[0] + Frames(ps[1..]));
    PrefixReadsBack(|ps[0]|, ps[0] + Frames(ps[1..]));
    if |pending| >= 4 {
      assert forall i :: 0 <= i < 4 ==> pending[i] == all[i];
    }
    if |pending| >= 4 + |ps[0]| {
      assert pending[4..4 + |ps[0]|] == all[4..4 + |ps[0]|];
      assert pending[4 + |ps[0]|..] + rest == all[4 + |ps[0]|..];
    }
  }

  lemma NextInStep(s: State, rest: seq<Byte>, ps: seq<Packet>)
    requires InStep(s, rest, ps)
    ensures if ps != [] && |s.pending| >= 4 + |ps[0]|
            then Next(s).1 == Some(ps[0]) && InStep(Next(s).0, rest, ps[1..]) && |Next(s).0.pending| < |s.pending|
            else Next(s) == (s, None)
  {
    if ps != [] {
      FrameAhead(s.pending, rest, ps);
    }
  }

  lemma {:induction false} DrainInStep(s: State, rest: seq<Byte>, ps: seq<Packet>) returns (k: nat)
    requires InStep(s, rest, ps)
    ensures k <= |ps| && Drain(s).1 == ps[..k] && InStep(Drain(s).0, rest, ps[k..])
    ensures rest == [] ==> k == |ps|
    decreases |s.pending|
  {
    NextInStep(s, rest, ps);
    if ps != [] && |s.pending| >= 4 + |ps[0]| {
      var j := DrainInStep(Next(s).0, rest, ps[1..]);
      k := j + 1;
      assert ps[..k] == [ps[0]] + ps[1..][..j] && ps[k..] == ps[1..][j..];
    } else {
      k := 0;
      if rest == [] && ps != [] {
        FrameAhead(s.pending, rest, ps);
        assert false;
      }
    }
  }

  lemma {:induction false} PumpInStep(s: State, pieces: seq<seq<Byte>>, ps: seq<Packet>)
    requires InStep(s, Joined(pieces), ps) && (pieces == [] ==> Drain(s) == (s, []))
    ensures Pump(s, pieces).1 == ps && Pump(s, pieces).0 == FRESH
    decreases |pieces|
  {
    if pieces == [] {
      var k := DrainInStep(s, [], ps);
      assert ps[..k] == ps && ps[k..] == [];
    } else {
      var t, rest := Fed(s, pieces[0]), Joined(pieces[1..]);
      assert t.pending + rest == s.pending + Joined(pieces);
      var k := DrainInStep(t, rest, ps);
      DrainIsIdle(t, rest, ps);
      PumpInStep(Drain(t).0, pieces[1..], ps[k..]);
      assert ps == ps[..k] + ps[k..];
    }
  }

  lemma {:induction false} DrainIsIdle(s: State, rest: seq<Byte>, ps: seq<Packet>)
    requires InStep(s, rest, ps)
    ensures Drain(Drain(s).0) == (Drain(s).0, [])
    decreases |s.pending|
  {
    NextInStep(s, rest, ps);
    if ps != [] && |s.pending| >= 4 + |ps[0]| {
      DrainIsIdle(Next(s).0, rest, ps[1..]);
    }
  }

  /**
   Fragmentation independence: however the framed stream is cut into pieces, feeding the pieces and draining
   after each yields exactly the packets, in order, with nothing discarded and nothing left over.
   */
  lemma FragmentationIndependence(ps: seq<Packet>, pieces: seq<seq<Byte>>)
    requires Joined(pieces) == Frames(ps)
    ensures Pump(FRESH, pieces) == (FRESH, ps)
  {
    assert Drain(FRESH) == (FRESH, []);
    PumpInStep(FRESH, pieces, ps);
  }

  // ------------------------------------------------------------------------------------------------
  // Arbitrary bytes
  // ------------------------------------------------------------------------------------------------

  datatype Event = Receive(bytes: seq<Byte>) | Take

  function After(s: State, out: seq<Packet>, e: Event): (r: (State, seq<Packet>))
    requires s.scan <= |s.pending|
    ensures r.0.scan <= |r.0.pending|
  {
    match e
    case Receive(bytes) => (Fed(s, bytes), out)
    case Take =>
      ScanBounds(s.pending, s.scan, s.resyncing, None);
      (Next(s).0, if Next(s).1.Some? then out + [Next(s).1.value] else out)
  }

  /** A framer put through a history, with the packets it handed out. */
  function Replay(s: State, es: seq<Event>): (r: (State, seq<Packet>))
    requires s.scan <= |s.pending|
    ensures r.0.scan <= |r.0.pending|
    decreases |es|
  {
    if es == [] then (s, [])
    else After(Replay(s, es[..|es| - 1]).0, Replay(s, es[..|es| - 1]).1, es[|es| - 1])
  }

  /** Everything that was fed. */
  function Input(es: seq<Event>): seq<Byte> {
    if es == [] then [] else Input(es[..|es| - 1]) + match es[|es| - 1] case Receive(b) => b case Take => []
  }

  /** A segment of the input: dropped bytes, or one frame with its prefix. */
  datatype Segment = Lost(bytes: seq<Byte>) | Whole(packet: Packet)

  function Bytes(parts: seq<Segment>): seq<Byte> {
    if parts == [] then []
    else Bytes(parts[..|parts| - 1]) + match parts[|parts| - 1] case Lost(b) => b case Whole(p) => Frame(p)
  }

  function Delivered(parts: seq<Segment>): seq<Packet> {
    if parts == [] then []
    else Delivered(parts[..|parts| - 1]) + match parts[|parts| - 1] case Lost(_) => [] case Whole(p) => [p]
  }

  function LostBytes(parts: seq<Segment>): nat {
    if parts == [] then 0
    else LostBytes(parts[..|parts| - 1]) + match parts[|parts| - 1] case Lost(b) => |b| case Whole(_) => 0
  }

  /** The frames with their prefixes, in bytes. */
  function FrameBytes(ps: seq<Packet>): nat {
    if ps == [] then 0 else FrameBytes(ps[..|ps| - 1]) + 4 + |ps[|ps| - 1]|
  }

  /** From `base` discarded bytes on, the input is these segments one after the other and then what is pending. */
  predicate Accounts(base: nat, parts: seq<Segment>, input: seq<Byte>, s: State, out: seq<Packet>) {
    && input == Bytes(parts) + s.pending
    && Delivered(parts) == out
    && base + LostBytes(parts) == s.discarded
  }

  /** Four bytes are the prefix of the length they announce. */
  lemma LengthWritesBack(s: seq<Byte>, i: nat)
    requires i + 4 <= |s|
    ensures LengthAt(s, i) < 0x1_0000_0000 && Prefix(LengthAt(s, i)) == s[i..i + 4]
  {
    var a, b, c, d := s[i] as int, s[i + 1] as int, s[i + 2] as int, s[i + 3] as int;
    var n := LengthAt(s, i);
    assert n / 0x100 == a * 0x1_0000 + b * 0x100 + c && n % 0x100 == d;
    assert n / 0x1_0000 == a * 0x100 + b && n / 0x100_0000 == a;
    assert s[i..i + 4] == [a, b, c, d];
  }

  lemma DropAccounted(base: nat, parts: seq<Segment>, input: seq<Byte>, s: State, out: seq<Packet>, pos: nat)
    requires Accounts(base, parts, input, s, out) && pos <= |s.pending|
    ensures var t := s.(pending := s.pending[pos..], discarded := s.discarded + pos);
            Accounts(base, parts + [Lost(s.pending[..pos])], input, t, out)
  {
    var more := parts + [Lost(s.pending[..pos])];
    assert more[..|parts|] == parts;
    assert s.pending == s.pending[..pos] + s.pending[pos..];
  }

  lemma FrameAccounted(base: nat, parts: seq<Segment>, input: seq<Byte>, s: State, out: seq<Packet>, len: nat)
    requires Accounts(base, parts, input, s, out)
    requires Plausible(len) && 4 + len <= |s.pending| && LengthAt(s.pending, 0) == len
    ensures var p: Packet := s.pending[4..4 + len];
            Accounts(base, parts + [Whole(p)], input, s.(pending := s.pending[4 + len..]), out + [p])
  {
    var p: Packet := s.pending[4..4 + len];
    assert (parts + [Whole(p)])[..|parts|] == parts;
    LengthWritesBack(s.pending, 0);
    assert s.pending == Frame(p) + s.pending[4 + len..];
  }

  /** The new segments begin with a lost one that reaches the scan; without any the scan has only moved on. */
  predicate Extends(parts: seq<Segment>, s: State, more: seq<Segment>, t: State) {
    && |parts| <= |more| && more[..|parts|] == parts
    && if |more| == |parts| then t.scan >= s.scan else more[|parts|].Lost? && |more[|parts|].bytes| >= s.scan
  }

  /** A candidate is parked, and a frame found, only where the scan has been. */
  lemma {:induction false} ScanKeepsPark(p: seq<Byte>, scan: nat, resyncing: bool, park: Option<nat>)
    requires scan <= |p| && (park.Some? ==> park.value <= scan)
    ensures var r := Scan(p, scan, resyncing, park);
            r.Miss? ==> r.drop >= if park.Some? then park.value else scan
    decreases |p| - scan
  {
    if scan + 4 <= |p| {
      var len := LengthAt(p, scan);
      var end := scan + 4 + len;
      if !Plausible(len) {
        ScanKeepsPark(p, scan + 1, true, park);
      } else if resyncing && !Verified(p, end) {
        ScanKeepsPark(p, scan + 1, true, if park.None? && end + 4 > |p| then Some(scan) else park);
      }
    }
  }

  lemma MissAccounted(base: nat, parts: seq<Segment>, input: seq<Byte>, s: State, out: seq<Packet>)
    returns (more: seq<Segment>)
    requires Accounts(base, parts, input, s, out) && s.scan <= |s.pending| && Next(s).1.None?
    ensures Accounts(base, more, input, Next(s).0, out)
    ensures Extends(parts, s, more, Next(s).0)
  {
    ScanBounds(s.pending, s.scan, s.resyncing, None);
    ScanKeepsPark(s.pending, s.scan, s.resyncing, None);
    var drop := Scan(s.pending, s.scan, s.resyncing, None).drop;
    DropAccounted(base, parts, input, s, out, drop);
    more := if drop == 0 then parts else parts + [Lost(s.pending[..drop])];
  }

  lemma HitAt(s: State) returns (pos: nat, len: nat)
    requires s.scan <= |s.pending| && Next(s).1.Some?
    ensures s.scan <= pos && pos + 4 + len <= |s.pending| && Plausible(len) && LengthAt(s.pending, pos) == len
    ensures var (t, p) := Next(s);
            && t.discarded == s.discarded + pos && t.pending == s.pending[pos + 4 + len..]
            && p.value == s.pending[pos + 4..pos + 4 + len]
  {
    ScanBounds(s.pending, s.scan, s.resyncing, None);
    var found := Scan(s.pending, s.scan, s.resyncing, None);
    pos, len := found.pos, found.len;
  }

  lemma HitAccounted(
    base: nat, parts: seq<Segment>, input: seq<Byte>, s: State, out: seq<Packet>) returns (more: seq<Segment>)
    requires Accounts(base, parts, input, s, out) && s.scan <= |s.pending| && Next(s).1.Some?
    ensures Accounts(base, more, input, Next(s).0, out + [Next(s).1.value])
    ensures Extends(parts, s, more, Next(s).0)
  {
    var u, p := Next(s).0, Next(s).1.value;
    var pos, len := HitAt(s);
    DropAccounted(base, parts, input, s, out, pos);
    var t := s.(pending := s.pending[pos..], discarded := s.discarded + pos);
    var mid := parts + [Lost(s.pending[..pos])];
    FrameAccounted(base, mid, input, t, out, len);
    more := mid + [Whole(p)];
    assert t.pending[4..4 + len] == p && t.pending[4 + len..] == u.pending;
  }

  lemma ReceiveAccounted(base: nat, parts: seq<Segment>, input: seq<Byte>, s: State, out: seq<Packet>, bytes: seq<Byte>)
    requires Accounts(base, parts, input, s, out)
    ensures Accounts(base, parts, input + bytes, Fed(s, bytes), out)
  {
    assert input + bytes == Bytes(parts) + (s.pending + bytes);
  }

  lemma {:induction false} SegmentsAddUp(parts: seq<Segment>)
    ensures |Bytes(parts)| == LostBytes(parts) + FrameBytes(Delivered(parts))
  {
    if parts != [] {
      SegmentsAddUp(parts[..|parts| - 1]);
      var last, before := parts[|parts| - 1], Delivered(parts[..|parts| - 1]);
      if last.Whole? {
        assert (before + [last.packet])[..|before|] == before;
      } else {
        assert before + [] == before;
      }
    }
  }

  /**
   On arbitrary bytes, in any mixture of feeds and calls of `next`, the input falls apart into consecutive
   segments followed by what is pending: the delivered packets, in order, are its frames, each right after its
   own length, and all the rest is counted as discarded. So deliveries never overlap, and every byte is accounted
   for.
   */
  lemma {:induction false} EveryByteAccounted(es: seq<Event>) returns (parts: seq<Segment>)
    ensures var (s, out) := Replay(FRESH, es);
            Accounts(0, parts, Input(es), s, out) && |Input(es)| == FrameBytes(out) + s.discarded + |s.pending|
    decreases |es|
  {
    if es == [] {
      parts := [];
    } else {
      var was := es[..|es| - 1];
      var before := EveryByteAccounted(was);
      var s, out, input := Replay(FRESH, was).0, Replay(FRESH, was).1, Input(was);
      if es[|es| - 1].Receive? {
        ReceiveAccounted(0, before, input, s, out, es[|es| - 1].bytes);
        parts := before;
      } else {
        assert input + [] == input;
        if Next(s).1.None? {
          parts := MissAccounted(0, before, input, s, out);
        } else {
          parts := HitAccounted(0, before, input, s, out);
        }
      }
    }
    SegmentsAddUp(parts);
  }

  // ------------------------------------------------------------------------------------------------
  // A candidate parked at the very start of the buffer
  // ------------------------------------------------------------------------------------------------

  /**
   A resynchronising call that finds nothing has parked its first plausible candidate that lacks bytes at `drop` and
   scanned on beyond it.
   */
  predicate Parks(s: State, drop: nat) {
    && s.scan <= |s.pending| && drop + 4 <= |s.pending| && Plausible(LengthAt(s.pending, drop))
    && var r := Scan(s.pending, s.scan, s.resyncing, None); r.Miss? && r.resyncing && r.drop == drop < r.scan
  }

  /** Once these bytes have arrived, the candidate at `drop` can be verified. */
  predicate Completes(s: State, drop: nat, bytes: seq<Byte>) {
    drop + 4 <= |s.pending| && Verified(s.pending + bytes, drop + 4 + LengthAt(s.pending, drop))
  }

  /** The candidate at `drop` of the framer `s` is what the next call hands out once the bytes have arrived. */
  predicate DeliversParked(s: State, drop: nat, bytes: seq<Byte>)
    requires Parks(s, drop) && Completes(s, drop, bytes)
  {
    var all, len := s.pending + bytes, LengthAt(s.pending, drop);
    ScanBounds(s.pending, s.scan, s.resyncing, None);
    var (t, p) := Next(Fed(Next(s).0, bytes));
    p == Some(all[drop + 4..drop + 4 + len]) && t.pending == all[drop + 4 + len..] && t.discarded == s.discarded + drop
  }

  lemma LengthInPrefix(p: seq<Byte>, more: seq<Byte>, i: nat)
    requires i + 4 <= |p|
    ensures LengthAt(p + more, i) == LengthAt(p, i)
  {
  }

  lemma LengthInSuffix(p: seq<Byte>, from: nat, i: nat)
    requires from <= i && i + 4 <= |p|
    ensures LengthAt(p[from..], i - from) == LengthAt(p, i)
  {
  }

  /** Away from the start the buffer is cut at the candidate, and the next call begins with it. */
  lemma ParkedInsideIsDelivered(s: State, drop: nat, bytes: seq<Byte>)
    requires Parks(s, drop) && Completes(s, drop, bytes) && drop > 0
    ensures DeliversParked(s, drop, bytes)
  {
    var all, len := s.pending + bytes, LengthAt(s.pending, drop);
    var end := drop + 4 + len;
    var t := Fed(Next(s).0, bytes);
    LengthInPrefix(s.pending, bytes, drop);
    LengthInSuffix(all, drop, drop);
    assert t.pending == all[drop..] && t.scan == 0 && t.resyncing;
    assert Verified(t.pending, 4 + len) by {
      if end + 4 <= |all| {
        LengthInSuffix(all, drop, end);
      }
    }
    assert Scan(t.pending, 0, true, None) == Hit(0, len);
    SliceOfSuffix(all, drop, 4, 4 + len);
  }

  lemma SliceOfSuffix(p: seq<Byte>, from: nat, i: nat, j: nat)
    requires i <= j && from + j <= |p|
    ensures p[from..][i..j] == p[from + i..from + j] && p[from..][j..] == p[from + j..]
  {
  }

  lemma InputGrows(p: seq<Byte>, es: seq<Event>)
    requires es != []
    ensures var was, e := es[..|es| - 1], es[|es| - 1];
            p + Input(es) == if e.Receive? then p + Input(was) + e.bytes else p + Input(was)
  {
    var was, e := es[..|es| - 1], es[|es| - 1];
    if e.Receive? {
      assert p + (Input(was) + e.bytes) == p + Input(was) + e.bytes;
    } else {
      assert Input(was) + [] == Input(was);
    }
  }

  /**
   At the very start `compact` drops nothing and leaves the scan advanced: the next call begins behind the candidate.
   */
  lemma ParkedAtStartIsPassed(s: State, bytes: seq<Byte>)
    requires Parks(s, 0) && Completes(s, 0, bytes)
    ensures !DeliversParked(s, 0, bytes)
  {
    ScanBounds(s.pending, s.scan, s.resyncing, None);
    var t := Fed(Next(s).0, bytes);
    assert t.scan > 0;
    ScanBounds(t.pending, t.scan, t.resyncing, None);
  }

  /**
   A parked candidate, once its bytes have arrived and verify it, is delivered by the next call exactly if it was not
   parked at the very start of the buffer.
   */
  lemma ParkedIsDeliveredIff(s: State, drop: nat, bytes: seq<Byte>)
    requires Parks(s, drop) && Completes(s, drop, bytes)
    ensures DeliversParked(s, drop, bytes) <==> drop > 0
  {
    if drop > 0 {
      ParkedInsideIsDelivered(s, drop, bytes);
    } else {
      ParkedAtStartIsPassed(s, bytes);
    }
  }

  /** The input from here on begins with `n` bytes that are lost, or is all still pending with the scan beyond them. */
  predicate StartsLost(parts: seq<Segment>, s: State, n: nat) {
    if parts == [] then s.scan >= n else parts[0].Lost? && |parts[0].bytes| >= n
  }

  lemma StaysLost(parts: seq<Segment>, s: State, more: seq<Segment>, t: State, n: nat)
    requires StartsLost(parts, s, n) && Extends(parts, s, more, t)
    ensures StartsLost(more, t, n)
  {
    assert parts != [] ==> more[0] == more[..|parts|][0];
  }

  lemma TakeLosesStart(base: nat, parts: seq<Segment>, input: seq<Byte>, s: State, out: seq<Packet>, n: nat)
    returns (more: seq<Segment>)
    requires Accounts(base, parts, input, s, out) && StartsLost(parts, s, n) && s.scan <= |s.pending|
    ensures var (t, ps) := After(s, out, Take); Accounts(base, more, input, t, ps) && StartsLost(more, t, n)
  {
    if Next(s).1.None? {
      more := MissAccounted(base, parts, input, s, out);
    } else {
      more := HitAccounted(base, parts, input, s, out);
    }
    StaysLost(parts, s, more, Next(s).0, n);
  }

  lemma ReceiveLosesStart(
    base: nat, parts: seq<Segment>, input: seq<Byte>, s: State, out: seq<Packet>, bytes: seq<Byte>, n: nat)
    requires Accounts(base, parts, input, s, out) && StartsLost(parts, s, n) && s.scan <= |s.pending|
    ensures var (t, ps) := After(s, out, Receive(bytes));
            Accounts(base, parts, input + bytes, t, ps) && StartsLost(parts, t, n)
  {
    ReceiveAccounted(base, parts, input, s, out, bytes);
  }

  /** What the scan has passed is lost for good, whatever arrives and however often `next` is called. */
  lemma {:induction false} PassedIsLost(s: State, es: seq<Event>) returns (parts: seq<Segment>)
    requires s.scan <= |s.pending|
    ensures Accounts(s.discarded, parts, s.pending + Input(es), Replay(s, es).0, Replay(s, es).1)
    ensures StartsLost(parts, Replay(s, es).0, s.scan)
    decreases |es|
  {
    if es == [] {
      parts := [];
      assert s.pending + [] == s.pending;
    } else {
      var was, e := es[..|es| - 1], es[|es| - 1];
      var before := PassedIsLost(s, was);
      var t, out, input := Replay(s, was).0, Replay(s, was).1, s.pending + Input(was);
      InputGrows(s.pending, es);
      if e.Receive? {
        ReceiveLosesStart(s.discarded, before, input, t, out, e.bytes, s.scan);
        parts := before;
      } else {
        parts := TakeLosesStart(s.discarded, before, input, t, out, s.scan);
      }
    }
  }

  /**
   A candidate parked at the very start is never delivered, in any continuation: of the input that begins with it,
   either nothing has been taken apart yet, or the first segment is a discarded one that contains its beginning.
   */
  lemma ParkedAtStartIsAbandoned(s: State, es: seq<Event>) returns (parts: seq<Segment>)
    requires Parks(s, 0)
    ensures var t := Next(s).0;
            && t.pending == s.pending && t.scan <= |t.pending|
            && Accounts(t.discarded, parts, s.pending + Input(es), Replay(t, es).0, Replay(t, es).1)
            && (parts == [] || (parts[0].Lost? && parts[0].bytes != []))
  {
    ScanBounds(s.pending, s.scan, s.resyncing, None);
    parts := PassedIsLost(Next(s).0, es);
  }

  /** While resynchronising the outcome does depend on the fragmentation: the same frame, in two pieces or in three. */
  lemma ResyncDependsOnFragmentation()
    ensures Pump(FRESH, [[255, 255, 255, 255, 0, 0, 0, 2], [42, 43]]).1 == [[42, 43]]
    ensures Pump(FRESH, [[255, 255, 255, 255, 0, 0, 0, 2], [42], [43]]).1 == []
  {
    var g: seq<Byte> := [255, 255, 255, 255, 0, 0, 0, 2];
    var h: seq<Byte> := [0, 0, 0, 2];
    var parked := State(h, 0, 4, true);
    assert Next(Fed(FRESH, g)) == (parked, None) by {
      GarbageThenPrefix();
    }
    assert Drain(Fed(FRESH, g)) == (parked, []);
    WholeArrives(h);
    HalfArrives(h);
    var two: seq<seq<Byte>> := [g, [42, 43]];
    assert two[1..] == [[42, 43]] && two[1..][1..] == [];
    assert Pump(FRESH, two).1 == [] + Pump(parked, [[42, 43]]).1;
    assert Pump(parked, [[42, 43]]).1 == Drain(Fed(parked, [42, 43])).1 + [];
    var three: seq<seq<Byte>> := [g, [42], [43]];
    assert three[1..] == [[42], [43]] && three[1..][1..] == [[43]] && three[1..][1..][1..] == [];
    var half := Drain(Fed(parked, [42])).0;
    assert Pump(half, [[43]]).1 == Drain(Fed(half, [43])).1 + [];
    assert Pump(parked, [[42], [43]]).1 == [] + Pump(half, [[43]]).1;
    assert Pump(FRESH, three).1 == [] + Pump(parked, [[42], [43]]).1;
  }

  lemma GarbageThenPrefix()
    ensures Next(Fed(FRESH, [255, 255, 255, 255, 0, 0, 0, 2])) == (State([0, 0, 0, 2], 0, 4, true), None)
  {
    var p: seq<Byte> := [255, 255, 255, 255, 0, 0, 0, 2];
    assert Fed(FRESH, p).pending == p;
    assert LengthAt(p, 4) == 2;
    assert Scan(p, 5, true, Some(4)) == Miss(4, 5, true);
    assert Scan(p, 4, true, None) == Miss(4, 5, true);
    assert Scan(p, 3, true, None) == Miss(4, 5, true);
    assert Scan(p, 2, true, None) == Miss(4, 5, true);
    assert Scan(p, 1, true, None) == Miss(4, 5, true);
    assert Scan(p, 0, false, None) == Miss(4, 5, true);
    assert p[4..] == [0, 0, 0, 2];
  }

  lemma WholeArrives(h: seq<Byte>)
    requires h == [0, 0, 0, 2]
    ensures Drain(Fed(State(h, 0, 4, true), [42, 43])).1 == [[42, 43]]
  {
    var p: seq<Byte> := [0, 0, 0, 2, 42, 43];
    var s := Fed(State(h, 0, 4, true), [42, 43]);
    assert s.pending == p && LengthAt(p, 0) == 2;
    assert Scan(p, 0, true, None) == Hit(0, 2);
    assert p[4..6] == [42, 43] && p[6..] == [];
    assert Next(s) == (State([], 0, 4, false), Some([42, 43]));
    assert Next(State([], 0, 4, false)) == (State([], 0, 4, false), None);
  }

  lemma HalfArrives(h: seq<Byte>)
    requires h == [0, 0, 0, 2]
    ensures var r := Drain(Fed(State(h, 0, 4, true), [42]));
            r.1 == [] && Drain(Fed(r.0, [43])).1 == []
  {
    var p: seq<Byte> := [0, 0, 0, 2, 42];
    var s := Fed(State(h, 0, 4, true), [42]);
    assert s.pending == p && LengthAt(p, 0) == 2 && LengthAt(p, 1) == 554;
    assert Scan(p, 2, true, Some(0)) == Miss(0, 2, true);
    assert Scan(p, 1, true, Some(0)) == Miss(0, 2, true);
    assert Scan(p, 0, true, None) == Miss(0, 2, true);
    var t := State(p, 2, 4, true);
    assert Next(s) == (t, None);
    var q: seq<Byte> := [0, 0, 0, 2, 42, 43];
    assert Fed(t, [43]).pending == q && LengthAt(q, 2) == 141867;
    assert Scan(q, 3, true, None) == Miss(3, 3, true);
    assert Scan(q, 2, true, None) == Miss(3, 3, true);
    assert Next(Fed(t, [43])).1 == None;
  }
}
