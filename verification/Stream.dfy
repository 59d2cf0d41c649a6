/**
 One message is one frame on a byte stream whose writes may be cut short and whose reads may return less than
 was asked for.
 */
module Stream {
  import opened Geometry
  import opened Framing
  import opened Codec

  const SINK: nat := 4096

  function Flat(iov: seq<seq<Byte>>): seq<Byte> {
    if iov == [] then [] else iov[0] + Flat(iov[1..])
  }

  /** The frame `send` puts on the wire: the length is narrowed to 32 bits. */
  function Wrapped(data: seq<Byte>): seq<Byte> { Prefix(|data| % 0x1_0000_0000) + data }

  /**
   A connection: the bytes on their way, and how much each system call moves. A call that moves nothing is a
   time-out (negative) or a close (zero).
   */
  class Connection {
    var wire: seq<Byte>
    var calls: nat
    const grant: nat -> int

    constructor (schedule: nat -> int)
      ensures wire == [] && calls == 0 && grant == schedule
    {
      wire, calls, grant := [], 0, schedule;
    }

    /** No system call from the given one on times out or is cut off. */
    ghost predicate ReliableFrom(k: nat) {
      forall i :: k <= i ==> grant(i) > 0
    }

    /** The `writev` system call: some of the bytes, at the kernel's choice. */
    method WriteV(iov: seq<seq<Byte>>) returns (w: int)
      modifies this
      ensures calls == old(calls) + 1
      ensures w <= |Flat(iov)|
      ensures w > 0 ==> wire == old(wire) + Flat(iov)[..w]
      ensures w <= 0 ==> wire == old(wire)
      ensures w <= 0 <==> grant(old(calls)) <= 0 || Flat(iov) == []
    {
      var all := Flat(iov);
      w := if grant(calls) < |all| then grant(calls) else |all|;
      if w > 0 {
        wire := wire + all[..w];
      }
      calls := calls + 1;
    }

    /** The `recv` system call: between one byte and all that was asked for. */
    method Recv(n: nat) returns (r: int, got: seq<Byte>)
      requires n > 0
      modifies this
      ensures calls == old(calls) + 1
      ensures r <= n && |got| == (if r > 0 then r else 0) && old(wire) == got + wire
      ensures r > 0 <==> grant(old(calls)) > 0 && old(wire) != []
      ensures grant(old(calls)) <= 0 ==> r == grant(old(calls))
      ensures grant(old(calls)) > 0 && old(wire) == [] ==> r == 0
    {
      var most := if n < |wire| then n else |wire|;
      r := if grant(calls) < most then grant(calls) else most;
      got := [];
      if r > 0 {
        got, wire := wire[..r], wire[r..];
      }
      calls := calls + 1;
    }

    /** Skips the first `left` bytes of the vector in place. */
    static method Advance(iov0: seq<seq<Byte>>, w: nat) returns (iov: seq<seq<Byte>>)
      requires w <= |Flat(iov0)|
      ensures Flat(iov) == Flat(iov0)[w..]
      ensures w == |Flat(iov0)| ==> iov == []
    {
      var left := w;
      iov := iov0;
      ghost var all, done := Flat(iov0), 0;
      while |iov| > 0 && left >= |iov[0]|
        invariant 0 <= left && 0 <= done && done + left == w && Flat(iov) == all[done..]
        decreases |iov|
      {
        left := left - |iov[0]|;
        assert Flat(iov) == iov[0] + Flat(iov[1..]);
        Suffix(all, done, |iov[0]|);
        done := done + |iov[0]|;
        iov := iov[1..];
      }
      if |iov| > 0 && left > 0 {
        ghost var was := Flat(iov);
        iov := iov[0 := iov[0][left..]];
        assert Flat(iov) == was[left..];
        Suffix(all, done, left);
      } else {
        assert left == 0 && done == w;
      }
    }

    /** Writes all the pieces, however few bytes each call takes. */
    method WritevAll(iov0: seq<seq<Byte>>) returns (ok: bool)
      modifies this
      ensures calls >= old(calls)
      ensures ok ==> wire == old(wire) + Flat(iov0)
      ensures !ok ==> exists k: nat :: k <= |Flat(iov0)| && wire == old(wire) + Flat(iov0)[..k]
      ensures Flat(iov0) != [] && ReliableFrom(old(calls)) ==> ok
    {
      var iov := iov0;
      ghost var done: nat := 0;
      while |iov| > 0
        invariant calls >= old(calls)
        invariant done <= |Flat(iov0)| && Flat(iov) == Flat(iov0)[done..] && wire == old(wire) + Flat(iov0)[..done]
        invariant Flat(iov0) != [] && iov != [] ==> Flat(iov) != []
        invariant iov == [] ==> done == |Flat(iov0)|
        decreases |Flat(iov)|
      {
        var w := WriteV(iov);
        if w <= 0 {
          return false;
        }
        ghost var all := Flat(iov0);
        assert all[done..][..w] == all[done..done + w];
        assert all[..done] + all[done..done + w] == all[..done + w];
        assert all[done..][w..] == all[done + w..];
        done := done + w;
        iov := Advance(iov, w);
      }
      assert Flat(iov0)[..done] == Flat(iov0);
      ok := true;
    }

    /** `send` on the plain path: the prefix and the payload leave as one vector. */
    method Send(data: seq<Byte>) returns (ok: bool)
      modifies this
      ensures calls >= old(calls)
      ensures ok ==> wire == old(wire) + Wrapped(data)
      ensures !ok ==> exists k: nat :: k <= |Wrapped(data)| && wire == old(wire) + Wrapped(data)[..k]
      ensures ReliableFrom(old(calls)) ==> ok
    {
      var len := Prefix(|data| % 0x1_0000_0000);
      var iov := [len, data];
      assert iov[1..] == [data] && [data][1..] == [];
      assert Flat([data]) == data + [] == data;
      if |data| == 0 {
        iov := [len];
        assert iov[1..] == [];
        assert Flat(iov) == len + [] == Wrapped(data);
      }
      assert Flat(iov) == Wrapped(data);
      ok := WritevAll(iov);
    }

    /** Fills the first `n` bytes of the buffer, or stops at the first call that moves nothing. */
    method RecvAll(buf: array<Byte>, n: nat) returns (r: int)
      requires n <= buf.Length
      modifies this, buf
      ensures calls >= old(calls)
      ensures r == n || r <= 0
      ensures r == n ==> n <= |old(wire)| && buf[..n] == old(wire)[..n] && wire == old(wire)[n..]
      ensures forall i :: n <= i < buf.Length ==> buf[i] == old(buf[i])
      ensures ReliableFrom(old(calls)) && n <= |old(wire)| ==> r == n
      ensures ReliableFrom(old(calls)) && n > |old(wire)| ==> r == 0 && wire == []
      ensures n > 0 && grant(old(calls)) <= 0 ==> r == grant(old(calls)) && wire == old(wire)
    {
      var got := 0;
      while got < n
        invariant got <= n && got <= |old(wire)|
        invariant calls >= old(calls) && (got == 0 ==> calls == old(calls)) && (got > 0 ==> grant(old(calls)) > 0)
        invariant wire == old(wire)[got..] && buf[..got] == old(wire)[..got]
        invariant forall i :: n <= i < buf.Length ==> buf[i] == old(buf[i])
      {
        var k, bytes := Recv(n - got);
        if k <= 0 {
          return k;
        }
        Store(buf, got, bytes);
        Taken(old(wire), got, bytes, wire);
        got := got + k;
      }
      r := got;
    }

    /** Reads `len` bytes off the wire and throws them away. */
    method Skip(len: nat) returns (r: int)
      modifies this
      ensures calls >= old(calls)
      ensures r == 1 || r <= 0
      ensures r == 1 ==> len <= |old(wire)| && wire == old(wire)[len..]
      ensures ReliableFrom(old(calls)) && len <= |old(wire)| ==> r == 1
    {
      var sink := new Byte[SINK];
      var left := len;
      ghost var skipped := 0;
      while left > 0
        invariant 0 <= left && 0 <= skipped <= |old(wire)| && skipped + left == len && calls >= old(calls)
        invariant wire == old(wire)[skipped..]
        decreases left
      {
        var chunk := if left < SINK then left else SINK;
        var k := RecvAll(sink, chunk);
        if k <= 0 {
          return k;
        }
        Suffix(old(wire), skipped, chunk);
        left := left - chunk;
        skipped := skipped + chunk;
      }
      assert skipped == len;
      r := 1;
    }

    /**
     One call of `receive`. A positive result is exactly the message at the head of the wire; a call that finds
     nothing before a time-out takes nothing; and under a reliable schedule a frame is consumed whole, whether it
     fits the buffer or not.
     */
    method Receive(buffer: array<Byte>) returns (r: int)
      modifies this, buffer
      ensures calls >= old(calls)
      ensures r > 0 ==> HoldsFrame(old(wire)) && r == LengthAt(old(wire), 0) <= buffer.Length
      ensures r > 0 ==> buffer[..r] == old(wire)[4..4 + r] && wire == old(wire)[4 + r..]
      ensures grant(old(calls)) <= 0 ==> r <= 0 && wire == old(wire)
      ensures ReliableFrom(old(calls)) && HoldsFrame(old(wire)) ==>
                var len := LengthAt(old(wire), 0);
                wire == old(wire)[4 + len..] && r == if len <= buffer.Length then len else -1
      ensures ReliableFrom(old(calls)) && (|old(wire)| < 4 || !Plausible(LengthAt(old(wire), 0))) ==> r == 0
    {
      ghost var all := wire;
      var net := new Byte[4];
      var head := RecvAll(net, 4);
      if head == 0 {
        return 0;
      }
      if head != 4 {
        return -1;
      }
      var len := LengthAt(net[..4], 0);
      LengthOfHead(net[..4], all);
      if len == 0 || len > MAX_PACKET_SIZE {
        return 0;
      }
      if len > buffer.Length {
        var k := Skip(len);
        if k <= 0 {
          return k;
        }
        Suffix(all, 4, len);
        return -1;
      }
      r := RecvAll(buffer, len);
      if r > 0 {
        Suffix(all, 4, len);
      }
    }
  }

  method Store(buf: array<Byte>, at: nat, bytes: seq<Byte>)
    requires at + |bytes| <= buf.Length
    modifies buf
    ensures buf[..at + |bytes|] == old(buf[..at]) + bytes
    ensures forall i :: at + |bytes| <= i < buf.Length ==> buf[i] == old(buf[i])
  {
    forall i | 0 <= i < |bytes| {
      buf[at + i] := bytes[i];
    }
  }

  lemma Taken(all: seq<Byte>, got: nat, bytes: seq<Byte>, rest: seq<Byte>)
    requires got <= |all| && all[got..] == bytes + rest
    ensures got + |bytes| <= |all| && all[..got + |bytes|] == all[..got] + bytes && all[got + |bytes|..] == rest
  {
    assert |all[got..]| == |bytes| + |rest|;
    Suffix(all, got, |bytes|);
    assert all[..got] + all[got..got + |bytes|] == all[..got + |bytes|];
  }

  /** The wire begins with a whole frame of a legal length. */
  predicate HoldsFrame(all: seq<Byte>) {
    |all| >= 4 && Plausible(LengthAt(all, 0)) && 4 + LengthAt(all, 0) <= |all|
  }

  lemma LengthOfHead(head: seq<Byte>, all: seq<Byte>)
    requires |all| >= 4 && head == all[..4]
    ensures LengthAt(head, 0) == LengthAt(all, 0)
  {
  }

  lemma Suffix(s: seq<Byte>, i: nat, j: nat)
    requires i + j <= |s|
    ensures s[i..][j..] == s[i + j..] && s[i..][..j] == s[i..i + j]
  {
  }

  /** A frame is at the head of the wire exactly when the wire holds a frame of that length and content. */
  lemma FrameAtHead(m: Packet, all: seq<Byte>)
    ensures Frame(m) <= all <==> HoldsFrame(all) && LengthAt(all, 0) == |m| && all[4..4 + |m|] == m
    ensures Frame(m) <= all ==> all == Frame(m) + all[4 + |m|..]
  {
    if Frame(m) <= all {
      var rest := all[4 + |m|..];
      assert all == Frame(m) + rest == Prefix(|m|) + (m + rest);
      PrefixReadsBack(|m|, m + rest);
    }
    if HoldsFrame(all) && LengthAt(all, 0) == |m| && all[4..4 + |m|] == m {
      LengthWritesBack(all, 0);
      assert all == all[..4] + m + all[4 + |m|..];
    }
  }

  // ------------------------------------------------------------------------------------------------
  // Whole conversations
  // ------------------------------------------------------------------------------------------------

  datatype Turn = Say(m: Packet) | Hear(size: nat)

  datatype Outcome = Message(payload: seq<Byte>) | Oversized

  /** What a receive into `size` bytes yields and leaves, when the wire holds a frame. */
  function Heard(wire: seq<Byte>, size: nat): (r: (Outcome, seq<Byte>))
    requires HoldsFrame(wire)
  {
    var len := LengthAt(wire, 0);
    (if len <= size then Message(wire[4..4 + len]) else Oversized, wire[4 + len..])
  }

  function Said(script: seq<Turn>): seq<Packet> {
    if script == [] then [] else (if script[0].Say? then [script[0].m] else []) + Said(script[1..])
  }

  function Sizes(script: seq<Turn>): seq<nat> {
    if script == [] then [] else (if script[0].Hear? then [script[0].size] else []) + Sizes(script[1..])
  }

  /** No receive is made before its message is under way, given so many already are. */
  predicate NeverAhead(script: seq<Turn>, backlog: nat) {
    script == [] ||
    match script[0]
    case Say(_) => NeverAhead(script[1..], backlog + 1)
    case Hear(_) => backlog > 0 && NeverAhead(script[1..], backlog - 1)
  }

  /** Sends and receives in any order over one connection. A receive that finds no frame ends the conversation. */
  function Talk(wire: seq<Byte>, script: seq<Turn>): (seq<Outcome>, seq<Byte>)
    decreases |script|
  {
    if script == [] then ([], wire)
    else match script[0]
      case Say(m) => Talk(wire + Wrapped(m), script[1..])
      case Hear(size) =>
        if !HoldsFrame(wire) then ([], wire)
        else
          var (o, rest) := Heard(wire, size);
          var (os, end) := Talk(rest, script[1..]);
          ([o] + os, end)
  }

  lemma FramesOne(m: Packet)
    ensures Frames([m]) == Wrapped(m)
  {
    assert Frames([m]) == Frame(m) + Frames([m][1..]);
  }

  lemma Regroup(a: seq<Byte>, b: seq<Byte>, c: seq<Byte>)
    ensures a + (b + c) == a + b + c
  {
  }

  lemma {:induction false} FramesAppend(ps: seq<Packet>, m: Packet)
    ensures Frames(ps + [m]) == Frames(ps) + Wrapped(m)
  {
    if ps == [] {
      FramesOne(m);
      assert ps + [m] == [m] && [] + Wrapped(m) == Wrapped(m);
    } else {
      var qs := ps + [m];
      assert qs[0] == ps[0] && qs[1..] == ps[1..] + [m];
      FramesAppend(ps[1..], m);
      Regroup(Frame(ps[0]), Frames(ps[1..]), Wrapped(m));
    }
  }

  lemma HeardIsNext(ps: seq<Packet>, size: nat)
    requires ps != []
    ensures HoldsFrame(Frames(ps))
    ensures Heard(Frames(ps), size) == (if |ps[0]| <= size then Message(ps[0]) else Oversized, Frames(ps[1..]))
  {
    var all := Frames(ps);
    assert all == Frame(ps[0]) + Frames(ps[1..]);
    FrameAtHead(ps[0], all);
    assert all[4 + |ps[0]|..] == Frames(ps[1..]);
  }

  lemma {:induction false} ScriptLengths(script: seq<Turn>, backlog: nat)
    requires NeverAhead(script, backlog)
    ensures |Sizes(script)| <= backlog + |Said(script)|
  {
    if script != [] {
      ScriptLengths(script[1..], if script[0].Say? then backlog + 1 else backlog - 1);
    }
  }

  function Judged(m: Packet, size: nat): Outcome { if |m| <= size then Message(m) else Oversized }

  function Answers(said: seq<Packet>, sizes: seq<nat>): seq<Outcome>
    requires |sizes| <= |said|
  {
    if sizes == [] then [] else [Judged(said[0], sizes[0])] + Answers(said[1..], sizes[1..])
  }

  lemma {:induction false} AnswersByIndex(said: seq<Packet>, sizes: seq<nat>)
    requires |sizes| <= |said|
    ensures |Answers(said, sizes)| == |sizes|
    ensures forall i :: 0 <= i < |sizes| ==> Answers(said, sizes)[i] == Judged(said[i], sizes[i])
  {
    if sizes != [] {
      AnswersByIndex(said[1..], sizes[1..]);
      forall i | 0 <= i < |sizes| ensures Answers(said, sizes)[i] == Judged(said[i], sizes[i]) {
        if i > 0 {
          assert Answers(said[1..], sizes[1..])[i - 1] == Judged(said[1..][i - 1], sizes[1..][i - 1]);
        }
      }
    }
  }

  lemma TalkHear(wire: seq<Byte>, script: seq<Turn>)
    requires script != [] && script[0].Hear? && HoldsFrame(wire)
    ensures var (o, rest) := Heard(wire, script[0].size);
            && Talk(wire, script).0 == [o] + Talk(rest, script[1..]).0
            && Talk(wire, script).1 == Talk(rest, script[1..]).1
  {
  }

  lemma SayTurn(backlog: seq<Packet>, script: seq<Turn>)
    requires script != [] && script[0].Say?
    ensures backlog + Said(script) == backlog + [script[0].m] + Said(script[1..])
    ensures Sizes(script) == Sizes(script[1..])
  {
    assert [] + Sizes(script[1..]) == Sizes(script[1..]);
  }

  lemma HearTurn(backlog: seq<Packet>, script: seq<Turn>)
    requires script != [] && script[0].Hear? && backlog != []
    ensures backlog + Said(script) == [backlog[0]] + (backlog[1..] + Said(script[1..]))
    ensures Sizes(script) == [script[0].size] + Sizes(script[1..])
  {
    assert [] + Said(script[1..]) == Said(script[1..]);
    SplitHead(backlog, Said(script[1..]));
  }

  lemma SplitHead(ps: seq<Packet>, qs: seq<Packet>)
    requires ps != []
    ensures ps + qs == [ps[0]] + (ps[1..] + qs)
  {
    assert ps == [ps[0]] + ps[1..];
  }

  lemma {:induction false} TalkAnswers(backlog: seq<Packet>, script: seq<Turn>)
    requires NeverAhead(script, |backlog|)
    ensures |Sizes(script)| <= |backlog + Said(script)|
    ensures Talk(Frames(backlog), script).0 == Answers(backlog + Said(script), Sizes(script))
    ensures Talk(Frames(backlog), script).1 == Frames((backlog + Said(script))[|Sizes(script)|..])
    decreases |script|
  {
    ScriptLengths(script, |backlog|);
    var said, sizes := backlog + Said(script), Sizes(script);
    if script == [] {
      assert said[0..] == backlog;
    } else if script[0].Say? {
      SayTurn(backlog, script);
      FramesAppend(backlog, script[0].m);
      TalkAnswers(backlog + [script[0].m], script[1..]);
    } else {
      HearTurn(backlog, script);
      HeardIsNext(backlog, script[0].size);
      TalkHear(Frames(backlog), script);
      TalkAnswers(backlog[1..], script[1..]);
      var after, later := backlog[1..] + Said(script[1..]), Sizes(script[1..]);
      assert said[1..] == after && sizes[1..] == later;
      assert said[|sizes|..] == after[|later|..];
    }
  }

  /**
   Whatever the order of sends and receives, the i-th receive yields the i-th message sent, or reports it as oversized
   when it does not fit, and the wire always holds exactly the frames not yet received.
   */
  lemma TalkIsInOrder(script: seq<Turn>)
    requires NeverAhead(script, 0)
    ensures |Sizes(script)| <= |Said(script)|
    ensures var (heard, wire) := Talk([], script);
            && |heard| == |Sizes(script)|
            && (forall i :: 0 <= i < |heard| ==> heard[i] == Judged(Said(script)[i], Sizes(script)[i]))
            && wire == Frames(Said(script)[|heard|..])
  {
    TalkAnswers([], script);
    assert [] + Said(script) == Said(script);
    AnswersByIndex(Said(script), Sizes(script));
  }

  /** What the whole conversation yields is what was heard so far and what the rest of it yields. */
  ghost predicate SoFar(script: seq<Turn>, rest: seq<Turn>, heard: seq<Outcome>, wire: seq<Byte>) {
    Talk([], script).0 == heard + Talk(wire, rest).0 && Talk([], script).1 == Talk(wire, rest).1
  }

  lemma HeardSoFar(script: seq<Turn>, rest: seq<Turn>, heard: seq<Outcome>, wire: seq<Byte>)
    requires SoFar(script, rest, heard, wire) && rest != [] && rest[0].Hear? && HoldsFrame(wire)
    ensures var (o, left) := Heard(wire, rest[0].size); SoFar(script, rest[1..], heard + [o], left)
  {
    TalkHear(wire, rest);
    var (o, left) := Heard(wire, rest[0].size);
    assert heard + ([o] + Talk(left, rest[1..]).0) == heard + [o] + Talk(left, rest[1..]).0;
  }

  /** One send: the message joins the frames not yet received. */
  method SayOn(c: Connection, m: Packet, ghost backlog: seq<Packet>)
    requires c.wire == Frames(backlog) && c.ReliableFrom(c.calls)
    modifies c
    ensures c.calls >= old(c.calls) && c.wire == old(c.wire) + Wrapped(m) == Frames(backlog + [m])
  {
    FramesAppend(backlog, m);
    var _ := c.Send(m);
  }

  /** One receive: the first of the frames not yet received. */
  method HearOn(c: Connection, size: nat, ghost backlog: seq<Packet>) returns (o: Outcome)
    requires backlog != [] && c.wire == Frames(backlog) && c.ReliableFrom(c.calls)
    modifies c
    ensures c.calls >= old(c.calls) && HoldsFrame(old(c.wire)) && (o, c.wire) == Heard(old(c.wire), size)
    ensures c.wire == Frames(backlog[1..])
  {
    HeardIsNext(backlog, size);
    var buffer := new Byte[size];
    var n := c.Receive(buffer);
    o := if n > 0 then Message(buffer[..n]) else Oversized;
  }

  /**
   One send is one receive, on the connection itself: for every schedule of partial writes and short reads that does
   not fail, and every order of sends and receives, the i-th receive yields the i-th message sent, or reports it as
   oversized when it does not fit. The wire then holds exactly the frames not yet received, so a receive always starts
   on a frame boundary.
   */
  method OneSendOneReceive(c: Connection, script: seq<Turn>) returns (heard: seq<Outcome>)
    requires NeverAhead(script, 0) && c.wire == [] && c.ReliableFrom(c.calls)
    modifies c
    ensures (heard, c.wire) == Talk([], script)
    ensures |heard| == |Sizes(script)| <= |Said(script)|
    ensures forall i :: 0 <= i < |heard| ==> heard[i] == Judged(Said(script)[i], Sizes(script)[i])
    ensures c.wire == Frames(Said(script)[|heard|..])
  {
    heard := [];
    ghost var backlog: seq<Packet> := [];
    ghost var first := c.calls;
    for i := 0 to |script|
      invariant c.calls >= first && c.ReliableFrom(first) && c.wire == Frames(backlog)
      invariant NeverAhead(script[i..], |backlog|)
      invariant SoFar(script, script[i..], heard, c.wire)
    {
      assert script[i..][0] == script[i] && script[i..][1..] == script[i + 1..];
      ghost var wire := c.wire;
      match script[i] {
        case Say(m) =>
          SayOn(c, m, backlog);
          backlog := backlog + [m];
        case Hear(size) =>
          var o := HearOn(c, size, backlog);
          HeardSoFar(script, script[i..], heard, wire);
          heard := heard + [o];
          backlog := backlog[1..];
      }
    }
    assert script[|script|..] == [] && heard + [] == heard;
    TalkIsInOrder(script);
  }

  /** A message that fits is received as it was sent. */
  method Carry(c: Connection, m: Packet, buffer: array<Byte>) returns (got: seq<Byte>)
    requires |m| <= buffer.Length
    requires c.wire == [] && c.ReliableFrom(c.calls)
    modifies c, buffer
    ensures got == m && c.wire == []
  {
    var _ := c.Send(m);
    assert c.wire == Frame(m);
    FrameAtHead(m, c.wire);
    var n := c.Receive(buffer);
    got := buffer[..n];
  }

  /**
   An entity packed, sent, received and unpacked over a reliable connection comes back up to its unused data bytes.
   */
  method Ship(c: Connection, e: EntityTransfer, buffer: array<Byte>) returns (r: Option<EntityTransfer>)
    requires e.dataSize <= MAX_ENTITY_DATA && buffer.Length >= 4158
    requires c.wire == [] && c.ReliableFrom(c.calls)
    modifies c, buffer
    ensures r == Some(Trimmed(e)) && c.wire == []
  {
    var p := new PacketBuffer();
    p.Pack(e);
    ShippedBytes(e);
    var got := Carry(c, p.buffer, buffer);
    var q := new PacketBuffer();
    q.buffer := got;
    r := q.TryUnpack();
  }

  lemma ShippedBytes(e: EntityTransfer)
    requires e.dataSize <= MAX_ENTITY_DATA
    ensures 62 <= |Encode(e)| <= 4158 && Encode(e)[0] == PKT_ENTITY_TRANSFER && Decode(Encode(e)) == Some(Trimmed(e))
  {
    DecodeEncode(e, []);
    assert Encode(e) + [] == Encode(e);
  }
}
