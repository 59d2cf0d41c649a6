/**
 The wire form of an entity: a packet buffer written field by field and read back through a moving cursor.
 Numbers are little-endian copies of memory; floats are opaque 32-bit patterns.
 */
module Codec {
  import opened Geometry
  import opened Framing

  const PKT_ENTITY_TRANSFER: Byte := 3
  const MAX_ENTITY_DATA: nat := 4096

  type Half = h: int | 0 <= h < 0x1_0000
  type Word = w: int | 0 <= w < 0x1_0000_0000
  type Signed = i: int | -0x8000_0000 <= i < 0x8000_0000

  /** Two's complement. */
  function AsWord(i: Signed): Word { if i < 0 then i + 0x1_0000_0000 else i }
  function AsSigned(w: Word): Signed { if w >= 0x8000_0000 then w - 0x1_0000_0000 else w }

  datatype Triple = Triple(x: Word, y: Word, z: Word)
  datatype Stats = Stats(speed: Triple, health: Word, damage: Word, healing: Word)

  /** The fixed-size data array of an entity. */
  type Blob = d: seq<Byte> | |d| == MAX_ENTITY_DATA witness Blank(MAX_ENTITY_DATA)

  function Blank(n: nat): (z: seq<Byte>)
    ensures |z| == n
  {
    seq(n, _ => 0)
  }

  datatype EntityTransfer = EntityTransfer(
    uuid: Word, pos: Triple, chunkX: Signed, chunkY: Signed, chunkZ: Signed, angle: Half, kind: Byte,
    state: Word, stats: Stats, dataSize: Half, data: Blob)

  /** The entity without the bytes of its data array that it does not use. */
  function Trimmed(e: EntityTransfer): EntityTransfer
    requires e.dataSize <= MAX_ENTITY_DATA
  {
    e.(data := e.data[..e.dataSize] + Blank(MAX_ENTITY_DATA - e.dataSize))
  }

  // ------------------------------------------------------------------------------------------------
  // Little-endian numbers
  // ------------------------------------------------------------------------------------------------

  function Le2(h: Half): seq<Byte> { [h % 256, h / 256] }

  function Le4(w: Word): seq<Byte> { [w % 256, w / 0x100 % 256, w / 0x1_0000 % 256, w / 0x100_0000] }

  function Half2(s: seq<Byte>, i: nat): Half
    requires i + 2 <= |s|
  {
    (s[i] as int) + 256 * (s[i + 1] as int)
  }

  function Word4(s: seq<Byte>, i: nat): Word
    requires i + 4 <= |s|
  {
    (s[i] as int) + 0x100 * (s[i + 1] as int) + 0x1_0000 * (s[i + 2] as int) + 0x100_0000 * (s[i + 3] as int)
  }

  lemma Le4ReadsBack(w: Word, b: seq<Byte>, i: nat)
    requires i + 4 <= |b| && b[i..i + 4] == Le4(w)
    ensures Word4(b, i) == w
  {
    var c := b[i..i + 4];
    assert b[i] == c[0] && b[i + 1] == c[1] && b[i + 2] == c[2] && b[i + 3] == c[3];
    var x := w / 0x100;
    var y := x / 0x100;
    assert w / 0x1_0000 == y && w / 0x100_0000 == y / 0x100;
    assert w == x * 0x100 + w % 0x100 && x == y * 0x100 + x % 0x100 && y == y / 0x100 * 0x100 + y % 0x100;
  }

  lemma Le4WritesBack(b: seq<Byte>, i: nat)
    requires i + 4 <= |b|
    ensures Le4(Word4(b, i)) == b[i..i + 4]
  {
    var p, q, r, s := b[i] as int, b[i + 1] as int, b[i + 2] as int, b[i + 3] as int;
    var n := Word4(b, i);
    assert n / 0x100 == q + 0x100 * r + 0x1_0000 * s && n % 0x100 == p;
    assert n / 0x1_0000 == r + 0x100 * s && n / 0x100_0000 == s;
    assert b[i..i + 4] == [p, q, r, s];
  }

  // ------------------------------------------------------------------------------------------------
  // The layout
  // ------------------------------------------------------------------------------------------------

  /** The bytes before the chunk data: type, kind, uuid, chunk, position, angle, data size. */
  function Header(e: EntityTransfer): (h: seq<Byte>) {
    [PKT_ENTITY_TRANSFER] + [e.kind] + Le4(e.uuid)
    + Le4(AsWord(e.chunkX)) + Le4(AsWord(e.chunkY)) + Le4(AsWord(e.chunkZ))
    + Le4(e.pos.x) + Le4(e.pos.y) + Le4(e.pos.z) + Le2(e.angle) + Le2(e.dataSize)
  }

  function StatsBytes(s: Stats): seq<Byte> {
    Le4(s.speed.x) + Le4(s.speed.y) + Le4(s.speed.z) + Le4(s.health) + Le4(s.damage) + Le4(s.healing)
  }

  function Footer(e: EntityTransfer): (f: seq<Byte>) {
    Le4(e.state) + StatsBytes(e.stats)
  }

  function Encode(e: EntityTransfer): (b: seq<Byte>)
    requires e.dataSize <= MAX_ENTITY_DATA
  {
    Header(e) + e.data[..e.dataSize] + Footer(e)
  }

  function Triple12(b: seq<Byte>, i: nat): Triple
    requires i + 12 <= |b|
  {
    Triple(Word4(b, i), Word4(b, i + 4), Word4(b, i + 8))
  }

  datatype HeaderFields = HeaderFields(kind: Byte, uuid: Word, chunk: Triple, pos: Triple, angle: Half, dataSize: Half)

  function ParsedHeader(b: seq<Byte>): HeaderFields
    requires 34 <= |b|
  {
    HeaderFields(b[1], Word4(b, 2), Triple12(b, 6), Triple12(b, 18), Half2(b, 30), Half2(b, 32))
  }

  function ParsedStats(b: seq<Byte>, i: nat): Stats
    requires i + 24 <= |b|
  {
    Stats(Triple12(b, i), Word4(b, i + 12), Word4(b, i + 16), Word4(b, i + 20))
  }

  /** An entity starts out with a zeroed data array, of which only the announced part is filled in. */
  function Assembled(h: HeaderFields, data: seq<Byte>, state: Word, stats: Stats): EntityTransfer
    requires |data| == h.dataSize <= MAX_ENTITY_DATA
  {
    EntityTransfer(h.uuid, h.pos, AsSigned(h.chunk.x), AsSigned(h.chunk.y), AsSigned(h.chunk.z), h.angle, h.kind,
                   state, stats, h.dataSize, data + Blank(MAX_ENTITY_DATA - |data|))
  }

  /** What the bytes stand for, by position: a short buffer or a lying data size stands for nothing. */
  function Decode(b: seq<Byte>): Option<EntityTransfer> {
    if |b| < 34 then None
    else
      var n := Half2(b, 32);
      if n > MAX_ENTITY_DATA || |b| < 62 + n then None
      else Some(Assembled(ParsedHeader(b), b[34..34 + n], Word4(b, 34 + n), ParsedStats(b, 38 + n)))
  }

  // ------------------------------------------------------------------------------------------------
  // The packet
  // ------------------------------------------------------------------------------------------------

  class PacketBuffer {
    var buffer: seq<Byte>
    var readPos: nat

    constructor ()
      ensures buffer == [] && readPos == 0
    {
      buffer, readPos := [], 0;
    }

    method WriteRaw(bytes: seq<Byte>)
      modifies `buffer
      ensures buffer == old(buffer) + bytes
    {
      buffer := buffer + bytes;
    }

    /** Copies the next bytes out, or throws when the buffer is too short. */
    method ReadRaw(n: nat) returns (r: Option<seq<Byte>>)
      modifies `readPos
      ensures r.Some? <==> old(readPos) + n <= |buffer|
      ensures r.Some? ==> r.value == buffer[old(readPos)..old(readPos) + n] && readPos == old(readPos) + n
      ensures r.None? ==> readPos == old(readPos)
    {
      if readPos + n > |buffer| {
        return None;
      }
      r := Some(buffer[readPos..readPos + n]);
      readPos := readPos + n;
    }

    method ReadWord() returns (r: Option<Word>)
      modifies `readPos
      ensures r.Some? <==> old(readPos) + 4 <= |buffer|
      ensures r.Some? ==> r.value == Word4(buffer, old(readPos)) && readPos == old(readPos) + 4
    {
      var raw := ReadRaw(4);
      if raw.None? {
        return None;
      }
      r := Some(Word4(raw.value, 0));
    }

    method ReadHalf() returns (r: Option<Half>)
      modifies `readPos
      ensures r.Some? <==> old(readPos) + 2 <= |buffer|
      ensures r.Some? ==> r.value == Half2(buffer, old(readPos)) && readPos == old(readPos) + 2
    {
      var raw := ReadRaw(2);
      if raw.None? {
        return None;
      }
      r := Some(Half2(raw.value, 0));
    }

    method ReadTriple() returns (r: Option<Triple>)
      modifies `readPos
      ensures r.Some? <==> old(readPos) + 12 <= |buffer|
      ensures r.Some? ==> readPos == old(readPos) + 12
      ensures r.Some? ==> r.value == Triple12(buffer, old(readPos))
    {
      var x := ReadWord();
      if x.None? { return None; }
      var y := ReadWord();
      if y.None? { return None; }
      var z := ReadWord();
      if z.None? { return None; }
      r := Some(Triple(x.value, y.value, z.value));
    }

    method Pack(e: EntityTransfer)
      requires e.dataSize <= MAX_ENTITY_DATA
      modifies this
      ensures buffer == Encode(e) && readPos == 0
    {
      buffer, readPos := [], 0;
      WriteRaw([PKT_ENTITY_TRANSFER]);
      assert buffer == [PKT_ENTITY_TRANSFER];
      WriteRaw([e.kind]);
      WriteRaw(Le4(e.uuid));
      WriteRaw(Le4(AsWord(e.chunkX)));
      WriteRaw(Le4(AsWord(e.chunkY)));
      WriteRaw(Le4(AsWord(e.chunkZ)));
      WriteRaw(Le4(e.pos.x));
      WriteRaw(Le4(e.pos.y));
      WriteRaw(Le4(e.pos.z));
      WriteRaw(Le2(e.angle));
      WriteRaw(Le2(e.dataSize));
      assert buffer == Header(e);
      WriteRaw(e.data[..e.dataSize]);
      ghost var body := buffer;
      WriteRaw(Le4(e.state));
      WriteRaw(StatsBytes(e.stats));
      assert buffer == body + Footer(e);
    }

    method ReadHeader() returns (r: Option<HeaderFields>)
      modifies `readPos
      ensures r.Some? <==> |buffer| >= 34
      ensures r.Some? ==> r.value == ParsedHeader(buffer) && readPos == 34
    {
      readPos := 1;
      var kind := ReadRaw(1);
      if kind.None? { return None; }
      var uuid := ReadWord();
      if uuid.None? { return None; }
      var chunk := ReadTriple();
      if chunk.None? { return None; }
      var pos := ReadTriple();
      if pos.None? { return None; }
      var angle := ReadHalf();
      if angle.None? { return None; }
      var n := ReadHalf();
      if n.None? { return None; }
      r := Some(HeaderFields(kind.value[0], uuid.value, chunk.value, pos.value, angle.value, n.value));
    }

    method ReadStats() returns (r: Option<Stats>)
      modifies `readPos
      ensures r.Some? <==> old(readPos) + 24 <= |buffer|
      ensures r.Some? ==> r.value == ParsedStats(buffer, old(readPos)) && readPos == old(readPos) + 24
    {
      var speed := ReadTriple();
      if speed.None? { return None; }
      var rest := ReadTriple();
      if rest.None? { return None; }
      r := Some(Stats(speed.value, rest.value.x, rest.value.y, rest.value.z));
    }

    /** The throwing decode. None is the exception. */
    method Unpack() returns (r: Option<EntityTransfer>)
      modifies `readPos
      ensures r == Decode(buffer)
    {
      var h := ReadHeader();
      if h.None? { return None; }
      var n := h.value.dataSize;
      if n > MAX_ENTITY_DATA { return None; }
      var data := ReadRaw(n);
      if data.None? { return None; }
      var state := ReadWord();
      if state.None? { return None; }
      var stats := ReadStats();
      if stats.None? { return None; }
      r := Some(Assembled(h.value, data.value, state.value, stats.value));
    }

    /** The decode for anything read off the network: the type is checked and nothing is thrown. */
    method TryUnpack() returns (r: Option<EntityTransfer>)
      modifies `readPos
      ensures r == if buffer != [] && buffer[0] == PKT_ENTITY_TRANSFER then Decode(buffer) else None
    {
      if buffer == [] || buffer[0] != PKT_ENTITY_TRANSFER {
        return None;
      }
      r := Unpack();
    }
  }

  // ------------------------------------------------------------------------------------------------
  // Round trips
  // ------------------------------------------------------------------------------------------------

  lemma HeaderSlices(e: EntityTransfer)
    ensures var h := Header(e);
            && |h| == 34 && h[0] == PKT_ENTITY_TRANSFER && h[1] == e.kind && h[2..6] == Le4(e.uuid)
            && h[6..10] == Le4(AsWord(e.chunkX)) && h[10..14] == Le4(AsWord(e.chunkY)) &&
               h[14..18] == Le4(AsWord(e.chunkZ))
            && h[18..22] == Le4(e.pos.x) && h[22..26] == Le4(e.pos.y) && h[26..30] == Le4(e.pos.z)
            && h[30..32] == Le2(e.angle) && h[32..34] == Le2(e.dataSize)
  {
  }

  lemma FooterSlices(e: EntityTransfer)
    ensures var f := Footer(e);
            && |f| == 28 && f[0..4] == Le4(e.state)
            && f[4..8] == Le4(e.stats.speed.x) && f[8..12] == Le4(e.stats.speed.y) && f[12..16] == Le4(e.stats.speed.z)
            && f[16..20] == Le4(e.stats.health) && f[20..24] == Le4(e.stats.damage) && f[24..28] == Le4(e.stats.healing)
  {
  }

  lemma WordInside(b: seq<Byte>, base: nat, part: seq<Byte>, i: nat, w: Word)
    requires base + |part| <= |b| && b[base..base + |part|] == part && i + 4 <= |part| && part[i..i + 4] == Le4(w)
    ensures Word4(b, base + i) == w
  {
    Le4ReadsBack(w, part, i);
    var c := b[base..base + |part|];
    assert c[i] == b[base + i] && c[i + 1] == b[base + i + 1] && c[i + 2] == b[base + i + 2] &&
           c[i + 3] == b[base + i + 3];
  }

  lemma HeaderReadsBack(e: EntityTransfer, b: seq<Byte>)
    requires |b| >= 34 && b[..34] == Header(e)
    ensures b[0] == PKT_ENTITY_TRANSFER && b[1] == e.kind && Word4(b, 2) == e.uuid
    ensures Word4(b, 6) == AsWord(e.chunkX) && Word4(b, 10) == AsWord(e.chunkY) && Word4(b, 14) == AsWord(e.chunkZ)
    ensures Word4(b, 18) == e.pos.x && Word4(b, 22) == e.pos.y && Word4(b, 26) == e.pos.z
    ensures Half2(b, 30) == e.angle && Half2(b, 32) == e.dataSize
  {
    HeaderSlices(e);
    var h := b[..34];
    assert b[0..34] == h;
    WordInside(b, 0, h, 2, e.uuid);
    WordInside(b, 0, h, 6, AsWord(e.chunkX));
    WordInside(b, 0, h, 10, AsWord(e.chunkY));
    WordInside(b, 0, h, 14, AsWord(e.chunkZ));
    WordInside(b, 0, h, 18, e.pos.x);
    WordInside(b, 0, h, 22, e.pos.y);
    WordInside(b, 0, h, 26, e.pos.z);
    assert h[30..32][0] == b[30] && h[30..32][1] == b[31] && h[32..34][0] == b[32] && h[32..34][1] == b[33];
  }

  lemma FooterReadsBack(e: EntityTransfer, b: seq<Byte>, at: nat)
    requires at + 28 <= |b| && b[at..at + 28] == Footer(e)
    ensures Word4(b, at) == e.state
    ensures Word4(b, at + 4) == e.stats.speed.x && Word4(b, at + 8) == e.stats.speed.y &&
            Word4(b, at + 12) == e.stats.speed.z
    ensures Word4(b, at + 16) == e.stats.health && Word4(b, at + 20) == e.stats.damage &&
            Word4(b, at + 24) == e.stats.healing
  {
    FooterSlices(e);
    var f := Footer(e);
    WordInside(b, at, f, 0, e.state);
    WordInside(b, at, f, 4, e.stats.speed.x);
    WordInside(b, at, f, 8, e.stats.speed.y);
    WordInside(b, at, f, 12, e.stats.speed.z);
    WordInside(b, at, f, 16, e.stats.health);
    WordInside(b, at, f, 20, e.stats.damage);
    WordInside(b, at, f, 24, e.stats.healing);
  }

  lemma EncodeParts(e: EntityTransfer, more: seq<Byte>)
    requires e.dataSize <= MAX_ENTITY_DATA
    ensures |Encode(e)| == 62 + e.dataSize && Encode(e)[0] == PKT_ENTITY_TRANSFER
    ensures var b, n := Encode(e) + more, e.dataSize;
            b[..34] == Header(e) && b[34..34 + n] == e.data[..n] && b[34 + n..62 + n] == Footer(e)
  {
    HeaderLength(e);
    FooterLength(e);
    var h, d, f := Header(e), e.data[..e.dataSize], Footer(e);
    assert (h + d + f)[0] == h[0];
    assert h + d + f + more == h + (d + (f + more));
  }

  lemma HeaderLength(e: EntityTransfer)
    ensures |Header(e)| == 34 && Header(e)[0] == PKT_ENTITY_TRANSFER
  {
    HeaderSlices(e);
  }

  lemma FooterLength(e: EntityTransfer)
    ensures |Footer(e)| == 28
  {
    FooterSlices(e);
  }

  /** Packing and unpacking recovers the entity up to its unused data bytes, whatever follows it in the buffer. */
  lemma DecodeEncode(e: EntityTransfer, more: seq<Byte>)
    requires e.dataSize <= MAX_ENTITY_DATA
    ensures Decode(Encode(e) + more) == Some(Trimmed(e))
    ensures |Encode(e)| == 62 + e.dataSize && Encode(e)[0] == PKT_ENTITY_TRANSFER
  {
    var b, n := Encode(e) + more, e.dataSize;
    EncodeParts(e, more);
    HeaderReadsBack(e, b);
    FooterReadsBack(e, b, 34 + n);
  }

  /** Where each field lies in the packet; `n` is the size of the data. */
  lemma FieldOffsets(e: EntityTransfer, more: seq<Byte>)
    requires e.dataSize <= MAX_ENTITY_DATA
    ensures var b, n := Encode(e) + more, e.dataSize;
            && |b| >= 62 + n && b[0] == 3 && b[1] == e.kind && Word4(b, 2) == e.uuid
            && Word4(b, 6) == AsWord(e.chunkX) && Word4(b, 10) == AsWord(e.chunkY) && Word4(b, 14) == AsWord(e.chunkZ)
            && Word4(b, 18) == e.pos.x && Word4(b, 22) == e.pos.y && Word4(b, 26) == e.pos.z
            && Half2(b, 30) == e.angle && Half2(b, 32) == n && b[34..34 + n] == e.data[..n]
            && Word4(b, 34 + n) == e.state && Word4(b, 38 + n) == e.stats.speed.x
            && Word4(b, 42 + n) == e.stats.speed.y && Word4(b, 46 + n) == e.stats.speed.z
            && Word4(b, 50 + n) == e.stats.health && Word4(b, 54 + n) == e.stats.damage
            && Word4(b, 58 + n) == e.stats.healing
  {
    var b := Encode(e) + more;
    EncodeParts(e, more);
    HeaderReadsBack(e, b);
    FooterReadsBack(e, b, 34 + e.dataSize);
  }

  /** Numbers are little-endian, and negative ones wrap. */
  lemma LittleEndian(b: seq<Byte>, i: nat)
    requires i + 4 <= |b|
    ensures Word4(b, i) == b[i] as int + 256 * (b[i + 1] as int + 256 * (b[i + 2] as int + 256 * (b[i + 3] as int)))
    ensures Half2(b, i) == b[i] as int + 256 * (b[i + 1] as int)
    ensures AsWord(-1) == 0xffff_ffff && AsWord(1) == 1
  {
  }

  lemma SignedRoundTrip(w: Word)
    ensures AsWord(AsSigned(w)) == w
  {
  }

  /** Appending the word read at `i` to the bytes before it gives the bytes up to `i + 4`. */
  lemma NextWord(b: seq<Byte>, from: nat, i: nat)
    requires from <= i && i + 4 <= |b|
    ensures b[from..i] + Le4(Word4(b, i)) == b[from..i + 4]
  {
    Le4WritesBack(b, i);
    assert b[from..i] + b[i..i + 4] == b[from..i + 4];
  }

  lemma NextHalf(b: seq<Byte>, from: nat, i: nat)
    requires from <= i && i + 2 <= |b|
    ensures b[from..i] + Le2(Half2(b, i)) == b[from..i + 2]
  {
  }

  lemma StatsWriteBack(b: seq<Byte>, i: nat)
    requires i + 24 <= |b|
    ensures StatsBytes(ParsedStats(b, i)) == b[i..i + 24]
  {
    Le4WritesBack(b, i);
    NextWord(b, i, i + 4);
    NextWord(b, i, i + 8);
    NextWord(b, i, i + 12);
    NextWord(b, i, i + 16);
    NextWord(b, i, i + 20);
  }

  lemma HeaderWritesBack(b: seq<Byte>, e: EntityTransfer)
    requires |b| >= 34 && b[0] == PKT_ENTITY_TRANSFER
    requires e.kind == b[1] && e.uuid == Word4(b, 2) && e.pos == Triple12(b, 18) && e.angle == Half2(b, 30) &&
             e.dataSize == Half2(b, 32)
    requires e.chunkX == AsSigned(Word4(b, 6)) && e.chunkY == AsSigned(Word4(b, 10)) &&
             e.chunkZ == AsSigned(Word4(b, 14))
    ensures Header(e) == b[..34]
  {
    SignedRoundTrip(Word4(b, 6));
    SignedRoundTrip(Word4(b, 10));
    SignedRoundTrip(Word4(b, 14));
    assert [b[0]] + [b[1]] == b[0..2];
    NextWord(b, 0, 2);
    NextWord(b, 0, 6);
    NextWord(b, 0, 10);
    NextWord(b, 0, 14);
    NextWord(b, 0, 18);
    NextWord(b, 0, 22);
    NextWord(b, 0, 26);
    NextHalf(b, 0, 30);
    NextHalf(b, 0, 32);
  }

  /** Conversely the bytes that decode, under the right type, are the encoding of what they decode to. */
  lemma EncodeDecode(b: seq<Byte>)
    requires Decode(b).Some? && b[0] == PKT_ENTITY_TRANSFER
    ensures var e := Decode(b).value;
            && e.dataSize <= MAX_ENTITY_DATA && 62 + e.dataSize <= |b|
            && Encode(e) == b[..62 + e.dataSize] && Trimmed(e) == e
  {
    var e := Decode(b).value;
    var n := e.dataSize;
    HeaderWritesBack(b, e);
    StatsWriteBack(b, 38 + n);
    Le4WritesBack(b, 34 + n);
    assert Footer(e) == b[34 + n..62 + n];
    assert e.data[..n] == b[34..34 + n];
    assert b[..34] + b[34..34 + n] == b[..34 + n];
    assert b[..34 + n] + b[34 + n..62 + n] == b[..62 + n];
  }

  ghost predicate Begins(b: seq<Byte>, e: EntityTransfer) {
    e.dataSize <= MAX_ENTITY_DATA && Encode(e) <= b
  }

  predicate Accepted(b: seq<Byte>) { b != [] && b[0] == PKT_ENTITY_TRANSFER && Decode(b).Some? }

  lemma BeginsIsAccepted(b: seq<Byte>, e: EntityTransfer)
    requires Begins(b, e)
    ensures Accepted(b) && Decode(b).value == Trimmed(e)
  {
    var more := b[|Encode(e)|..];
    assert b == Encode(e) + more;
    DecodeEncode(e, more);
  }

  /** The network decode accepts a buffer exactly when it begins with the encoding of some entity. */
  lemma AcceptedIffEncoded(b: seq<Byte>)
    ensures Accepted(b) <==> exists e :: Begins(b, e)
  {
    if Accepted(b) {
      EncodeDecode(b);
      assert Begins(b, Decode(b).value);
    }
    if e :| Begins(b, e) {
      BeginsIsAccepted(b, e);
    }
  }
}
