/** Splitting a feed frame into packets by their headers, for the tick feed and the depth feed, and the
    depth packets themselves. */
module FrameSplitter {

  import opened Seqs

  type Byte = x: int | 0 <= x < 256

  type Bytes = seq<Byte>

  datatype Feed = Ticks | Depth

  const PKT_TICKER := 2
  const PKT_QUOTE := 4
  const PKT_OI := 5
  const PKT_PREV_CLOSE := 6
  const PKT_FULL := 8
  const PKT_DISCONNECT := 50

  const FEED_BID := 41
  const FEED_ASK := 51

  const DEPTH_LEVELS := 20
  const LEVEL_LEN := 16
  const PACKET_LEN := 332

  function HeaderLen(feed: Feed): nat {
    if feed == Ticks then 8 else 12
  }

  /** Little-endian. */
  function U16(a: Byte, b: Byte): (r: nat)
    ensures r < 65536
  {
    a + 256 * b
  }

  function FallbackLen(packetType: int): Option<nat> {
    if packetType == PKT_FULL then Some(162)
    else if packetType == PKT_QUOTE then Some(50)
    else if packetType == PKT_TICKER then Some(16)
    else if packetType == PKT_OI then Some(12)
    else if packetType == PKT_PREV_CLOSE then Some(16)
    else if packetType == PKT_DISCONNECT then Some(10)
    else None
  }

  /** How long the packet that starts with this header is, if the header tells. */
  function PacketLen(feed: Feed, header: Bytes): (r: Option<nat>)
    requires |header| == HeaderLen(feed)
    ensures r.Some? ==> r.value >= HeaderLen(feed)
  {
    if feed == Ticks then
      var msgLen := U16(header[1], header[2]);
      if msgLen >= HeaderLen(feed) then Some(msgLen) else FallbackLen(header[0])
    else
      var msgLen := U16(header[0], header[1]);
      if header[2] == FEED_BID || header[2] == FEED_ASK then Some(PACKET_LEN)
      else if msgLen >= HeaderLen(feed) then Some(msgLen)
      else None
  }

  /** A packet exactly as long as its header says. */
  ghost predicate Whole(feed: Feed, p: Bytes) {
    |p| >= HeaderLen(feed) && PacketLen(feed, p[..HeaderLen(feed)]) == Some(|p|)
  }

  /** The length of the packet at the front, when all of it is there. */
  function Front(feed: Feed, data: Bytes): (r: Option<nat>)
    ensures r.Some? ==> 0 < r.value <= |data|
  {
    if |data| < HeaderLen(feed) then None
    else
      var len := PacketLen(feed, data[..HeaderLen(feed)]);
      if len.Some? && len.value <= |data| then len else None
  }

  /** The packets of a frame, up to the first that is truncated or of unknown length. */
  function Split(feed: Feed, data: Bytes): seq<Bytes>
    decreases |data|
  {
    var k := Front(feed, data);
    if k.None? then [] else [data[..k.value]] + Split(feed, data[k.value..])
  }

  ghost predicate AllWhole(feed: Feed, ps: seq<Bytes>) {
    forall i :: 0 <= i < |ps| ==> Whole(feed, ps[i])
  }

  // ---------------------------------------------------------------- splitting undoes concatenation

  lemma FrontOfWhole(feed: Feed, p: Bytes, rest: Bytes)
    requires Whole(feed, p)
    ensures Front(feed, p + rest) == Some(|p|)
  {
    assert (p + rest)[..HeaderLen(feed)] == p[..HeaderLen(feed)];
  }

  /** Whole packets come back as they are, whatever follows them. */
  lemma {:induction false} SplitPackets(feed: Feed, ps: seq<Bytes>, rest: Bytes)
    requires AllWhole(feed, ps)
    ensures Split(feed, Flatten(ps) + rest) == ps + Split(feed, rest)
  {
    if ps == [] {
      assert Flatten(ps) + rest == rest;
    } else {
      hide Whole, Front, Split;
      var p, t := ps[0], ps[1..];
      SplitPackets(feed, t, rest);
      Associative(p, Flatten(t), rest);
      FrontOfWhole(feed, p, Flatten(t) + rest);
      SplitFront(feed, p, Flatten(t) + rest);
      assert ps == [p] + t;
      Associative([p], t, Split(feed, rest));
    }
  }

  lemma SplitFront(feed: Feed, p: Bytes, rest: Bytes)
    requires Front(feed, p + rest) == Some(|p|)
    ensures Split(feed, p + rest) == [p] + Split(feed, rest)
  {
    assert (p + rest)[..|p|] == p && (p + rest)[|p|..] == rest;
  }

  /** A packet cut short anywhere yields nothing. */
  lemma TruncatedIsStuck(feed: Feed, p: Bytes, k: nat)
    requires Whole(feed, p) && k < |p|
    ensures Front(feed, p[..k]).None?
  {
    if k >= HeaderLen(feed) {
      assert p[..k][..HeaderLen(feed)] == p[..HeaderLen(feed)];
    }
  }

  /** Well-formed packets followed by a truncated one: the splitter returns exactly those packets. */
  lemma SplitUndoesConcat(feed: Feed, ps: seq<Bytes>, last: Bytes, k: nat)
    requires AllWhole(feed, ps) && Whole(feed, last) && k < |last|
    ensures Split(feed, Flatten(ps) + last[..k]) == ps
  {
    SplitPackets(feed, ps, last[..k]);
    TruncatedIsStuck(feed, last, k);
    assert ps + [] == ps;
  }

  /** On any bytes at all the packets are whole, they are the front of the input in order, and what is
      left starts with no whole packet. */
  lemma {:induction false} SplitIsPrefix(feed: Feed, data: Bytes)
    ensures var ps := Split(feed, data);
            && AllWhole(feed, ps) && |Flatten(ps)| <= |data| && Flatten(ps) == data[..|Flatten(ps)|]
            && Front(feed, data[|Flatten(ps)|..]).None?
    decreases |data|
  {
    hide Split, Front, Flatten, Whole;
    var k := Front(feed, data);
    if k.Some? {
      var p, rest := data[..k.value], data[k.value..];
      SplitIsPrefix(feed, rest);
      var ps := Split(feed, rest);
      assert data == p + rest;
      FrontIsWhole(feed, data);
      SplitFront(feed, p, rest);
      FlattenCons(p, ps);
      var n := |Flatten(ps)|;
      assert data[k.value + n..] == rest[n..];
      assert data[..k.value + n] == p + rest[..n];
    } else {
      Stuck(feed, data, []);
      NothingFlat<Byte>();
      assert data[0..] == data;
    }
  }

  lemma FrontIsWhole(feed: Feed, data: Bytes)
    requires Front(feed, data).Some?
    ensures Whole(feed, data[..Front(feed, data).value])
  {
    assert data[..Front(feed, data).value][..HeaderLen(feed)] == data[..HeaderLen(feed)];
  }

  lemma FlattenCons(p: Bytes, ps: seq<Bytes>)
    ensures Flatten([p] + ps) == p + Flatten(ps)
  {
  }

  /** So the packets of a frame are exactly the whole packets after which nothing more can be taken. */
  lemma SplitExact(feed: Feed, data: Bytes, ps: seq<Bytes>)
    ensures Split(feed, data) == ps <==>
            AllWhole(feed, ps) && |Flatten(ps)| <= |data| && Flatten(ps) == data[..|Flatten(ps)|]
            && Front(feed, data[|Flatten(ps)|..]).None?
  {
    hide Whole, Front, Flatten;
    SplitIsPrefix(feed, data);
    if AllWhole(feed, ps) && |Flatten(ps)| <= |data| && Flatten(ps) == data[..|Flatten(ps)|]
       && Front(feed, data[|Flatten(ps)|..]).None? {
      var rest := data[|Flatten(ps)|..];
      SplitPackets(feed, ps, rest);
      assert data == Flatten(ps) + rest;
      assert Split(feed, rest) == [];
      assert ps + [] == ps;
    }
  }

  /** A header that announces less than itself is read by its packet type. */
  lemma ZeroLengthHeader(p: Bytes)
    requires |p| >= 8 && U16(p[1], p[2]) < 8
    ensures Whole(Ticks, p) <==> FallbackLen(p[0]) == Some(|p|)
  {
  }

  // ---------------------------------------------------------------- what the bytes say

  /** The number whose least byte comes first. */
  function LittleEndian(bytes: Bytes): nat {
    if bytes == [] then 0 else bytes[0] + 256 * LittleEndian(bytes[1..])
  }

  lemma ReadsLittleEndian(a: Byte, b: Byte, c: Byte, d: Byte)
    ensures U16(a, b) == LittleEndian([a, b])
    ensures U32(a, b, c, d) == LittleEndian([a, b, c, d])
  {
    var nothing: Bytes := [];
    assert LittleEndian(nothing) == 0;
    assert [d][1..] == nothing && [c, d][1..] == [d] && [b, c, d][1..] == [c, d] && [a, b, c, d][1..] == [b, c, d];
    assert [b][1..] == nothing && [a, b][1..] == [b];
    assert LittleEndian([d]) == d && LittleEndian([c, d]) == c + 256 * d && LittleEndian([b]) == b;
  }

  /** A tick packet is as long as bytes 1 and 2 say, least first, or, when that is less than a header, as long as
      packets of its type are; a depth packet has 332 bytes, and any other packet of that feed as many as bytes
      0 and 1 say, if that is no less than a header. */
  lemma WholeMeans(p: Bytes)
    ensures Whole(Ticks, p) <==>
            |p| >= 8 &&
            var n := LittleEndian(p[1..3]);
            if n >= 8 then |p| == n
            else || (p[0] == 8 && |p| == 162) || (p[0] == 4 && |p| == 50) || (p[0] == 2 && |p| == 16)
                 || (p[0] == 5 && |p| == 12) || (p[0] == 6 && |p| == 16) || (p[0] == 50 && |p| == 10)
    ensures Whole(Depth, p) <==>
            |p| >= 12 && if p[2] == 41 || p[2] == 51 then |p| == 332 else |p| == LittleEndian(p[0..2])
  {
    if |p| >= 8 {
      ReadsLittleEndian(p[1], p[2], 0, 0);
      assert p[1..3] == [p[1], p[2]];
    }
    if |p| >= 12 {
      ReadsLittleEndian(p[0], p[1], 0, 0);
      assert p[0..2] == [p[0], p[1]];
    }
  }

  // ---------------------------------------------------------------- the loops

  method SplitFrame(data: Bytes) returns (packets: seq<Bytes>)
    ensures packets == Split(Ticks, data)
  {
    hide Split;
    packets := [];
    var n, off := |data|, 0;
    assert data[0..] == data && [] + Split(Ticks, data) == Split(Ticks, data);
    while off + HeaderLen(Ticks) <= n
      invariant off <= n && Split(Ticks, data) == packets + Split(Ticks, data[off..])
      decreases n - off
    {
      FrontAt(Ticks, data, off);
      var msgLen: nat := U16(data[off + 1], data[off + 2]);
      if msgLen < HeaderLen(Ticks) {
        var fallback := FallbackLen(data[off]);
        if fallback.None? {
          break;
        }
        msgLen := fallback.value;
      }
      if off + msgLen > n {
        break;
      }
      Advance(Ticks, data, off, msgLen, packets);
      packets := packets + [data[off..off + msgLen]];
      off := off + msgLen;
    }
    Stuck(Ticks, data[off..], packets);
  }

  lemma FrontAt(feed: Feed, data: Bytes, off: nat)
    requires off + HeaderLen(feed) <= |data|
    ensures var len := PacketLen(feed, data[off..off + HeaderLen(feed)]);
            Front(feed, data[off..]) == if len.Some? && off + len.value <= |data| then len else None
  {
    assert data[off..][..HeaderLen(feed)] == data[off..off + HeaderLen(feed)];
  }

  lemma Stuck(feed: Feed, data: Bytes, packets: seq<Bytes>)
    requires Front(feed, data).None?
    ensures packets + Split(feed, data) == packets
  {
    assert packets + [] == packets;
  }

  lemma Advance(feed: Feed, data: Bytes, off: nat, len: nat, packets: seq<Bytes>)
    requires off + len <= |data| && Front(feed, data[off..]) == Some(len)
    ensures packets + Split(feed, data[off..]) == packets + [data[off..off + len]] + Split(feed, data[off + len..])
  {
    assert data[off..][..len] == data[off..off + len];
    assert data[off..][len..] == data[off + len..];
    Associative(packets, [data[off..off + len]], Split(feed, data[off + len..]));
  }

  method SplitDepthFrame(data: Bytes) returns (packets: seq<Bytes>)
    ensures packets == Split(Depth, data)
  {
    hide Split;
    packets := [];
    var n, off := |data|, 0;
    assert data[0..] == data && [] + Split(Depth, data) == Split(Depth, data);
    while off + HeaderLen(Depth) <= n
      invariant off <= n && Split(Depth, data) == packets + Split(Depth, data[off..])
      decreases n - off
    {
      FrontAt(Depth, data, off);
      var msgLen, feedCode := U16(data[off], data[off + 1]), data[off + 2];
      var plen: nat;
      if feedCode == FEED_BID || feedCode == FEED_ASK {
        plen := PACKET_LEN;
      } else if msgLen >= HeaderLen(Depth) {
        plen := msgLen;
      } else {
        break;
      }
      if off + plen > n {
        break;
      }
      Advance(Depth, data, off, plen, packets);
      packets := packets + [data[off..off + plen]];
      off := off + plen;
    }
    Stuck(Depth, data[off..], packets);
  }

  // ---------------------------------------------------------------- depth packets

  type Word = x: int | 0 <= x < 0x1_0000_0000

  function U32(a: Byte, b: Byte, c: Byte, d: Byte): Word {
    U16(a, b) + 65536 * U16(c, d)
  }

  /** A price is kept as its eight bytes. */
  datatype Level = Level(price: Bytes, qty: Word, orders: Word)

  datatype Side = Bid | Ask

  datatype Row = Row(sid: Word, segment: Byte, side: Side, msgSeq: Word, levels: seq<Level>)

  ghost predicate GoodRow(r: Row) {
    |r.levels| == DEPTH_LEVELS && forall i :: 0 <= i < |r.levels| ==> |r.levels[i].price| == 8
  }

  function LevelAt(packet: Bytes, off: nat): Level
    requires off + LEVEL_LEN <= |packet|
  {
    Level(packet[off..off + 8], U32(packet[off + 8], packet[off + 9], packet[off + 10], packet[off + 11]),
          U32(packet[off + 12], packet[off + 13], packet[off + 14], packet[off + 15]))
  }

  function LevelsOf(packet: Bytes, n: nat): (r: seq<Level>)
    requires 12 + LEVEL_LEN * n <= |packet|
    ensures |r| == n
    ensures forall i :: 0 <= i < n ==> r[i] == LevelAt(packet, 12 + LEVEL_LEN * i)
  {
    if n == 0 then [] else LevelsOf(packet, n - 1) + [LevelAt(packet, 12 + LEVEL_LEN * (n - 1))]
  }

  /** A depth row, or a control event. */
  datatype Message =
    | Depths(row: Row)
    | Disconnect(sid: Word, segment: Byte, code: Option<nat>, reason: string)
    | Other(feedCode: Byte, sid: Word, segment: Byte)

  function Reason(code: Option<nat>): string {
    if code == Some(805) then "exceeded max connections"
    else if code == Some(806) then "data-api not subscribed"
    else if code == Some(807) then "access token expired"
    else if code == Some(808) then "invalid client id"
    else if code == Some(809) then "auth failed"
    else "unknown"
  }

  /** None for a packet too short for its kind; a disconnect without a code is tolerated. */
  function MessageOf(packet: Bytes): Option<Message> {
    if |packet| < HeaderLen(Depth) then None
    else
      var code, sid, segment := packet[2], U32(packet[4], packet[5], packet[6], packet[7]), packet[3];
      if code == FEED_BID || code == FEED_ASK then
        if |packet| < PACKET_LEN then None else Some(Depths(Parsed(packet)))
      else if code == PKT_DISCONNECT then
        var reason := if |packet| >= 14 then Some(U16(packet[12], packet[13])) else None;
        Some(Disconnect(sid, segment, reason, Reason(reason)))
      else Some(Other(code, sid, segment))
  }

  method ParseDepthPacket(packet: Bytes) returns (msg: Option<Message>)
    ensures msg == MessageOf(packet)
  {
    if |packet| < HeaderLen(Depth) {
      return None;
    }
    var code, sid, segment := packet[2], U32(packet[4], packet[5], packet[6], packet[7]), packet[3];
    if code == FEED_BID || code == FEED_ASK {
      if |packet| < PACKET_LEN {
        return None;
      }
      var levels, off := [], HeaderLen(Depth);
      for lvl := 0 to DEPTH_LEVELS
        invariant off == 12 + LEVEL_LEN * lvl && levels == LevelsOf(packet, lvl)
      {
        levels := levels + [LevelAt(packet, off)];
        off := off + LEVEL_LEN;
      }
      var side := if code == FEED_BID then Bid else Ask;
      return Some(Depths(Row(sid, segment, side, U32(packet[8], packet[9], packet[10], packet[11]), levels)));
    }
    if code == PKT_DISCONNECT {
      var reason := None;
      if |packet| >= HeaderLen(Depth) + 2 {
        reason := Some(U16(packet[12], packet[13]));
      }
      return Some(Disconnect(sid, segment, reason, Reason(reason)));
    }
    return Some(Other(code, sid, segment));
  }

  function Parsed(packet: Bytes): Row
    requires |packet| >= PACKET_LEN
  {
    Row(U32(packet[4], packet[5], packet[6], packet[7]), packet[3], if packet[2] == FEED_BID then Bid else Ask,
        U32(packet[8], packet[9], packet[10], packet[11]), LevelsOf(packet, DEPTH_LEVELS))
  }

  /** Four bytes of a packet as a number. */
  lemma WordAt(p: Bytes, off: nat)
    requires off + 4 <= |p|
    ensures U32(p[off], p[off + 1], p[off + 2], p[off + 3]) == LittleEndian(p[off..off + 4])
  {
    ReadsLittleEndian(p[off], p[off + 1], p[off + 2], p[off + 3]);
    assert p[off..off + 4] == [p[off], p[off + 1], p[off + 2], p[off + 3]];
  }

  /** Where every field of a depth packet lies: 41 is the bid and 51 the ask; then the segment, the security and
      the sequence number, and twenty levels of price, quantity and orders. */
  lemma DepthLayout(p: Bytes, i: nat)
    requires |p| >= 332 && (p[2] == 41 || p[2] == 51) && i < 20
    ensures MessageOf(p).Some? && MessageOf(p).value.Depths?
    ensures var r := MessageOf(p).value.row;
            && r.side == (if p[2] == 41 then Bid else Ask) && r.segment == p[3]
            && r.sid == LittleEndian(p[4..8]) && r.msgSeq == LittleEndian(p[8..12]) && |r.levels| == 20
            && r.levels[i].price == p[12 + 16 * i..20 + 16 * i]
            && r.levels[i].qty == LittleEndian(p[20 + 16 * i..24 + 16 * i])
            && r.levels[i].orders == LittleEndian(p[24 + 16 * i..28 + 16 * i])
  {
    hide LittleEndian, U32;
    WordAt(p, 4);
    WordAt(p, 8);
    WordAt(p, 20 + 16 * i);
    WordAt(p, 24 + 16 * i);
  }

  /** And of any other packet: 50 is a disconnect, with its reason in bytes 12 and 13 if they are there. */
  lemma ControlLayout(p: Bytes)
    requires |p| >= 12 && p[2] != 41 && p[2] != 51
    ensures LittleEndian(p[4..8]) < 0x1_0000_0000
    ensures p[2] != 50 ==> MessageOf(p) == Some(Other(p[2], LittleEndian(p[4..8]), p[3]))
    ensures p[2] == 50 && |p| < 14 ==> MessageOf(p) == Some(Disconnect(LittleEndian(p[4..8]), p[3], None, "unknown"))
    ensures p[2] == 50 && |p| >= 14 ==>
              var code := LittleEndian(p[12..14]);
              MessageOf(p) == Some(Disconnect(LittleEndian(p[4..8]), p[3], Some(code), Reason(Some(code))))
  {
    hide LittleEndian, U32, U16;
    WordAt(p, 4);
    if |p| >= 14 {
      ReadsLittleEndian(p[12], p[13], 0, 0);
      assert p[12..14] == [p[12], p[13]];
    }
  }

  // ---------------------------------------------------------------- what the feed sends

  function Le16(x: int): (r: Bytes)
    requires 0 <= x < 65536
    ensures |r| == 2 && U16(r[0], r[1]) == x
  {
    [x % 256, x / 256]
  }

  function Le32(x: Word): (r: Bytes)
    ensures |r| == 4 && U32(r[0], r[1], r[2], r[3]) == x
  {
    Le16(x % 65536) + Le16(x / 65536)
  }

  function EncodeLevel(l: Level): (r: Bytes)
    requires |l.price| == 8
    ensures |r| == LEVEL_LEN && LevelAt(r, 0) == l
  {
    var r := l.price + Le32(l.qty) + Le32(l.orders);
    assert r[0..8] == l.price;
    r
  }

  function EncodeLevels(ls: seq<Level>): (r: Bytes)
    requires forall i :: 0 <= i < |ls| ==> |ls[i].price| == 8
    ensures |r| == LEVEL_LEN * |ls|
  {
    if ls == [] then [] else EncodeLevels(ls[..|ls| - 1]) + EncodeLevel(ls[|ls| - 1])
  }

  /** A depth packet; its length field may say anything. */
  function Encode(r: Row, msgLen: int): (p: Bytes)
    requires GoodRow(r) && 0 <= msgLen < 65536
    ensures |p| == PACKET_LEN
  {
    Le16(msgLen) + [if r.side == Bid then FEED_BID else FEED_ASK, r.segment] + Le32(r.sid) + Le32(r.msgSeq) + EncodeLevels(r.levels)
  }

  lemma LevelShift(a: Bytes, b: Bytes, off: nat)
    requires off + LEVEL_LEN <= |b|
    ensures LevelAt(a + b, |a| + off) == LevelAt(b, off)
  {
    assert (a + b)[|a| + off..|a| + off + 8] == b[off..off + 8];
  }

  lemma LevelKeep(a: Bytes, b: Bytes, off: nat)
    requires off + LEVEL_LEN <= |a|
    ensures LevelAt(a + b, off) == LevelAt(a, off)
  {
    assert (a + b)[off..off + 8] == a[off..off + 8];
  }

  lemma {:induction false} LevelsRoundTrip(ls: seq<Level>, i: nat)
    requires i < |ls| && forall j :: 0 <= j < |ls| ==> |ls[j].price| == 8
    ensures LevelAt(EncodeLevels(ls), LEVEL_LEN * i) == ls[i]
  {
    hide LevelAt, EncodeLevel;
    var n := |ls| - 1;
    var before, last := EncodeLevels(ls[..n]), EncodeLevel(ls[n]);
    if i == n {
      LevelShift(before, last, 0);
    } else {
      LevelsRoundTrip(ls[..n], i);
      LevelKeep(before, last, LEVEL_LEN * i);
    }
  }

  /** Parsing what was sent gives back every field, whatever the length field said; and the splitter takes
      the packet whole. */
  lemma DepthRoundTrip(r: Row, msgLen: int)
    requires GoodRow(r) && 0 <= msgLen < 65536
    ensures var p := Encode(r, msgLen); MessageOf(p) == Some(Depths(r)) && Whole(Depth, p)
  {
    hide LevelAt, EncodeLevels, Le16, Le32;
    var p := Encode(r, msgLen);
    var head := Le16(msgLen) + [if r.side == Bid then FEED_BID else FEED_ASK, r.segment] + Le32(r.sid) + Le32(r.msgSeq);
    assert p == head + EncodeLevels(r.levels);
    HeadFields(r, msgLen);
    forall i | 0 <= i < DEPTH_LEVELS ensures LevelAt(p, 12 + LEVEL_LEN * i) == r.levels[i] {
      LevelShift(head, EncodeLevels(r.levels), LEVEL_LEN * i);
      LevelsRoundTrip(r.levels, i);
    }
    assert LevelsOf(p, DEPTH_LEVELS) == r.levels;
    assert Parsed(p) == r;
  }

  lemma HeadFields(r: Row, msgLen: int)
    requires GoodRow(r) && 0 <= msgLen < 65536
    ensures var p := Encode(r, msgLen);
            && p[2] == (if r.side == Bid then FEED_BID else FEED_ASK) && p[3] == r.segment
            && U32(p[4], p[5], p[6], p[7]) == r.sid && U32(p[8], p[9], p[10], p[11]) == r.msgSeq
  {
    hide EncodeLevels, Le16, Le32, U32;
    var a, b := Le32(r.sid), Le32(r.msgSeq);
    var p := Encode(r, msgLen);
    assert p[4] == a[0] && p[5] == a[1] && p[6] == a[2] && p[7] == a[3];
    assert p[8] == b[0] && p[9] == b[1] && p[10] == b[2] && p[11] == b[3];
  }

  ghost function Packets(rows: seq<Row>, lens: seq<int>): (ps: seq<Bytes>)
    requires |lens| == |rows| && forall i :: 0 <= i < |rows| ==> GoodRow(rows[i]) && 0 <= lens[i] < 65536
    ensures |ps| == |rows| && forall i :: 0 <= i < |rows| ==> ps[i] == Encode(rows[i], lens[i])
  {
    seq(|rows|, i requires 0 <= i < |rows| => Encode(rows[i], lens[i]))
  }

  /** Parsing a whole frame: what every packet says, those too short left out. */
  method ParseDepthFrame(data: Bytes) returns (msgs: seq<Message>)
    ensures msgs == MessagesOf(Split(Depth, data))
  {
    hide MessageOf;
    var packets := SplitDepthFrame(data);
    msgs := [];
    for i := 0 to |packets|
      invariant msgs == MessagesOf(packets[..i])
    {
      assert packets[..i + 1][..i] == packets[..i];
      var msg := ParseDepthPacket(packets[i]);
      if msg.Some? {
        msgs := msgs + [msg.value];
      }
    }
    assert packets[..|packets|] == packets;
  }

  function MessagesOf(packets: seq<Bytes>): seq<Message> {
    if packets == [] then []
    else
      var m := MessageOf(packets[|packets| - 1]);
      MessagesOf(packets[..|packets| - 1]) + if m.Some? then [m.value] else []
  }

  function Sent(rows: seq<Row>): (ms: seq<Message>)
    ensures |ms| == |rows| && forall i :: 0 <= i < |rows| ==> ms[i] == Depths(rows[i])
  {
    seq(|rows|, i requires 0 <= i < |rows| => Depths(rows[i]))
  }

  lemma {:induction false} MessagesOfPackets(rows: seq<Row>, ps: seq<Bytes>)
    requires |ps| == |rows| && forall i :: 0 <= i < |ps| ==> MessageOf(ps[i]) == Some(Depths(rows[i]))
    ensures MessagesOf(ps) == Sent(rows)
  {
    if rows != [] {
      hide MessageOf;
      var n := |rows| - 1;
      MessagesOfPackets(rows[..n], ps[..n]);
      assert Sent(rows) == Sent(rows[..n]) + [Depths(rows[n])];
    }
  }

  /** From a frame of depth packets cut off inside the next one, exactly the rows sent in full come back. */
  lemma FrameRoundTrip(rows: seq<Row>, lens: seq<int>, last: Row, lastLen: int, k: nat)
    requires |lens| == |rows| && forall i :: 0 <= i < |rows| ==> GoodRow(rows[i]) && 0 <= lens[i] < 65536
    requires GoodRow(last) && 0 <= lastLen < 65536 && k < PACKET_LEN
    ensures MessagesOf(Split(Depth, Flatten(Packets(rows, lens)) + Encode(last, lastLen)[..k])) == Sent(rows)
  {
    hide Encode, Whole, MessageOf;
    var ps := Packets(rows, lens);
    forall i | 0 <= i < |rows| ensures Whole(Depth, ps[i]) && MessageOf(ps[i]) == Some(Depths(rows[i])) {
      DepthRoundTrip(rows[i], lens[i]);
    }
    DepthRoundTrip(last, lastLen);
    SplitUndoesConcat(Depth, ps, Encode(last, lastLen), k);
    MessagesOfPackets(rows, ps);
  }
}
