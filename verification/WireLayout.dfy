/** The packets byte by byte, and what the receivers make of bytes that are no proper packet. */
module WireLayout {
  import opened Common
  import opened Wire

  /** The packet identifiers. */
  lemma Identifiers()
    ensures TIME_SYNC == 0x01 && GOODBYE == 0x02
    ensures REQUEST_PASTE == 0x81 && REQUEST_COPY == 0x82 && REQUEST_WAIT == 0x83
    ensures RESPONSE_ACK == 0xC0 && RESPONSE_PASTE == 0xC1 && RESPONSE_NOTIFY == 0xC2
  {
  }

  /** The number with these bytes, the least significant one first. */
  function Number(a: byte, b: byte, c: byte, d: byte): (x: u32)
    ensures x == a as int + 0x100 * b as int + 0x1_0000 * c as int + 0x100_0000 * d as int
  {
    U32Of([a, b, c, d])
  }

  lemma LowByte(a: int, rest: int)
    requires 0 <= a < 0x100
    ensures (a + 0x100 * rest) % 0x100 == a && (a + 0x100 * rest) / 0x100 == rest
  {
  }

  lemma BytesOf(a: byte, b: byte, c: byte, d: byte)
    ensures U32Bytes(Number(a, b, c, d)) == [a, b, c, d]
  {
    var x2 := c as int + 0x100 * d as int;
    var x1 := b as int + 0x100 * x2;
    var x0 := a as int + 0x100 * x1;
    assert Number(a, b, c, d) == x0;
    LowByte(a as int, x1);
    LowByte(b as int, x2);
    LowByte(c as int, d as int);
  }

  lemma ShortLayouts(kind: byte, region: byte, a: byte, b: byte, c: byte, d: byte)
    ensures Encode(Bye) == [0x02]
    ensures Encode(Sync(Number(a, b, c, d))) == [0x01, a, b, c, d]
    ensures Encode(Fetch(kind, region, Number(a, b, c, d))) == [kind, region, a, b, c, d]
  {
    BytesOf(a, b, c, d);
  }

  lemma DataLayout(kind: byte, region: byte, size: seq<byte>, stamp: seq<byte>, data: seq<byte>)
    requires |size| == 4 && |stamp| == 4 && |data| == Number(size[0], size[1], size[2], size[3])
    ensures Encode(Data(kind, region, Number(stamp[0], stamp[1], stamp[2], stamp[3]), data)) ==
            [kind, region] + size + stamp + data
  {
    BytesOf(size[0], size[1], size[2], size[3]);
    BytesOf(stamp[0], stamp[1], stamp[2], stamp[3]);
    assert size == [size[0], size[1], size[2], size[3]];
    assert stamp == [stamp[0], stamp[1], stamp[2], stamp[3]];
  }

  // ----- A clipboard's slave -----

  /** Anything but a sync or a copy ends the session. */
  lemma ClipOtherEnds(withParent: bool, kind: byte, tail: seq<byte>)
    requires kind != 0x01 && kind != 0x82
    ensures ClipSession(withParent, [kind] + tail) == ([], true, tail)
  {
    assert ([kind] + tail)[1..] == tail;
  }

  /** A sync's type from below is passed over, and what is behind it read as packets. */
  lemma ClipSyncFromBelow(tail: seq<byte>)
    ensures ClipSession(false, [0x01] + tail) == ClipSession(false, tail)
  {
    assert ([0x01] + tail)[1..] == tail;
  }

  /** A copy of no bytes, or of more than an int can hold, ends the session; its data stays unread. */
  lemma ClipNoReadEnds(withParent: bool, head: seq<byte>, tail: seq<byte>)
    requires |head| == 10 && head[0] == 0x82
    requires var n := Number(head[2], head[3], head[4], head[5]); n == 0 || n >= 0x8000_0000
    ensures ClipSession(withParent, head + tail) == ([], true, tail)
  {
    var s := head + tail;
    assert s[2..6] == [head[2], head[3], head[4], head[5]];
    assert s[DATA_SIZE..] == tail;
  }

  // ----- An application's slave -----

  /** A byte of no known type is passed over. */
  lemma AppOtherSkipped(woken: seq<bool>, kind: byte, tail: seq<byte>)
    requires kind != 0x02 && kind != 0x81 && kind != 0x82 && kind != 0x83
    ensures AppRequests(woken, [kind] + tail) == AppRequests(woken, tail)
  {
    assert ([kind] + tail)[1..] == tail;
  }

  lemma AppHugeEnds(woken: seq<bool>, head: seq<byte>, tail: seq<byte>)
    requires |head| == 10 && head[0] == 0x82
    requires Number(head[2], head[3], head[4], head[5]) >= 0x8000_0000
    ensures AppRequests(woken, head + tail) == ([], true, tail)
  {
    var s := head + tail;
    assert s[2..6] == [head[2], head[3], head[4], head[5]];
    assert s[DATA_SIZE..] == tail;
  }
}
