/** The packed packets of src/utils/packet.h, and how the receivers take them off a byte stream. */
module Wire {
  import opened Common

  const TIME_SYNC: byte := 0x01
  const GOODBYE: byte := 0x02
  const REQUEST_PASTE: byte := 0x81
  const REQUEST_COPY: byte := 0x82
  const REQUEST_WAIT: byte := 0x83
  const RESPONSE_ACK: byte := 0xC0
  const RESPONSE_PASTE: byte := 0xC1
  const RESPONSE_NOTIFY: byte := 0xC2

  /** The sizes of struct packet, packet_sync, packet_fetch and packet_data. */
  const PACKET_SIZE: nat := 1
  const SYNC_SIZE: nat := 5
  const FETCH_SIZE: nat := 6
  const DATA_SIZE: nat := 10

  datatype Msg =
    | Sync(time: u32)
    | Bye
    | Fetch(kind: byte, region: byte, count: u32)
    | Data(kind: byte, region: byte, stamp: u32, data: seq<byte>)

  predicate FetchKind(k: byte) {
    k == REQUEST_PASTE || k == REQUEST_WAIT || k == RESPONSE_ACK
  }

  predicate DataKind(k: byte) {
    k == REQUEST_COPY || k == RESPONSE_PASTE || k == RESPONSE_NOTIFY
  }

  /** A whole packet's length fits in the int that sendData and recvData take. */
  predicate InRange(n: nat) {
    n + DATA_SIZE < INT_LIMIT
  }

  predicate ValidMsg(m: Msg) {
    match m
    case Sync(_) => true
    case Bye => true
    case Fetch(k, _, _) => FetchKind(k)
    case Data(k, _, _, d) => DataKind(k) && InRange(|d|)
  }

  // ----- Integers, least significant byte first -----

  function U32Bytes(x: u32): (b: seq<byte>)
    ensures |b| == 4
  {
    var a, b, c := x / 0x100, x / 0x100 / 0x100, x / 0x100 / 0x100 / 0x100;
    [(x % 0x100) as byte, (a % 0x100) as byte, (b % 0x100) as byte, c as byte]
  }

  function U32Of(b: seq<byte>): u32
    requires |b| == 4
  {
    b[0] as int + 0x100 * b[1] as int + 0x1_0000 * b[2] as int + 0x100_0000 * b[3] as int
  }

  lemma U32RoundTrip(x: u32)
    ensures U32Of(U32Bytes(x)) == x
  {
  }

  // ----- Packets as bytes -----

  /** The size field keeps the low 32 bits of a length. */
  function SizeField(n: nat): u32 {
    n % U32_LIMIT
  }

  function Encode(m: Msg): (b: seq<byte>)
    ensures |b| >= PACKET_SIZE
  {
    match m
    case Sync(time) => [TIME_SYNC] + U32Bytes(time)
    case Bye => [GOODBYE]
    case Fetch(k, region, count) => [k, region] + U32Bytes(count)
    case Data(k, region, stamp, d) => [k, region] + U32Bytes(SizeField(|d|)) + U32Bytes(stamp) + d
  }

  function EncodeAll(ms: seq<Msg>): seq<byte>
  {
    if ms == [] then [] else Encode(ms[0]) + EncodeAll(ms[1..])
  }

  /** A whole packet_fetch at the front of a stream. */
  function FetchAt(s: seq<byte>): Msg
    requires |s| >= FETCH_SIZE
  {
    Fetch(s[0], s[1], U32Of(s[2..6]))
  }

  function SizeAt(s: seq<byte>): u32
    requires |s| >= DATA_SIZE
  {
    U32Of(s[2..6])
  }

  /** A whole packet_data with its data at the front of a stream. */
  function DataAt(s: seq<byte>): Msg
    requires |s| >= DATA_SIZE && |s| >= DATA_SIZE + SizeAt(s)
  {
    Data(s[0], s[1], U32Of(s[6..10]), s[DATA_SIZE..DATA_SIZE + SizeAt(s)])
  }

  lemma FetchReads(m: Msg, tail: seq<byte>)
    requires ValidMsg(m) && m.Fetch?
    ensures var s := Encode(m) + tail;
            && |s| >= FETCH_SIZE && FetchAt(s) == m && s[FETCH_SIZE..] == tail && |Encode(m)| == FETCH_SIZE
  {
    var s := Encode(m) + tail;
    assert s[2..6] == U32Bytes(m.count);
    U32RoundTrip(m.count);
  }

  /** Where the four parts of a packed packet_data lie. */
  lemma DataParts(head: seq<byte>, size: seq<byte>, stamp: seq<byte>, data: seq<byte>, tail: seq<byte>)
    requires |head| == 2 && |size| == 4 && |stamp| == 4
    ensures var s := (head + size + stamp + data) + tail;
            && s[0] == head[0] && s[1] == head[1] && s[2..6] == size && s[6..10] == stamp
            && s[10..10 + |data|] == data && s[10 + |data|..] == tail
  {
  }

  lemma DataReads(m: Msg, tail: seq<byte>)
    requires ValidMsg(m) && m.Data?
    ensures var s := Encode(m) + tail;
            && |Encode(m)| == DATA_SIZE + |m.data| && |s| >= DATA_SIZE + |m.data|
            && SizeAt(s) == |m.data| && DataAt(s) == m && s[DATA_SIZE + |m.data|..] == tail
  {
    assert SizeField(|m.data|) == |m.data|;
    DataParts([m.kind, m.region], U32Bytes(|m.data|), U32Bytes(m.stamp), m.data, tail);
    U32RoundTrip(|m.data|);
    U32RoundTrip(m.stamp);
  }

  // ----- A clipboard's slave -----

  /**
   * One turn of the receive loop of clipif_slave on the bytes that will ever arrive: a message, a
   * type byte passed over, the end of the session, or a read that never completes.
   */
  datatype Turn = Took(msg: Msg, rest: seq<byte>) | PassedOver(rest: seq<byte>) | Ends(rest: seq<byte>) | Starves

  /** A read of no bytes, or of a negative int of them, returns 0, which ends the loop. */
  predicate ReadsNothing(size: u32) {
    size == 0 || size >= INT_LIMIT
  }

  function ClipTurn(withParent: bool, s: seq<byte>): (t: Turn)
    ensures t.Took? || t.PassedOver? || t.Ends? ==> |t.rest| < |s|
  {
    if |s| < PACKET_SIZE then Starves
    else if s[0] == TIME_SYNC then
      if !withParent then PassedOver(s[1..])
      else if |s| < SYNC_SIZE then Starves
      else Took(Sync(U32Of(s[1..5])), s[SYNC_SIZE..])
    else if s[0] == REQUEST_COPY then
      if |s| < DATA_SIZE then Starves
      else if ReadsNothing(SizeAt(s)) then Ends(s[DATA_SIZE..])
      else if |s| < DATA_SIZE + SizeAt(s) then Starves
      else Took(DataAt(s), s[DATA_SIZE + SizeAt(s)..])
    else Ends(s[1..])
  }

  /** All messages a clipboard's slave takes, whether its session has ended, and the bytes left. */
  function ClipSession(withParent: bool, s: seq<byte>): (seq<Msg>, bool, seq<byte>)
    decreases |s|
  {
    match ClipTurn(withParent, s)
    case Starves => ([], false, s)
    case Ends(rest) => ([], true, rest)
    case PassedOver(rest) => ClipSession(withParent, rest)
    case Took(m, rest) =>
      var (ms, ended, left) := ClipSession(withParent, rest);
      ([m] + ms, ended, left)
  }

  /** What may travel between clipboards: syncs only down from a parent, copies never empty. */
  predicate LinkMsg(withParent: bool, m: Msg) {
    ValidMsg(m) && ((m.Sync? && withParent) || (m.Data? && m.kind == REQUEST_COPY && |m.data| > 0))
  }

  predicate AllLink(withParent: bool, ms: seq<Msg>) {
    ms == [] || (LinkMsg(withParent, ms[0]) && AllLink(withParent, ms[1..]))
  }

  lemma ClipTakes(withParent: bool, m: Msg, tail: seq<byte>)
    requires LinkMsg(withParent, m)
    ensures ClipTurn(withParent, Encode(m) + tail) == Took(m, tail)
  {
    var s := Encode(m) + tail;
    if m.Sync? {
      assert s[1..5] == U32Bytes(m.time);
      U32RoundTrip(m.time);
      assert s[SYNC_SIZE..] == tail;
    } else {
      DataReads(m, tail);
    }
  }

  /** A packet cut short is never taken for a message. */
  lemma CutStarves(withParent: bool, m: Msg, k: nat)
    requires LinkMsg(withParent, m) && k < |Encode(m)|
    ensures ClipTurn(withParent, Encode(m)[..k]) == Starves
  {
    var s := Encode(m)[..k];
    if m.Data? && k >= DATA_SIZE {
      DataReads(m, []);
      assert Encode(m) + [] == Encode(m);
      assert s[2..6] == Encode(m)[2..6];
    }
  }

  lemma SessionTakes(withParent: bool, m: Msg, tail: seq<byte>)
    requires LinkMsg(withParent, m)
    ensures var (ms, ended, left) := ClipSession(withParent, tail);
            ClipSession(withParent, Encode(m) + tail) == ([m] + ms, ended, left)
  {
    ClipTakes(withParent, m, tail);
  }

  lemma EncodeFirst(ms: seq<Msg>, tail: seq<byte>)
    requires ms != []
    ensures EncodeAll(ms) + tail == Encode(ms[0]) + (EncodeAll(ms[1..]) + tail)
  {
  }

  lemma FirstAndRest(ms: seq<Msg>, more: seq<Msg>)
    requires ms != []
    ensures [ms[0]] + (ms[1..] + more) == ms + more
  {
  }

  lemma NothingFirst(tail: seq<byte>, more: seq<Msg>)
    ensures EncodeAll([]) + tail == tail && [] + more == more
  {
  }

  /** Messages in front of a stream are taken first, whatever follows them. */
  lemma {:induction false} SessionTakesAll(withParent: bool, ms: seq<Msg>, tail: seq<byte>)
    requires AllLink(withParent, ms)
    ensures var (more, ended, left) := ClipSession(withParent, tail);
            ClipSession(withParent, EncodeAll(ms) + tail) == (ms + more, ended, left)
  {
    if ms == [] {
      NothingFirst(tail, ClipSession(withParent, tail).0);
    } else {
      EncodeFirst(ms, tail);
      SessionTakes(withParent, ms[0], EncodeAll(ms[1..]) + tail);
      SessionTakesAll(withParent, ms[1..], tail);
      FirstAndRest(ms, ClipSession(withParent, tail).0);
    }
  }

  /**
   * Framing: whatever messages a link carries, followed by a packet cut anywhere (or nothing), the
   * slave takes exactly these messages, in order, and waits at the cut.
   */
  lemma ClipRoundTrip(withParent: bool, ms: seq<Msg>, last: Msg, k: nat)
    requires LinkMsg(withParent, last) && AllLink(withParent, ms)
    requires k < |Encode(last)|
    ensures ClipSession(withParent, EncodeAll(ms) + Encode(last)[..k]) == (ms, false, Encode(last)[..k])
  {
    CutStarves(withParent, last, k);
    assert ms + [] == ms;
    SessionTakesAll(withParent, ms, Encode(last)[..k]);
  }

  /** A goodbye ends the session with nothing left over. */
  lemma ClipGoodbye(withParent: bool, ms: seq<Msg>)
    requires AllLink(withParent, ms)
    ensures ClipSession(withParent, EncodeAll(ms) + Encode(Bye)) == (ms, true, [])
  {
    assert Encode(Bye) == [GOODBYE] && [GOODBYE][1..] == [];
    assert ClipSession(withParent, [GOODBYE]) == ([], true, []);
    assert ms + [] == ms;
    SessionTakesAll(withParent, ms, [GOODBYE]);
  }

  /**
   * Why syncs must only travel downwards: a slave that does not serve the parent leaves the time
   * unread and takes its first byte for the next packet's type.
   */
  lemma SyncUpwardsMisreads(tail: seq<byte>)
    ensures ClipSession(false, Encode(Sync(2)) + tail) == ([], true, [0, 0, 0] + tail)
  {
    var s := Encode(Sync(2)) + tail;
    assert s == [TIME_SYNC, 2, 0, 0, 0] + tail;
    assert s[1..] == [2, 0, 0, 0] + tail;
    assert s[1..][1..] == [0, 0, 0] + tail;
    assert ClipTurn(false, s) == PassedOver(s[1..]);
    assert ClipTurn(false, s[1..]) == Ends(s[1..][1..]);
  }

  // ----- An application's slave -----

  /**
   * What one turn of the receive loop of appif_slave reads; a byte of an unknown type is passed over.
   * How the session goes on after the request is served is FateOf.
   */
  function AppTurn(s: seq<byte>): (t: Turn)
    ensures t.Took? || t.PassedOver? || t.Ends? ==> |t.rest| < |s|
  {
    if |s| < PACKET_SIZE then Starves
    else if s[0] == REQUEST_PASTE || s[0] == REQUEST_WAIT then
      if |s| < FETCH_SIZE then Starves else Took(FetchAt(s), s[FETCH_SIZE..])
    else if s[0] == REQUEST_COPY then
      if |s| < DATA_SIZE then Starves
      else if SizeAt(s) >= INT_LIMIT then Ends(s[DATA_SIZE..])
      else if |s| < DATA_SIZE + SizeAt(s) then Starves
      else Took(DataAt(s), s[DATA_SIZE + SizeAt(s)..])
    else if s[0] == GOODBYE then Ends(s[1..])
    else PassedOver(s[1..])
  }

  predicate Request(m: Msg) {
    ValidMsg(m) && ((m.Fetch? && m.kind != RESPONSE_ACK) || (m.Data? && m.kind == REQUEST_COPY))
  }

  lemma AppTakes(m: Msg, tail: seq<byte>)
    requires Request(m)
    ensures AppTurn(Encode(m) + tail) == Took(m, tail)
  {
    if m.Fetch? {
      FetchReads(m, tail);
    } else {
      DataReads(m, tail);
    }
  }

  lemma AppCutStarves(m: Msg, k: nat)
    requires Request(m) && k < |Encode(m)|
    ensures AppTurn(Encode(m)[..k]) == Starves
  {
    var s := Encode(m)[..k];
    if m.Data? && k >= DATA_SIZE {
      DataReads(m, []);
      assert Encode(m) + [] == Encode(m);
      assert s[2..6] == Encode(m)[2..6];
    }
  }

  /** How a session goes on once a request has been served. */
  datatype Fate = GoesOn | Stops | Blocks

  predicate IsWait(m: Msg) {
    m.Fetch? && m.kind == REQUEST_WAIT
  }

  /**
   * A copy of no bytes is served and ends the session: its data is a read of nothing, which returns 0.
   * `woken` says of each wait to come whether mem_wait hands out bytes; a wait that gets none ends the
   * session too, and one beyond the end of `woken` does not return.
   */
  function FateOf(woken: seq<bool>, m: Msg): Fate {
    if IsWait(m) then (if woken == [] then Blocks else if woken[0] then GoesOn else Stops)
    else if m.Data? && m.data == [] then Stops
    else GoesOn
  }

  function WokenAfter(woken: seq<bool>, m: Msg): seq<bool> {
    if IsWait(m) && woken != [] then woken[1..] else woken
  }

  /** All requests an application's slave serves, whether its session has ended, and the bytes left. */
  function AppRequests(woken: seq<bool>, s: seq<byte>): (seq<Msg>, bool, seq<byte>)
    decreases |s|
  {
    match AppTurn(s)
    case Starves => ([], false, s)
    case Ends(rest) => ([], true, rest)
    case PassedOver(rest) => AppRequests(woken, rest)
    case Took(m, rest) =>
      match FateOf(woken, m)
      case GoesOn =>
        var (ms, ended, left) := AppRequests(WokenAfter(woken, m), rest);
        ([m] + ms, ended, left)
      case Stops => ([m], true, rest)
      case Blocks => ([m], false, rest)
  }

  predicate AllRequests(ms: seq<Msg>) {
    ms == [] || (Request(ms[0]) && AllRequests(ms[1..]))
  }

  /** The session goes on after each of these requests. */
  predicate AllGoOn(woken: seq<bool>, ms: seq<Msg>) {
    ms == [] || (FateOf(woken, ms[0]).GoesOn? && AllGoOn(WokenAfter(woken, ms[0]), ms[1..]))
  }

  lemma AppGoesOn(woken: seq<bool>, m: Msg, tail: seq<byte>)
    requires Request(m) && FateOf(woken, m).GoesOn?
    ensures var (ms, ended, left) := AppRequests(WokenAfter(woken, m), tail);
            AppRequests(woken, Encode(m) + tail) == ([m] + ms, ended, left)
  {
    AppTakes(m, tail);
  }

  lemma AppStops(woken: seq<bool>, m: Msg, tail: seq<byte>)
    requires Request(m) && !FateOf(woken, m).GoesOn?
    ensures AppRequests(woken, Encode(m) + tail) == ([m], FateOf(woken, m).Stops?, tail)
  {
    AppTakes(m, tail);
  }

  function WokenAfterAll(woken: seq<bool>, ms: seq<Msg>): seq<bool>
    decreases |ms|
  {
    if ms == [] then woken else WokenAfterAll(WokenAfter(woken, ms[0]), ms[1..])
  }

  /** Requests after which the session goes on are all served first, whatever follows them. */
  lemma {:induction false} AppTakesAll(woken: seq<bool>, ms: seq<Msg>, tail: seq<byte>)
    requires AllRequests(ms) && AllGoOn(woken, ms)
    ensures var (more, ended, left) := AppRequests(WokenAfterAll(woken, ms), tail);
            AppRequests(woken, EncodeAll(ms) + tail) == (ms + more, ended, left)
    decreases |ms|
  {
    if ms == [] {
      NothingFirst(tail, AppRequests(woken, tail).0);
    } else {
      EncodeFirst(ms, tail);
      AppGoesOn(woken, ms[0], EncodeAll(ms[1..]) + tail);
      AppTakesAll(WokenAfter(woken, ms[0]), ms[1..], tail);
      FirstAndRest(ms, AppRequests(WokenAfterAll(woken, ms), tail).0);
    }
  }

  /**
   * Framing on the application's side: requests after which the session goes on, then a request cut
   * anywhere: exactly these requests are served, in order, and the slave waits at the cut.
   */
  lemma AppRoundTrip(woken: seq<bool>, ms: seq<Msg>, last: Msg, k: nat)
    requires AllRequests(ms) && AllGoOn(woken, ms) && Request(last) && k < |Encode(last)|
    ensures AppRequests(woken, EncodeAll(ms) + Encode(last)[..k]) == (ms, false, Encode(last)[..k])
  {
    AppCutStarves(last, k);
    assert ms + [] == ms;
    AppTakesAll(woken, ms, Encode(last)[..k]);
  }

  /** The first request after which the session does not go on is number `n`. */
  predicate StopsAt(woken: seq<bool>, ms: seq<Msg>, n: nat) {
    n < |ms| && AllGoOn(woken, ms[..n]) && !FateOf(WokenAfterAll(woken, ms[..n]), ms[n]).GoesOn?
  }

  function ServedUpTo(woken: seq<bool>, ms: seq<Msg>, n: nat, tail: seq<byte>): (seq<Msg>, bool, seq<byte>)
    requires n < |ms|
  {
    (ms[..n + 1], FateOf(WokenAfterAll(woken, ms[..n]), ms[n]).Stops?, EncodeAll(ms[n + 1..]) + tail)
  }

  lemma StopsNow(woken: seq<bool>, ms: seq<Msg>, tail: seq<byte>)
    requires ms != [] && Request(ms[0]) && !FateOf(woken, ms[0]).GoesOn?
    ensures StopsAt(woken, ms, 0) && AppRequests(woken, EncodeAll(ms) + tail) == ServedUpTo(woken, ms, 0, tail)
  {
    EncodeFirst(ms, tail);
    assert ms[..0] == [] && ms[..1] == [ms[0]];
    AppStops(woken, ms[0], EncodeAll(ms[1..]) + tail);
  }

  lemma StopsLater(woken: seq<bool>, ms: seq<Msg>, n: nat)
    requires n + 1 < |ms| && FateOf(woken, ms[0]).GoesOn?
    requires StopsAt(WokenAfter(woken, ms[0]), ms[1..], n)
    ensures StopsAt(woken, ms, n + 1)
    ensures WokenAfterAll(WokenAfter(woken, ms[0]), ms[1..][..n]) == WokenAfterAll(woken, ms[..n + 1])
  {
    PrefixRest(ms, n);
  }

  lemma ServesLater(woken: seq<bool>, ms: seq<Msg>, n: nat, tail: seq<byte>)
    requires n + 1 < |ms| && Request(ms[0]) && FateOf(woken, ms[0]).GoesOn?
    requires StopsAt(WokenAfter(woken, ms[0]), ms[1..], n)
    requires AppRequests(WokenAfter(woken, ms[0]), EncodeAll(ms[1..]) + tail) ==
             ServedUpTo(WokenAfter(woken, ms[0]), ms[1..], n, tail)
    ensures AppRequests(woken, EncodeAll(ms) + tail) == ServedUpTo(woken, ms, n + 1, tail)
  {
    EncodeFirst(ms, tail);
    AppGoesOn(woken, ms[0], EncodeAll(ms[1..]) + tail);
    StopsLater(woken, ms, n);
    PrefixRest(ms, n);
  }

  /**
   * Otherwise the first request after which the session does not go on is the last one served, and
   * everything behind it stays unread.
   */
  lemma {:induction false} AppStopsEarly(woken: seq<bool>, ms: seq<Msg>, tail: seq<byte>) returns (n: nat)
    requires AllRequests(ms) && !AllGoOn(woken, ms)
    ensures StopsAt(woken, ms, n) && AppRequests(woken, EncodeAll(ms) + tail) == ServedUpTo(woken, ms, n, tail)
    decreases |ms|
  {
    if FateOf(woken, ms[0]).GoesOn? {
      var k := AppStopsEarly(WokenAfter(woken, ms[0]), ms[1..], tail);
      StopsLater(woken, ms, k);
      ServesLater(woken, ms, k, tail);
      n := k + 1;
    } else {
      n := 0;
      StopsNow(woken, ms, tail);
    }
  }

  lemma PrefixRest(ms: seq<Msg>, k: nat)
    requires k + 1 < |ms|
    ensures ms[..k + 1] != [] && ms[..k + 1][0] == ms[0] && ms[..k + 1][1..] == ms[1..][..k]
    ensures ms[..k + 2] == [ms[0]] + ms[1..][..k + 1]
    ensures ms[1..][k + 1..] == ms[k + 2..]
  {
  }

  /** A copy of no bytes is the last request served, whatever comes behind it. */
  lemma EmptyCopyEnds(woken: seq<bool>, ms: seq<Msg>, region: byte, stamp: u32, tail: seq<byte>)
    requires AllRequests(ms) && AllGoOn(woken, ms)
    ensures var empty := Data(REQUEST_COPY, region, stamp, []);
            AppRequests(woken, EncodeAll(ms) + (Encode(empty) + tail)) == (ms + [empty], true, tail)
  {
    var empty := Data(REQUEST_COPY, region, stamp, []);
    AppTakesAll(woken, ms, Encode(empty) + tail);
    AppStops(WokenAfterAll(woken, ms), empty, tail);
  }

  /**
   * A series of requests is served to the end, and then the goodbye, with nothing left over, exactly
   * when the session goes on after each of them.
   */
  lemma AppGoodbyeIff(woken: seq<bool>, ms: seq<Msg>)
    requires AllRequests(ms)
    ensures AppRequests(woken, EncodeAll(ms) + Encode(Bye)) == (ms, true, []) <==> AllGoOn(woken, ms)
  {
    if AllGoOn(woken, ms) {
      assert Encode(Bye) == [GOODBYE] && [GOODBYE][1..] == [];
      assert AppRequests(WokenAfterAll(woken, ms), [GOODBYE]) == ([], true, []);
      assert ms + [] == ms;
      AppTakesAll(woken, ms, [GOODBYE]);
    } else {
      var n := AppStopsEarly(woken, ms, Encode(Bye));
      assert |EncodeAll(ms[n + 1..]) + Encode(Bye)| > 0;
    }
  }
}
