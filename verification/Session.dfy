/**
 * An application's session with its clipboard: clipboard_copy and clipboard_paste of
 * Library/client_api.c on one side, the request loop of src/interfaces/appif.c on the other, two
 * byte streams in between.
 *
 * appif.c:246 computes MIN(sendData(...), err) with the macro MIN(A,B) of src/common.h:25, which
 * evaluates the call a second time when its result is not larger than `err`.  `realMin` chooses
 * between the macro (false) and a minimum that evaluates its arguments once (true).
 */
module Session {
  import opened Common
  import opened Clmem
  import opened Wire

  /** The bytes under way in both directions, whether the server still listens, and its memory. */
  datatype Conn = Conn(toServer: seq<byte>, toClient: seq<byte>, open: bool, zones: Zones)

  // ----- The server -----

  /** A copy or a paste request. */
  predicate Served(req: Msg) {
    (req.Fetch? && req.kind == REQUEST_PASTE) || (req.Data? && req.kind == REQUEST_COPY)
  }

  datatype Reply = Reply(zones: Zones, answer: Msg, err: int)

  /** One request carried out: the memory after it, the answer, and what the last recv returned. */
  function Carry(zones: Zones, req: Msg, now: u32): Reply
    requires Served(req)
  {
    match req
    case Fetch(_, region, count) =>
      var got := if region as int < N_REGIONS then GetZone(zones[region as int], count) else [];
      Reply(zones, Data(RESPONSE_PASTE, region, now, got), FETCH_SIZE - PACKET_SIZE)
    case Data(_, region, _, data) =>
      var o := Offer(region as int, data, now);
      Reply(PutAll(zones, o),
            Fetch(RESPONSE_ACK, region, if Admits(zones, o) then SizeField(|data|) else 0),
            SizeField(|data|))
  }

  /** The bytes put on the stream by `err = MIN(sendData(...), err)`, and the new value of err. */
  function Respond(realMin: bool, answer: seq<byte>, err: int): (seq<byte>, int) {
    if realMin then (answer, Min(|answer|, err))
    else if |answer| > err then (answer, err)
    else (answer + answer, |answer|)
  }

  /**
   * One turn of the server: a copy or paste request taken off its stream and answered, a goodbye, or
   * a byte of no known type.  A wait request is left to ServeTurn.
   */
  function Serve(realMin: bool, c: Conn, now: u32): Conn {
    if !c.open then c
    else
      match AppTurn(c.toServer)
      case Took(req, rest) =>
        if !Served(req) then c
        else
          var rep := Carry(c.zones, req, now);
          var (bytes, err) := Respond(realMin, Encode(rep.answer), rep.err);
          Conn(rest, c.toClient + bytes, err >= 1, rep.zones)
      case PassedOver(rest) => c.(toServer := rest)
      case Ends(rest) => c.(toServer := rest, open := false)
      case Starves => c
  }

  /** The answer to a wait that was handed these bytes, and the new value of err. */
  function Notify(realMin: bool, req: Msg, bytes: seq<byte>, now: u32): (seq<byte>, int)
    requires IsWait(req)
  {
    var got := bytes[..Min(req.count, |bytes|)];
    Respond(realMin, Encode(Data(RESPONSE_NOTIFY, req.region, now, got)),
            if got == [] then 0 else FETCH_SIZE - PACKET_SIZE)
  }

  /** Any turn of the server; `notice` is what mem_wait has for a wait, and None while it does not return. */
  function ServeTurn(realMin: bool, c: Conn, now: u32, notice: Option<seq<byte>>): Conn {
    match AppTurn(c.toServer)
    case Took(req, rest) =>
      if c.open && IsWait(req) && notice.Some? then
        var (bytes, err) := Notify(realMin, req, notice.value, now);
        Conn(rest, c.toClient + bytes, err >= 1, c.zones)
      else Serve(realMin, c, now)
    case _ => Serve(realMin, c, now)
  }

  // ----- The client -----

  /** clipboard_copy up to the point where it waits for the answer. */
  function SendCopy(c: Conn, region: int, data: seq<byte>): Conn
    requires 0 <= region <= 9
  {
    c.(toServer := c.toServer + Encode(Data(REQUEST_COPY, region as byte, 0, data)))
  }

  function SendPaste(c: Conn, region: int, count: nat): Conn
    requires 0 <= region <= 9
  {
    c.(toServer := c.toServer + Encode(Fetch(REQUEST_PASTE, region as byte, SizeField(count))))
  }

  /** The client's read of the acknowledgement: any six bytes will do. */
  function ReadAck(c: Conn): (Conn, int) {
    if |c.toClient| < FETCH_SIZE then (c, 0)
    else (c.(toClient := c.toClient[FETCH_SIZE..]), FetchAt(c.toClient).count)
  }

  /**
   * How many bytes the client throws away behind an answer longer than `count`.  The size it passes to
   * recvData is MIN(dataSize,count) < 1, and the macro makes that `count`.
   */
  function Trash(size: nat, count: nat, ahead: nat): (n: nat)
    ensures n <= ahead
  {
    if size > count then Min(count, ahead) else 0
  }

  /**
   * The client's read of a paste answer: the bytes written from the start of the caller's buffer of
   * `count` bytes, as many as the answer's header says.
   */
  function ReadPaste(c: Conn, count: nat): (Conn, seq<byte>) {
    if |c.toClient| < DATA_SIZE then (c, [])
    else
      var rest := c.(toClient := c.toClient[DATA_SIZE..]);
      var size := SizeAt(c.toClient);
      if c.toClient[0] != RESPONSE_PASTE || ReadsNothing(size) then (rest, [])
      else if |c.toClient| < DATA_SIZE + size then (rest, [])
      else
        var behind := c.toClient[DATA_SIZE + size..];
        (c.(toClient := behind[Trash(size, count, |behind|)..]), c.toClient[DATA_SIZE..DATA_SIZE + size])
  }

  function Copy(realMin: bool, c: Conn, region: int, data: seq<byte>, now: u32): (Conn, int) {
    if region < 0 || region > 9 then (c, 0)
    else ReadAck(Serve(realMin, SendCopy(c, region, data), now))
  }

  function Paste(realMin: bool, c: Conn, region: int, count: nat, now: u32): (Conn, seq<byte>) {
    if region < 0 || region > 9 then (c, [])
    else ReadPaste(Serve(realMin, SendPaste(c, region, count), now), count)
  }

  /** There are bytes, and the zone is empty or has no larger stamp. */
  predicate TakenBy(z: Zone, data: seq<byte>, now: u32) {
    data != [] && (z.data == None || z.stamp <= now)
  }

  /** clipboard_close: the goodbye, and the client's end of the connection is gone. */
  function Close(realMin: bool, c: Conn, now: u32): Conn {
    Serve(realMin, c.(toServer := c.toServer + Encode(Bye)), now).(toClient := [])
  }

  /** The session as an object whose streams and memory change in place. */
  class AppSession {
    const realMin: bool
    var toServer: seq<byte>
    var toClient: seq<byte>
    var listening: bool
    var zones: Zones

    function State(): Conn
      reads this
    {
      Conn(toServer, toClient, listening, zones)
    }

    constructor (realMin: bool, zones: Zones)
      ensures State() == Conn([], [], true, zones) && this.realMin == realMin
    {
      this.realMin := realMin;
      toServer, toClient, listening, this.zones := [], [], true, zones;
    }

    /** One turn of appif_slave. */
    method Turn(now: u32, notice: Option<seq<byte>>)
      modifies this
      ensures State() == ServeTurn(realMin, old(State()), now, notice)
    {
      if !listening {
        return;
      }
      match AppTurn(toServer)
      case Starves =>
      case PassedOver(rest) => toServer := rest;
      case Ends(rest) => toServer, listening := rest, false;
      case Took(req, rest) =>
        if Served(req) {
          Answer(req, rest, now);
        } else if IsWait(req) && notice.Some? {
          var (bytes, err) := Notify(realMin, req, notice.value, now);
          toServer, toClient, listening := rest, toClient + bytes, err >= 1;
        }
    }

    /** The request carried out and answered. */
    method Answer(req: Msg, rest: seq<byte>, now: u32)
      requires Served(req)
      modifies this
      ensures var rep := Carry(old(zones), req, now);
              var (bytes, err) := Respond(realMin, Encode(rep.answer), rep.err);
              State() == Conn(rest, old(toClient) + bytes, err >= 1, rep.zones)
    {
      toServer := rest;
      var rep := Carry(zones, req, now);
      zones := rep.zones;
      var err := rep.err;
      var answer := Encode(rep.answer);
      ghost var before := toClient;
      toClient := toClient + answer;       // sendData
      if realMin {
        err := Min(|answer|, err);
      } else if |answer| <= err {
        toClient := toClient + answer;     // the macro's second evaluation
        assert toClient == before + (answer + answer);
        err := |answer|;
      }
      listening := err >= 1;
    }

    /** On a clean session it returns the size exactly when the memory takes the copy. */
    method ClipboardCopy(region: int, data: seq<byte>, now: u32) returns (n: int)
      modifies this
      ensures (State(), n) == Copy(realMin, old(State()), region, data, now)
      ensures old(Clean(State())) && 0 <= region <= 9 && InRange(|data|) ==>
                && n == (if TakenBy(old(zones)[region], data, now) then |data| else 0)
                && zones == (if TakenBy(old(zones)[region], data, now)
                             then old(zones)[region := Zone(Some(data), |data|, now)] else old(zones))
                && toServer == [] && (listening <==> data != [])
                && (toClient == [] <==> realMin || |data| < FETCH_SIZE)
    {
      if Clean(State()) && 0 <= region <= 9 && InRange(|data|) {
        CopyAlone(realMin, State(), region, data, now);
      }
      if region < 0 || region > 9 {
        return 0;
      }
      toServer := toServer + Encode(Data(REQUEST_COPY, region as byte, 0, data));
      Turn(now, None);
      if |toClient| < FETCH_SIZE {
        return 0;
      }
      n := FetchAt(toClient).count;
      toClient := toClient[FETCH_SIZE..];
    }

    /** On a clean session it hands out the region's leading bytes and changes nothing. */
    method ClipboardPaste(region: int, count: nat, now: u32) returns (bytes: seq<byte>)
      modifies this
      ensures (State(), bytes) == Paste(realMin, old(State()), region, count, now)
      ensures old(Clean(State())) && 0 <= region <= 9 && InRange(count) ==>
                bytes == GetZone(old(zones)[region], count) && |bytes| <= count && State() == old(State())
    {
      if Clean(State()) && 0 <= region <= 9 && InRange(count) {
        PasteAlone(realMin, State(), region, count, now);
      }
      if region < 0 || region > 9 {
        return [];
      }
      toServer := toServer + Encode(Fetch(REQUEST_PASTE, region as byte, SizeField(count)));
      Turn(now, None);
      bytes := TakeAnswer(count);
    }

    /** clipboard_close: on a clean session the server has left its loop afterwards, with nothing left over. */
    method ClipboardClose(now: u32)
      modifies this
      ensures State() == Close(realMin, old(State()), now)
      ensures old(Clean(State())) ==> !listening && toServer == [] && toClient == [] && zones == old(zones)
    {
      if Clean(State()) {
        CloseAlone(realMin, State(), now);
      }
      toServer := toServer + Encode(Bye);
      Turn(now, None);
      toClient := [];
    }

    /** The rest of clipboard_paste, once the request is sent. */
    method TakeAnswer(count: nat) returns (bytes: seq<byte>)
      modifies this`toClient
      ensures (State(), bytes) == ReadPaste(old(State()), count)
    {
      if |toClient| < DATA_SIZE {
        return [];
      }
      var kind, size := toClient[0], SizeAt(toClient);
      if kind != RESPONSE_PASTE || ReadsNothing(size) || |toClient| < DATA_SIZE + size {
        toClient := toClient[DATA_SIZE..];
        return [];
      }
      bytes := toClient[DATA_SIZE..DATA_SIZE + size];
      toClient := toClient[DATA_SIZE + size..];
      if size > count {
        toClient := toClient[Min(count, |toClient|)..];
      }
    }
  }

  // ----- What one request does -----

  /** Nothing is under way and the server listens: the state between two calls. */
  predicate Clean(c: Conn) {
    c.open && c.toServer == [] && c.toClient == []
  }

  /** The server takes exactly the one request under way. */
  lemma ServeTakes(realMin: bool, c: Conn, req: Msg, now: u32)
    requires Served(req) && Request(req) && c.open && c.toServer == Encode(req)
    ensures var rep := Carry(c.zones, req, now);
            var (bytes, err) := Respond(realMin, Encode(rep.answer), rep.err);
            Serve(realMin, c, now) == Conn([], c.toClient + bytes, err >= 1, rep.zones)
  {
    AppTakes(req, []);
    assert Encode(req) + [] == Encode(req);
  }

  lemma EmptyFirst(b: seq<byte>)
    ensures [] + b == b
  {
  }

  lemma FetchSize(m: Msg)
    requires m.Fetch?
    ensures |Encode(m)| == FETCH_SIZE
  {
  }

  lemma RespondAck(realMin: bool, ack: Msg, n: nat)
    requires ack.Fetch?
    ensures Respond(realMin, Encode(ack), n) ==
            (if !realMin && n >= FETCH_SIZE then Encode(ack) + Encode(ack) else Encode(ack), Min(FETCH_SIZE, n))
  {
    FetchSize(ack);
  }

  /** The acknowledgement of a copy. */
  function Ack(zones: Zones, region: int, data: seq<byte>, now: u32): Msg
    requires 0 <= region <= 9 && InRange(|data|)
  {
    Fetch(RESPONSE_ACK, region as byte, if Admits(zones, Offer(region, data, now)) then |data| else 0)
  }

  lemma CarryCopy(zones: Zones, region: int, data: seq<byte>, now: u32)
    requires 0 <= region <= 9 && InRange(|data|)
    ensures Carry(zones, Data(REQUEST_COPY, region as byte, 0, data), now) ==
            Reply(PutAll(zones, Offer(region, data, now)), Ack(zones, region, data, now), |data|)
  {
    assert SizeField(|data|) == |data|;
  }

  /** The acknowledgements a copy of `n` bytes puts on the stream. */
  function Acks(realMin: bool, ack: Msg, n: nat): seq<byte> {
    if !realMin && n >= FETCH_SIZE then Encode(ack) + Encode(ack) else Encode(ack)
  }

  lemma ServeCopy(realMin: bool, c: Conn, region: int, data: seq<byte>, now: u32)
    requires c.open && 0 <= region <= 9 && InRange(|data|)
    requires c.toServer == Encode(Data(REQUEST_COPY, region as byte, 0, data))
    ensures Serve(realMin, c, now) ==
            Conn([], c.toClient + Acks(realMin, Ack(c.zones, region, data, now), |data|), data != [],
                 PutAll(c.zones, Offer(region, data, now)))
  {
    var req := Data(REQUEST_COPY, region as byte, 0, data);
    ServeTakes(realMin, c, req, now);
    CarryCopy(c.zones, region, data, now);
    RespondAck(realMin, Ack(c.zones, region, data, now), |data|);
  }

  lemma AckRead(c: Conn, ack: Msg, tail: seq<byte>)
    requires ack.Fetch? && ack.kind == RESPONSE_ACK && c.toClient == Encode(ack) + tail
    ensures ReadAck(c) == (c.(toClient := tail), ack.count)
  {
    FetchReads(ack, tail);
  }

  /**
   * A copy returns its size when it is taken and 0 otherwise; with the macro a larger one leaves a
   * second answer behind.
   */
  lemma CopyAlone(realMin: bool, c: Conn, region: int, data: seq<byte>, now: u32)
    requires Clean(c) && 0 <= region <= 9 && InRange(|data|)
    ensures var o := Offer(region, data, now);
            var n := if Admits(c.zones, o) then |data| else 0;
            Copy(realMin, c, region, data, now) ==
            (Conn([], if !realMin && |data| >= FETCH_SIZE then Encode(Fetch(RESPONSE_ACK, region as byte, n)) else [],
                  data != [], PutAll(c.zones, o)), n)
  {
    var ack := Ack(c.zones, region, data, now);
    EmptyFirst(Encode(Data(REQUEST_COPY, region as byte, 0, data)));
    ServeCopy(realMin, SendCopy(c, region, data), region, data, now);
    var served := Serve(realMin, SendCopy(c, region, data), now);
    EmptyFirst(Acks(realMin, ack, |data|));
    if !realMin && |data| >= FETCH_SIZE {
      AckRead(served, ack, Encode(ack));
    } else {
      assert Encode(ack) + [] == Encode(ack);
      AckRead(served, ack, []);
    }
  }

  lemma RespondData(realMin: bool, answer: Msg)
    requires answer.Data?
    ensures Respond(realMin, Encode(answer), FETCH_SIZE - PACKET_SIZE) == (Encode(answer), FETCH_SIZE - PACKET_SIZE)
  {
  }

  lemma CarryPaste(zones: Zones, region: int, count: nat, now: u32)
    requires 0 <= region <= 9 && InRange(count)
    ensures Carry(zones, Fetch(REQUEST_PASTE, region as byte, SizeField(count)), now) ==
            Reply(zones, Data(RESPONSE_PASTE, region as byte, now, GetZone(zones[region], count)),
                  FETCH_SIZE - PACKET_SIZE)
  {
    assert SizeField(count) == count;
  }

  lemma ServePaste(realMin: bool, c: Conn, region: int, count: nat, now: u32)
    requires c.open && 0 <= region <= 9 && InRange(count)
    requires c.toServer == Encode(Fetch(REQUEST_PASTE, region as byte, SizeField(count)))
    ensures var answer := Data(RESPONSE_PASTE, region as byte, now, GetZone(c.zones[region], count));
            Serve(realMin, c, now) == c.(toServer := [], toClient := c.toClient + Encode(answer))
  {
    var req := Fetch(REQUEST_PASTE, region as byte, SizeField(count));
    ServeTakes(realMin, c, req, now);
    CarryPaste(c.zones, region, count, now);
    RespondData(realMin, Data(RESPONSE_PASTE, region as byte, now, GetZone(c.zones[region], count)));
  }

  lemma ReadWholeAnswer(c: Conn, region: byte, now: u32, data: seq<byte>, count: nat)
    requires InRange(|data|) && |data| <= count
    requires c.toClient == Encode(Data(RESPONSE_PASTE, region, now, data))
    ensures ReadPaste(c, count) == (c.(toClient := []), data)
  {
    var answer := Data(RESPONSE_PASTE, region, now, data);
    DataReads(answer, []);
    assert Encode(answer) + [] == Encode(answer);
    assert c.toClient[0] == RESPONSE_PASTE;
    if data == [] {
      assert c.toClient[DATA_SIZE..] == [];
    }
  }

  /** On a clean session a paste hands out the region's leading bytes and changes nothing. */
  lemma PasteAlone(realMin: bool, c: Conn, region: int, count: nat, now: u32)
    requires Clean(c) && 0 <= region <= 9 && InRange(count)
    ensures Paste(realMin, c, region, count, now) == (c, GetZone(c.zones[region], count))
  {
    var data := GetZone(c.zones[region], count);
    var answer := Encode(Data(RESPONSE_PASTE, region as byte, now, data));
    EmptyFirst(Encode(Fetch(REQUEST_PASTE, region as byte, SizeField(count))));
    ServePaste(realMin, SendPaste(c, region, count), region, count, now);
    EmptyFirst(answer);
    var served := Serve(realMin, SendPaste(c, region, count), now);
    assert served == c.(toClient := answer);
    ReadWholeAnswer(served, region as byte, now, data, count);
  }

  lemma CloseAlone(realMin: bool, c: Conn, now: u32)
    requires Clean(c)
    ensures Close(realMin, c, now) == Conn([], [], false, c.zones)
    ensures ServeTurn(realMin, c.(toServer := [] + Encode(Bye)), now, None) == Conn([], [], false, c.zones)
  {
    EmptyFirst(Encode(Bye));
    assert Encode(Bye) == [GOODBYE] && [GOODBYE][1..] == [];
  }

  /** With a second acknowledgement in the way the client takes it for the paste's answer. */
  lemma PasteAfterStray(realMin: bool, c: Conn, region: int, count: nat, now: u32, stray: Msg)
    requires c.open && c.toServer == [] && 0 <= region <= 9 && InRange(count)
    requires stray.Fetch? && stray.kind == RESPONSE_ACK && c.toClient == Encode(stray)
    ensures Paste(realMin, c, region, count, now).1 == []
  {
    EmptyFirst(Encode(Fetch(REQUEST_PASTE, region as byte, SizeField(count))));
    ServePaste(realMin, SendPaste(c, region, count), region, count, now);
  }

  /**
   * An answer longer than the caller asked for is written whole, and then as many bytes as were asked
   * for are thrown away from what follows it.
   */
  lemma OversizeAnswer(c: Conn, head: seq<byte>, data: seq<byte>, trash: seq<byte>, behind: seq<byte>)
    requires |head| == 10 && head[0] == 0xC1 && U32Of(head[2..6]) == |data| < INT_LIMIT
    requires |data| > |trash| && c.toClient == head + data + trash + behind
    ensures ReadPaste(c, |trash|) == (c.(toClient := behind), data)
  {
    var s := c.toClient;
    assert s[2..6] == head[2..6];
    assert s[10..10 + |data|] == data;
    assert s[10 + |data|..] == trash + behind;
    assert (trash + behind)[|trash|..] == behind;
  }

  // ----- Copy, then paste -----

  /**
   * After a copy of `data` was taken, and as long as no other put to the region is, a paste of
   * `count` bytes returns the copy's leading bytes exactly when the minimum is a real one, or the
   * copy is shorter than an acknowledgement, or nothing is asked for.
   */
  lemma CopyThenPasteIff(
    realMin: bool, c: Conn, region: int, data: seq<byte>, t1: u32, zones: Zones, count: nat, t2: u32)
    requires Clean(c) && InRange(|data|) && InRange(count)
    requires Copy(realMin, c, region, data, t1).1 > 0
    requires 0 <= region <= 9 && zones[region] == Copy(realMin, c, region, data, t1).0.zones[region]
    ensures Copy(realMin, c, region, data, t1).1 == |data|
    ensures var c' := Copy(realMin, c, region, data, t1).0.(zones := zones);
            Paste(realMin, c', region, count, t2).1 == data[..Min(count, |data|)]
            <==> realMin || |data| < FETCH_SIZE || count == 0
  {
    CopyAlone(realMin, c, region, data, t1);
    var c' := Copy(realMin, c, region, data, t1).0.(zones := zones);
    assert zones[region] == PutZone(data, t1);
    if realMin || |data| < FETCH_SIZE {
      PasteAlone(realMin, c', region, count, t2);
    } else {
      PasteAfterStray(realMin, c', region, count, t2, Fetch(RESPONSE_ACK, region as byte, |data|));
    }
  }

  /** The session goes on after a request exactly as FateOf says, with either minimum. */
  lemma ServeGoesOnIff(realMin: bool, c: Conn, req: Msg, now: u32)
    requires Served(req) && Request(req) && c.open && c.toServer == Encode(req)
    ensures Serve(realMin, c, now).open <==> FateOf([], req).GoesOn?
  {
    ServeTakes(realMin, c, req, now);
    CarryGoesOnIff(c.zones, req, now);
    var rep := Carry(c.zones, req, now);
    RespondGoesOnIff(realMin, Encode(rep.answer), rep.err);
  }

  lemma CarryGoesOnIff(zones: Zones, req: Msg, now: u32)
    requires Served(req) && (req.Data? ==> |req.data| < U32_LIMIT)
    ensures Carry(zones, req, now).err >= 1 <==> FateOf([], req).GoesOn?
  {
    assert req.Data? ==> SizeField(|req.data|) == |req.data|;
  }

  lemma RespondGoesOnIff(realMin: bool, answer: seq<byte>, err: int)
    requires |answer| >= 1
    ensures Respond(realMin, answer, err).1 >= 1 <==> err >= 1
  {
  }

  /** A wait is answered with what mem_wait hands out, at most as much as was asked for. */
  lemma WaitAnswered(realMin: bool, c: Conn, region: byte, count: nat, now: u32, bytes: seq<byte>)
    requires Clean(c) && InRange(count)
    ensures var got := bytes[..Min(count, |bytes|)];
            var req := Fetch(REQUEST_WAIT, region, count);
            ServeTurn(realMin, c.(toServer := Encode(req)), now, Some(bytes)) ==
            c.(toClient := Encode(Data(RESPONSE_NOTIFY, region, now, got)), open := got != [])
  {
    var req := Fetch(REQUEST_WAIT, region, count);
    AppTakes(req, []);
    assert Encode(req) + [] == Encode(req);
    var got := bytes[..Min(count, |bytes|)];
    EmptyFirst(Encode(Data(RESPONSE_NOTIFY, region, now, got)));
  }

  /** And the session goes on after it exactly as FateOf says. */
  lemma WaitGoesOnIff(realMin: bool, c: Conn, region: byte, count: nat, now: u32, bytes: seq<byte>)
    requires Clean(c) && InRange(count)
    ensures var req := Fetch(REQUEST_WAIT, region, count);
            ServeTurn(realMin, c.(toServer := Encode(req)), now, Some(bytes)).open
            <==> FateOf([count > 0 && bytes != []], req).GoesOn?
  {
    WaitAnswered(realMin, c, region, count, now, bytes);
  }

  // ----- Whole sessions -----

  /** What happens to a clipboard during a session: the application's calls, and puts by others. */
  datatype Event =
    | CopyCall(region: int, data: seq<byte>, now: u32)
    | PasteCall(region: int, count: nat, now: u32)
    | CloseCall(now: u32)
    | Elsewhere(offer: Offer)

  datatype Outcome = Copied(n: int) | Pasted(bytes: seq<byte>) | Closed | Unseen

  function Happen(realMin: bool, c: Conn, e: Event): (Conn, Outcome) {
    match e
    case CopyCall(region, data, now) =>
      var (c', n) := Copy(realMin, c, region, data, now);
      (c', Copied(n))
    case PasteCall(region, count, now) =>
      var (c', bytes) := Paste(realMin, c, region, count, now);
      (c', Pasted(bytes))
    case CloseCall(now) => (Close(realMin, c, now), Closed)
    case Elsewhere(o) => (c.(zones := PutAll(c.zones, o)), Unseen)
  }

  /**
   * The same event on the memory itself, with no streams in between.  A goodbye closes the session,
   * and so does a copy of no bytes; after that calls do nothing.
   */
  function Directly(open: bool, zones: Zones, e: Event): (bool, Zones, Outcome) {
    match e
    case CopyCall(region, data, now) =>
      var o := Offer(region, data, now);
      if !open || !(0 <= region < N_REGIONS) then (open, zones, Copied(0))
      else (data != [], PutAll(zones, o), Copied(if Admits(zones, o) then |data| else 0))
    case PasteCall(region, count, _) =>
      (open, zones, Pasted(if open && 0 <= region < N_REGIONS then GetZone(zones[region], count) else []))
    case CloseCall(_) => (false, zones, Closed)
    case Elsewhere(o) => (open, PutAll(zones, o), Unseen)
  }

  function AllHappen(realMin: bool, c: Conn, es: seq<Event>): (r: (Conn, seq<Outcome>))
    ensures |r.1| == |es|
    decreases |es|
  {
    if es == [] then (c, [])
    else
      var (c1, out) := Happen(realMin, c, es[0]);
      var (c2, outs) := AllHappen(realMin, c1, es[1..]);
      (c2, [out] + outs)
  }

  function AllDirectly(open: bool, zones: Zones, es: seq<Event>): (r: (bool, Zones, seq<Outcome>))
    ensures |r.2| == |es|
    decreases |es|
  {
    if es == [] then (open, zones, [])
    else
      var (o1, z1, out) := Directly(open, zones, es[0]);
      var (o2, z2, outs) := AllDirectly(o1, z1, es[1..]);
      (o2, z2, [out] + outs)
  }

  /** Calls within the transfer range, with copies of at most `m` bytes. */
  predicate Sized(m: nat, e: Event) {
    match e
    case CopyCall(_, data, _) => InRange(|data|) && |data| <= m
    case PasteCall(_, count, _) => InRange(count)
    case CloseCall(_) => true
    case Elsewhere(_) => true
  }

  ghost predicate AllSized(m: nat, es: seq<Event>) {
    forall i :: 0 <= i < |es| ==> Sized(m, es[i])
  }

  /** The state between two calls: clean, or closed with nothing left to read. */
  predicate Ready(c: Conn) {
    Clean(c) || (!c.open && c.toClient == [])
  }

  lemma OneEvent(realMin: bool, m: nat, c: Conn, e: Event)
    requires Ready(c) && Sized(m, e) && (realMin || m < FETCH_SIZE)
    ensures var (c', out) := Happen(realMin, c, e);
            Ready(c') && (c'.open, c'.zones, out) == Directly(c.open, c.zones, e)
  {
    match e
    case CopyCall(region, data, now) =>
      if c.open && 0 <= region <= 9 {
        CopyAlone(realMin, c, region, data, now);
      }
    case PasteCall(region, count, now) =>
      if c.open && 0 <= region <= 9 {
        PasteAlone(realMin, c, region, count, now);
      }
    case CloseCall(now) =>
      if c.open {
        CloseAlone(realMin, c, now);
      }
    case Elsewhere(_) =>
  }

  /**
   * A session is the memory: with a real minimum, or with copies below six bytes, any series of
   * copies and pastes over the streams, with others' puts in between, answers as calls on the
   * memory itself would, leaves the same memory, and leaves the streams clean.
   */
  lemma {:induction false} SessionIsMemory(realMin: bool, m: nat, c: Conn, es: seq<Event>)
    requires Ready(c) && AllSized(m, es) && (realMin || m < FETCH_SIZE)
    ensures var (c', outs) := AllHappen(realMin, c, es);
            Ready(c') && (c'.open, c'.zones, outs) == AllDirectly(c.open, c.zones, es)
    decreases |es|
  {
    if es != [] {
      OneEvent(realMin, m, c, es[0]);
      SessionIsMemory(realMin, m, Happen(realMin, c, es[0]).0, es[1..]);
    }
  }

  // ----- Exactly when a session is the memory, and when a paste stays within the caller's buffer -----

  ghost predicate AlwaysLikeMemory(realMin: bool, m: nat) {
    forall c, es :: Clean(c) && AllSized(m, es) ==>
      AllHappen(realMin, c, es).1 == AllDirectly(true, c.zones, es).2
  }

  predicate WithinCount(e: Event, out: Outcome) {
    e.PasteCall? && out.Pasted? ==> |out.bytes| <= e.count
  }

  ghost predicate AllWithin(es: seq<Event>, outs: seq<Outcome>)
    requires |es| == |outs|
  {
    forall i :: 0 <= i < |es| ==> WithinCount(es[i], outs[i])
  }

  /** No paste of such a session ever hands out more bytes than the caller's buffer holds. */
  ghost predicate NeverOverfills(realMin: bool, m: nat) {
    forall c, es :: Clean(c) && AllSized(m, es) ==> AllWithin(es, AllHappen(realMin, c, es).1)
  }

  lemma {:induction false} DirectlyWithin(open: bool, zones: Zones, es: seq<Event>)
    ensures AllWithin(es, AllDirectly(open, zones, es).2)
    decreases |es|
  {
    if es != [] {
      var (o1, z1, out) := Directly(open, zones, es[0]);
      DirectlyWithin(o1, z1, es[1..]);
      var outs := AllDirectly(o1, z1, es[1..]).2;
      forall i | 0 <= i < |es|
        ensures WithinCount(es[i], ([out] + outs)[i])
      {
        if i > 0 {
          assert WithinCount(es[1..][i - 1], outs[i - 1]);
        }
      }
    }
  }

  const FRESH := Conn([], [], true, EmptyZones())

  /** Six bytes that look like the head of an answer of two bytes. */
  const LOOKALIKE: seq<byte> := [RESPONSE_PASTE, 0, 2, 0, 0, 0]

  /** What the copy of them leaves behind. */
  lemma First(c: Conn, data: seq<byte>, now: u32)
    requires Clean(c) && c.zones[0] == EMPTY_ZONE && |data| == 6
    ensures Copy(false, c, 0, data, now).0 ==
            Conn([], [RESPONSE_ACK, 0, 6, 0, 0, 0], true, PutAll(c.zones, Offer(0, data, now)))
  {
    CopyAlone(false, c, 0, data, now);
    SixBytes();
  }

  lemma SixBytes()
    ensures Encode(Fetch(RESPONSE_ACK, 0, 6)) == [RESPONSE_ACK, 0, 6, 0, 0, 0]
  {
  }

  /** The paste after it takes the stray acknowledgement and four bytes more, and gives up. */
  lemma Second(c: Conn, data: seq<byte>, stamp: u32, now: u32)
    requires c.open && c.toServer == [] && c.toClient == [RESPONSE_ACK, 0, 6, 0, 0, 0]
    requires |data| == 6 && c.zones[0] == PutZone(data, stamp)
    ensures Paste(false, c, 0, 6, now).0 == c.(toClient := [0, 0] + U32Bytes(now) + data)
  {
    EmptyFirst(Encode(Fetch(REQUEST_PASTE, 0, SizeField(6))));
    ServePaste(false, SendPaste(c, 0, 6), 0, 6, now);
    assert GetZone(c.zones[0], 6) == data;
    SixByteAnswer(data, now);
    ReadStray(Serve(false, SendPaste(c, 0, 6), now), c.toClient, U32Bytes(now), data);
  }

  lemma SixByteAnswer(data: seq<byte>, now: u32)
    requires |data| == 6
    ensures Encode(Data(RESPONSE_PASTE, 0, now, data)) == [RESPONSE_PASTE, 0, 6, 0, 0, 0] + U32Bytes(now) + data
  {
  }

  lemma ReadStray(c: Conn, stray: seq<byte>, stamp: seq<byte>, data: seq<byte>)
    requires |stray| == 6 && stray[0] == RESPONSE_ACK && |stamp| == 4
    requires c.toClient == stray + ([RESPONSE_PASTE, 0, 6, 0, 0, 0] + stamp + data)
    ensures ReadPaste(c, 6).0 == c.(toClient := [0, 0] + stamp + data)
  {
    assert c.toClient[0] == RESPONSE_ACK;
    assert c.toClient[DATA_SIZE..] == [0, 0] + stamp + data;
  }

  /** A one-byte copy to another region then leaves the lookalike in front. */
  lemma Third(c: Conn, six: seq<byte>, data: seq<byte>, now: u32)
    requires c.open && c.toServer == [] && |six| == 6 && c.toClient == six + data
    requires c.zones[1] == EMPTY_ZONE
    ensures Copy(false, c, 1, [9], now).0 ==
            Conn([], data + [RESPONSE_ACK, 1, 1, 0, 0, 0], true, PutAll(c.zones, Offer(1, [9], now)))
  {
    EmptyFirst(Encode(Data(REQUEST_COPY, 1, 0, [9])));
    ServeCopy(false, SendCopy(c, 1, [9]), 1, [9], now);
    OneByteAck(c.zones, now);
    ReadSix(Serve(false, SendCopy(c, 1, [9]), now), six, data, [RESPONSE_ACK, 1, 1, 0, 0, 0]);
  }

  lemma OneByteAck(zones: Zones, now: u32)
    requires zones[1] == EMPTY_ZONE
    ensures Acks(false, Ack(zones, 1, [9], now), 1) == [RESPONSE_ACK, 1, 1, 0, 0, 0]
  {
  }

  lemma ReadSix(c: Conn, six: seq<byte>, data: seq<byte>, ack: seq<byte>)
    requires |six| == 6 && c.toClient == six + data + ack
    ensures ReadAck(c).0 == c.(toClient := data + ack)
  {
    assert c.toClient[FETCH_SIZE..] == data + ack;
  }

  /** And a paste of one byte hands out two. */
  lemma Fourth(c: Conn, stamp: u32, now: u32)
    requires c.open && c.toServer == [] && c.toClient == LOOKALIKE + [RESPONSE_ACK, 1, 1, 0, 0, 0]
    requires c.zones[1] == PutZone([9], stamp)
    ensures |Paste(false, c, 1, 1, now).1| == 2
  {
    EmptyFirst(Encode(Fetch(REQUEST_PASTE, 1, SizeField(1))));
    ServePaste(false, SendPaste(c, 1, 1), 1, 1, now);
    assert [9 as byte][..1] == [9];
    var answer := Encode(Data(RESPONSE_PASTE, 1, now, [9]));
    assert |answer| == 11;
    ReadTwo(Serve(false, SendPaste(c, 1, 1), now), answer);
  }

  lemma ReadTwo(c: Conn, answer: seq<byte>)
    requires c.toClient == LOOKALIKE + [RESPONSE_ACK, 1, 1, 0, 0, 0] + answer
    ensures |ReadPaste(c, 1).1| == 2
  {
    assert c.toClient[2..6] == [2, 0, 0, 0];
    assert SizeAt(c.toClient) == 2;
  }

  /** Two copies and two pastes, at any network times. */
  function Overfilling(t1: u32, t2: u32, t3: u32, t4: u32): seq<Event> {
    [CopyCall(0, LOOKALIKE, t1), PasteCall(0, 6, t2), CopyCall(1, [9], t3), PasteCall(1, 1, t4)]
  }

  lemma TwoMore(realMin: bool, c: Conn, es: seq<Event>)
    requires |es| >= 2
    ensures var c2 := Happen(realMin, Happen(realMin, c, es[0]).0, es[1]).0;
            AllHappen(realMin, c, es).1[2..] == AllHappen(realMin, c2, es[2..]).1
  {
    assert es[1..][1..] == es[2..];
  }

  /** The last outcome of four events. */
  lemma FourthOutcome(realMin: bool, c: Conn, es: seq<Event>)
    requires |es| == 4
    ensures var c2 := Happen(realMin, Happen(realMin, c, es[0]).0, es[1]).0;
            AllHappen(realMin, c, es).1[3] == Happen(realMin, Happen(realMin, c2, es[2]).0, es[3]).1
  {
    TwoMore(realMin, c, es);
    var c2 := Happen(realMin, Happen(realMin, c, es[0]).0, es[1]).0;
    assert AllHappen(realMin, c, es).1[3] == AllHappen(realMin, c2, es[2..]).1[1];
    assert es[2..][1..][0] == es[3];
  }

  lemma FirstTwo(c: Conn, t1: u32, t2: u32)
    requires Clean(c) && c.zones[0] == EMPTY_ZONE && c.zones[1] == EMPTY_ZONE
    ensures var c2 := Paste(false, Copy(false, c, 0, LOOKALIKE, t1).0, 0, 6, t2).0;
            && c2.open && c2.toServer == [] && c2.toClient == [0, 0] + U32Bytes(t2) + LOOKALIKE
            && c2.zones[1] == EMPTY_ZONE
  {
    First(c, LOOKALIKE, t1);
    Second(Copy(false, c, 0, LOOKALIKE, t1).0, LOOKALIKE, t1, t2);
  }

  lemma LastTwo(c: Conn, six: seq<byte>, t3: u32, t4: u32)
    requires c.open && c.toServer == [] && |six| == 6 && c.toClient == six + LOOKALIKE
    requires c.zones[1] == EMPTY_ZONE
    ensures |Paste(false, Copy(false, c, 1, [9], t3).0, 1, 1, t4).1| == 2
  {
    Third(c, six, LOOKALIKE, t3);
    Fourth(Copy(false, c, 1, [9], t3).0, t3, t4);
  }

  lemma AllFour(c: Conn, t1: u32, t2: u32, t3: u32, t4: u32)
    requires Clean(c) && c.zones[0] == EMPTY_ZONE && c.zones[1] == EMPTY_ZONE
    ensures var c2 := Paste(false, Copy(false, c, 0, LOOKALIKE, t1).0, 0, 6, t2).0;
            |Paste(false, Copy(false, c2, 1, [9], t3).0, 1, 1, t4).1| == 2
  {
    FirstTwo(c, t1, t2);
    LastTwo(Paste(false, Copy(false, c, 0, LOOKALIKE, t1).0, 0, 6, t2).0, [0, 0] + U32Bytes(t2), t3, t4);
  }

  /**
   * With the macro, from any clean session whose first two regions are empty and at any times, a copy
   * of six bytes is enough to make a later paste of one byte hand out two.
   */
  lemma OverfillingRun(c: Conn, t1: u32, t2: u32, t3: u32, t4: u32)
    requires Clean(c) && c.zones[0] == EMPTY_ZONE && c.zones[1] == EMPTY_ZONE
    ensures var outs := AllHappen(false, c, Overfilling(t1, t2, t3, t4)).1;
            outs[3].Pasted? && |outs[3].bytes| == 2
  {
    AllFour(c, t1, t2, t3, t4);
    FourthOutcome(false, c, Overfilling(t1, t2, t3, t4));
  }

  lemma OverfillingSized(m: nat, t1: u32, t2: u32, t3: u32, t4: u32)
    requires m >= FETCH_SIZE
    ensures AllSized(m, Overfilling(t1, t2, t3, t4))
  {
  }

  /**
   * Every paste stays within the caller's buffer, so that the client's oversize branch is dead, if and
   * only if the minimum is a real one or copies are below six bytes.
   */
  lemma NeverOverfillsIff(realMin: bool, m: nat)
    ensures NeverOverfills(realMin, m) <==> realMin || m < FETCH_SIZE
  {
    if realMin || m < FETCH_SIZE {
      forall c, es | Clean(c) && AllSized(m, es)
        ensures AllWithin(es, AllHappen(realMin, c, es).1)
      {
        SessionIsMemory(realMin, m, c, es);
        DirectlyWithin(true, c.zones, es);
      }
    } else {
      var es := Overfilling(0, 0, 0, 0);
      OverfillingRun(FRESH, 0, 0, 0, 0);
      OverfillingSized(m, 0, 0, 0, 0);
      assert !WithinCount(es[3], AllHappen(false, FRESH, es).1[3]);
    }
  }

  /** And if and only if so, every session answers as the memory itself would. */
  lemma LikeMemoryIff(realMin: bool, m: nat)
    ensures AlwaysLikeMemory(realMin, m) <==> realMin || m < FETCH_SIZE
  {
    if realMin || m < FETCH_SIZE {
      forall c, es | Clean(c) && AllSized(m, es)
        ensures AllHappen(realMin, c, es).1 == AllDirectly(true, c.zones, es).2
      {
        SessionIsMemory(realMin, m, c, es);
      }
    } else {
      var es := Overfilling(0, 0, 0, 0);
      OverfillingRun(FRESH, 0, 0, 0, 0);
      OverfillingSized(m, 0, 0, 0, 0);
      DirectlyWithin(true, FRESH.zones, es);
      assert !WithinCount(es[3], AllHappen(false, FRESH, es).1[3]);
    }
  }
}
