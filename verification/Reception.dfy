/**
 * The slaves' reads through recvData: first the type, then the rest of the packet, then the data
 * (src/interfaces/clipif.c:186-287, src/interfaces/appif.c:95-204, src/utils/packet.c:22-32).  With
 * complete recvs they make the turns of module Wire; a short one puts a slave out of frame.
 */
module Reception {
  import opened Common
  import opened Transfer
  import opened Wire

  /** What a turn's reads hand out, the last return value, what is still to come, the plan. */
  datatype Heard = Heard(msg: Option<Msg>, err: int, rest: seq<byte>, plan: seq<int>)

  /** recvData into a fresh buffer. */
  function Hear(incoming: seq<byte>, plan: seq<int>, size: nat): (r: Received)
    ensures |r.buf| == size
  {
    BufferKept(incoming, plan, Zeros(size), size, 0);
    RecvLoop(incoming, plan, Zeros(size), size, 0)
  }

  lemma {:induction false} BufferKept(incoming: seq<byte>, plan: seq<int>, buf: seq<byte>, size: nat, got: nat)
    requires size <= |buf|
    ensures |RecvLoop(incoming, plan, buf, size, got).buf| == |buf|
    decreases size - got
  {
    if got < size && !Fails(plan) {
      var r := Min(Min(plan[0], size), |incoming|);
      if r >= 1 {
        BufferKept(incoming[r..], plan[1..], incoming[..r] + buf[r..], size, got + r);
      }
    }
  }

  method Receive(sock: Socket, size: nat) returns (ret: int, bytes: seq<byte>)
    modifies sock`incoming, sock`plan
    ensures Hear(old(sock.incoming), old(sock.plan), size) == Received(ret, bytes, sock.incoming, sock.plan)
  {
    var buf := new byte[size](_ => 0);
    assert buf[..] == Zeros(size);
    ret := RecvData(sock, buf, size);
    bytes := buf[..];
  }

  // ----- A clipboard's slave -----

  function HearSync(incoming: seq<byte>, plan: seq<int>): Heard {
    var r := Hear(incoming, plan, SYNC_SIZE - PACKET_SIZE);
    Heard(if r.ret == SYNC_SIZE - PACKET_SIZE then Some(Sync(U32Of(r.buf))) else None, r.ret, r.rest, r.plan)
  }

  /** The rest of a packet_data behind its type byte, and its data. */
  function HearData(kind: byte, incoming: seq<byte>, plan: seq<int>): Heard {
    var h := Hear(incoming, plan, DATA_SIZE - PACKET_SIZE);
    if h.ret != DATA_SIZE - PACKET_SIZE then Heard(None, h.ret, h.rest, h.plan)
    else
      var size := U32Of(h.buf[1..5]);
      if size >= INT_LIMIT then Heard(None, 0, h.rest, h.plan)  // recvData's size is negative
      else
        var d := Hear(h.rest, h.plan, size);
        Heard(if d.ret == size then Some(Data(kind, h.buf[0], U32Of(h.buf[5..9]), d.buf)) else None,
              d.ret, d.rest, d.plan)
  }

  /** One turn of clipif_slave. */
  function ClipHears(withParent: bool, incoming: seq<byte>, plan: seq<int>): Heard {
    var t := Hear(incoming, plan, PACKET_SIZE);
    if t.ret != PACKET_SIZE then Heard(None, t.ret, t.rest, t.plan)
    else if t.buf[0] == TIME_SYNC then
      if withParent then HearSync(t.rest, t.plan) else Heard(None, t.ret, t.rest, t.plan)
    else if t.buf[0] == REQUEST_COPY then HearData(REQUEST_COPY, t.rest, t.plan)
    else Heard(None, 0, t.rest, t.plan)
  }

  method ReadData(sock: Socket, kind: byte) returns (msg: Option<Msg>, err: int)
    modifies sock`incoming, sock`plan
    ensures Heard(msg, err, sock.incoming, sock.plan) == HearData(kind, old(sock.incoming), old(sock.plan))
  {
    msg := None;
    var head;
    err, head := Receive(sock, DATA_SIZE - PACKET_SIZE);
    if err != DATA_SIZE - PACKET_SIZE {
      return;
    }
    var size := U32Of(head[1..5]);
    if size >= INT_LIMIT {
      err := 0;
      return;
    }
    var data;
    err, data := Receive(sock, size);
    if err == size {
      msg := Some(Data(kind, head[0], U32Of(head[5..9]), data));
    }
  }

  method ClipSlaveTurn(sock: Socket, withParent: bool) returns (msg: Option<Msg>, err: int)
    modifies sock`incoming, sock`plan
    ensures Heard(msg, err, sock.incoming, sock.plan) == ClipHears(withParent, old(sock.incoming), old(sock.plan))
  {
    msg := None;
    var kind;
    err, kind := Receive(sock, PACKET_SIZE);
    if err != PACKET_SIZE {
      return;
    }
    if kind[0] == TIME_SYNC {
      if withParent {
        var time;
        err, time := Receive(sock, SYNC_SIZE - PACKET_SIZE);
        if err == SYNC_SIZE - PACKET_SIZE {
          msg := Some(Sync(U32Of(time)));
        }
      }
    } else if kind[0] == REQUEST_COPY {
      msg, err := ReadData(sock, REQUEST_COPY);
    } else {
      err := 0;
    }
  }

  // ----- An application's slave -----

  function HearFetch(kind: byte, incoming: seq<byte>, plan: seq<int>): Heard {
    var r := Hear(incoming, plan, FETCH_SIZE - PACKET_SIZE);
    Heard(if r.ret == FETCH_SIZE - PACKET_SIZE then Some(Fetch(kind, r.buf[0], U32Of(r.buf[1..5]))) else None,
          r.ret, r.rest, r.plan)
  }

  /** The reads of one turn of appif_slave. */
  function AppHears(incoming: seq<byte>, plan: seq<int>): Heard {
    var t := Hear(incoming, plan, PACKET_SIZE);
    if t.ret != PACKET_SIZE then Heard(None, t.ret, t.rest, t.plan)
    else if t.buf[0] == REQUEST_PASTE || t.buf[0] == REQUEST_WAIT then HearFetch(t.buf[0], t.rest, t.plan)
    else if t.buf[0] == REQUEST_COPY then HearData(REQUEST_COPY, t.rest, t.plan)
    else Heard(None, if t.buf[0] == GOODBYE then 0 else t.ret, t.rest, t.plan)
  }

  method AppSlaveTurn(sock: Socket) returns (msg: Option<Msg>, err: int)
    modifies sock`incoming, sock`plan
    ensures Heard(msg, err, sock.incoming, sock.plan) == AppHears(old(sock.incoming), old(sock.plan))
  {
    msg := None;
    var kind;
    err, kind := Receive(sock, PACKET_SIZE);
    if err != PACKET_SIZE {
      return;
    }
    if kind[0] == REQUEST_PASTE || kind[0] == REQUEST_WAIT {
      var head;
      err, head := Receive(sock, FETCH_SIZE - PACKET_SIZE);
      if err == FETCH_SIZE - PACKET_SIZE {
        msg := Some(Fetch(kind[0], head[0], U32Of(head[1..5])));
      }
    } else if kind[0] == REQUEST_COPY {
      msg, err := ReadData(sock, REQUEST_COPY);
    } else if kind[0] == GOODBYE {
      err := 0;
    }
  }

  // ----- Complete recvs -----

  /** The next `calls` recvs hand out everything asked for that is ever going to arrive. */
  ghost predicate Complete(plan: seq<int>, calls: nat, incoming: seq<byte>) {
    |plan| >= calls && forall i :: 0 <= i < calls ==> plan[i] >= 1 && plan[i] >= |incoming|
  }

  lemma WholeRecv(incoming: seq<byte>, plan: seq<int>, size: nat)
    requires 0 < size <= |incoming| && plan != [] && plan[0] >= size
    ensures Hear(incoming, plan, size) == Received(size, incoming[..size], incoming[size..], plan[1..])
  {
    var buf := Zeros(size);
    assert incoming[..size] + buf[size..] == incoming[..size];
    assert RecvLoop(incoming, plan, buf, size, 0) ==
           RecvLoop(incoming[size..], plan[1..], incoming[..size], size, size);
  }

  lemma LastRecv(incoming: seq<byte>, plan: seq<int>, size: nat)
    requires |incoming| < size && Complete(plan, 2, incoming)
    ensures Hear(incoming, plan, size).ret == 0 && Hear(incoming, plan, size).rest == []
  {
    var buf, n := Zeros(size), |incoming|;
    if n > 0 {
      assert incoming[n..] == [] && plan[1..][0] == plan[1];
      assert RecvLoop(incoming, plan, buf, size, 0) ==
             RecvLoop([], plan[1..], incoming[..n] + buf[n..], size, n);
    }
  }

  /** A complete recvData: everything asked for, or the connection's end and nothing left. */
  lemma HearComplete(incoming: seq<byte>, plan: seq<int>, size: nat, calls: nat)
    requires Complete(plan, calls, incoming) && calls >= 2
    ensures var r := Hear(incoming, plan, size);
            if size <= |incoming| then
              && r.ret == size && r.buf == incoming[..size] && r.rest == incoming[size..]
              && Complete(r.plan, calls - 1, r.rest)
            else r.ret == 0 && r.rest == []
  {
    if size > |incoming| {
      LastRecv(incoming, plan, size);
    } else if size > 0 {
      assert plan[0] >= |incoming|;
      WholeRecv(incoming, plan, size);
    } else {
      assert incoming[..0] == [] && incoming[0..] == incoming;
    }
  }

  /** A turn's reads agree with a turn on the bytes that will arrive, and leave `calls` complete recvs. */
  ghost predicate Agrees(t: Turn, h: Heard, calls: nat) {
    match t
    case Took(m, rest) =>
      && h.msg == Some(m) && h.rest == rest && (h.err >= 1 || (m.Data? && m.data == []))
      && Complete(h.plan, calls, rest)
    case PassedOver(rest) => h.msg.None? && h.rest == rest && h.err >= 1 && Complete(h.plan, calls, rest)
    case Ends(rest) => h.err == 0 && h.rest == rest
    case Starves => h.msg.None? && h.err == 0
  }

  /** The parts of a packet_data's head behind the type byte. */
  lemma HeadParts(s: seq<byte>)
    requires |s| >= DATA_SIZE
    ensures s[1..][..9] == s[1..10] && s[1..][9..] == s[10..]
    ensures s[1..10][0] == s[1] && s[1..10][1..5] == s[2..6] && s[1..10][5..9] == s[6..10]
  {
  }

  lemma HeadComplete(s: seq<byte>, plan: seq<int>, calls: nat)
    requires s != [] && Complete(plan, calls, s[1..]) && calls >= 2
    ensures var h := Hear(s[1..], plan, DATA_SIZE - PACKET_SIZE);
            if |s| < DATA_SIZE then h.ret == 0
            else h.ret == 9 && h.buf == s[1..10] && h.rest == s[10..] && Complete(h.plan, calls - 1, s[10..])
  {
    HearComplete(s[1..], plan, DATA_SIZE - PACKET_SIZE, calls);
    if |s| >= DATA_SIZE {
      HeadParts(s);
    }
  }

  lemma BodyComplete(s: seq<byte>, plan: seq<int>, size: nat, calls: nat)
    requires |s| >= DATA_SIZE && Complete(plan, calls, s[10..]) && calls >= 2
    ensures var d := Hear(s[10..], plan, size);
            if |s| < DATA_SIZE + size then d.ret == 0
            else d.ret == size && d.buf == s[10..10 + size] && d.rest == s[10 + size..]
                 && Complete(d.plan, calls - 1, s[10 + size..])
  {
    HearComplete(s[10..], plan, size, calls);
    if |s| >= DATA_SIZE + size {
      assert s[10..][..size] == s[10..10 + size] && s[10..][size..] == s[10 + size..];
    }
  }

  lemma DataComplete(s: seq<byte>, plan: seq<int>, calls: nat)
    requires s != [] && Complete(plan, calls, s[1..]) && calls >= 3
    ensures var h := HearData(s[0], s[1..], plan);
            if |s| < DATA_SIZE then h.msg.None? && h.err == 0
            else if SizeAt(s) >= INT_LIMIT then h.err == 0 && h.rest == s[DATA_SIZE..]
            else if |s| < DATA_SIZE + SizeAt(s) then h.msg.None? && h.err == 0
            else
              && h == Heard(Some(DataAt(s)), SizeAt(s), s[DATA_SIZE + SizeAt(s)..], h.plan)
              && Complete(h.plan, calls - 2, s[DATA_SIZE + SizeAt(s)..])
  {
    HeadComplete(s, plan, calls);
    if |s| >= DATA_SIZE {
      HeadParts(s);
      var h := Hear(s[1..], plan, DATA_SIZE - PACKET_SIZE);
      assert U32Of(h.buf[1..5]) == SizeAt(s);
      if SizeAt(s) < INT_LIMIT {
        BodyComplete(s, h.plan, SizeAt(s), calls - 1);
      }
    }
  }

  lemma TypeComplete(s: seq<byte>, plan: seq<int>, calls: nat)
    requires Complete(plan, calls, s) && calls >= 2
    ensures var t := Hear(s, plan, PACKET_SIZE);
            if s == [] then t.ret == 0 && t.rest == []
            else t.ret == PACKET_SIZE && t.buf == [s[0]] && t.rest == s[1..] && Complete(t.plan, calls - 1, s[1..])
  {
    HearComplete(s, plan, PACKET_SIZE, calls);
  }

  lemma SyncComplete(s: seq<byte>, plan: seq<int>, calls: nat)
    requires s != [] && Complete(plan, calls, s[1..]) && calls >= 2
    ensures var h := HearSync(s[1..], plan);
            if |s| < SYNC_SIZE then h.msg.None? && h.err == 0
            else h == Heard(Some(Sync(U32Of(s[1..5]))), 4, s[5..], h.plan) && Complete(h.plan, calls - 1, s[5..])
  {
    HearComplete(s[1..], plan, SYNC_SIZE - PACKET_SIZE, calls);
    if |s| >= SYNC_SIZE {
      assert s[1..][..4] == s[1..5] && s[1..][4..] == s[5..];
    }
  }

  lemma FetchComplete(s: seq<byte>, plan: seq<int>, calls: nat)
    requires s != [] && Complete(plan, calls, s[1..]) && calls >= 2
    ensures var h := HearFetch(s[0], s[1..], plan);
            if |s| < FETCH_SIZE then h.msg.None? && h.err == 0
            else h == Heard(Some(FetchAt(s)), 5, s[6..], h.plan) && Complete(h.plan, calls - 1, s[6..])
  {
    HearComplete(s[1..], plan, FETCH_SIZE - PACKET_SIZE, calls);
    if |s| >= FETCH_SIZE {
      assert s[1..][..5] == s[1..6] && s[1..][5..] == s[6..];
      assert s[1..6][1..5] == s[2..6];
    }
  }

  lemma FewerCalls(plan: seq<int>, calls: nat, fewer: nat, s: seq<byte>)
    requires Complete(plan, calls, s) && fewer <= calls
    ensures Complete(plan, fewer, s)
  {
  }

  /**
   * With complete recvs a clipboard's slave makes exactly the turns of ClipTurn; when the link's bytes
   * end inside a packet it hands out nothing and its session ends with the connection.
   */
  lemma ClipHearsTurn(withParent: bool, s: seq<byte>, plan: seq<int>, calls: nat)
    requires Complete(plan, calls, s) && calls >= 4
    ensures Agrees(ClipTurn(withParent, s), ClipHears(withParent, s, plan), calls - 3)
  {
    TypeComplete(s, plan, calls);
    if s != [] {
      var t := Hear(s, plan, PACKET_SIZE);
      if s[0] == TIME_SYNC && withParent {
        SyncComplete(s, t.plan, calls - 1);
      } else if s[0] == REQUEST_COPY {
        DataComplete(s, t.plan, calls - 1);
      }
    }
  }

  /** The same for an application's slave. */
  lemma AppHearsTurn(s: seq<byte>, plan: seq<int>, calls: nat)
    requires Complete(plan, calls, s) && calls >= 4
    ensures Agrees(AppTurn(s), AppHears(s, plan), calls - 3)
  {
    TypeComplete(s, plan, calls);
    if s != [] {
      var t := Hear(s, plan, PACKET_SIZE);
      if s[0] == REQUEST_PASTE || s[0] == REQUEST_WAIT {
        FetchComplete(s, t.plan, calls - 1);
      } else if s[0] == REQUEST_COPY {
        DataComplete(s, t.plan, calls - 1);
      }
    }
  }

  // ----- Turn after turn -----

  /** The messages a clipboard's slave takes until its loop ends, and the bytes it leaves. */
  function HearAll(withParent: bool, s: seq<byte>, plan: seq<int>): (seq<Msg>, seq<byte>, seq<int>)
    decreases |s|
  {
    HearsShorter(withParent, s, plan);
    var h := ClipHears(withParent, s, plan);
    if h.err < 1 then ([], h.rest, h.plan)
    else
      var (ms, rest, plan') := HearAll(withParent, h.rest, h.plan);
      ((if h.msg.Some? then [h.msg.value] else []) + ms, rest, plan')
  }

  function Behind(ms: seq<Msg>, more: (seq<Msg>, seq<byte>, seq<int>)): (seq<Msg>, seq<byte>, seq<int>) {
    (ms + more.0, more.1, more.2)
  }

  lemma BehindNothing(more: (seq<Msg>, seq<byte>, seq<int>))
    ensures Behind([], more) == more
  {
    assert [] + more.0 == more.0;
  }

  lemma BehindOne(ms: seq<Msg>, msg: Option<Msg>, more: (seq<Msg>, seq<byte>, seq<int>))
    ensures var one := if msg.Some? then [msg.value] else [];
            Behind(ms + one, more) == Behind(ms, Behind(one, more))
  {
    var one := if msg.Some? then [msg.value] else [];
    assert ms + one + more.0 == ms + (one + more.0);
  }

  lemma BehindEnd(ms: seq<Msg>, rest: seq<byte>, plan: seq<int>)
    ensures Behind(ms, ([], rest, plan)) == (ms, rest, plan)
  {
    assert ms + [] == ms;
  }

  /** The loop of clipif_slave. */
  method ClipSlave(sock: Socket, withParent: bool) returns (ms: seq<Msg>)
    modifies sock`incoming, sock`plan
    ensures (ms, sock.incoming, sock.plan) == HearAll(withParent, old(sock.incoming), old(sock.plan))
  {
    ms := [];
    BehindNothing(HearAll(withParent, sock.incoming, sock.plan));
    while true
      invariant HearAll(withParent, old(sock.incoming), old(sock.plan)) ==
                Behind(ms, HearAll(withParent, sock.incoming, sock.plan))
      decreases |sock.incoming|
    {
      HearsShorter(withParent, sock.incoming, sock.plan);
      var msg, err := ClipSlaveTurn(sock, withParent);
      if err < 1 {
        BehindEnd(ms, sock.incoming, sock.plan);
        return;
      }
      BehindOne(ms, msg, HearAll(withParent, sock.incoming, sock.plan));
      if msg.Some? {
        ms := ms + [msg.value];
      } else {
        assert ms + [] == ms;
      }
    }
  }

  lemma {:induction false} LoopShorter(incoming: seq<byte>, plan: seq<int>, buf: seq<byte>, size: nat, got: nat)
    requires size <= |buf|
    ensures var r := RecvLoop(incoming, plan, buf, size, got);
            |r.rest| <= |incoming| && (r.ret >= 1 && got < size ==> |r.rest| < |incoming|)
    decreases size - got
  {
    if got < size && !Fails(plan) {
      var r := Min(Min(plan[0], size), |incoming|);
      if r >= 1 {
        LoopShorter(incoming[r..], plan[1..], incoming[..r] + buf[r..], size, got + r);
      }
    }
  }

  lemma HearShorter(s: seq<byte>, plan: seq<int>, size: nat)
    ensures |Hear(s, plan, size).rest| <= |s|
    ensures Hear(s, plan, size).ret >= 1 && size > 0 ==> |Hear(s, plan, size).rest| < |s|
  {
    LoopShorter(s, plan, Zeros(size), size, 0);
  }

  lemma DataShorter(kind: byte, s: seq<byte>, plan: seq<int>)
    ensures |HearData(kind, s, plan).rest| <= |s|
  {
    HearShorter(s, plan, DATA_SIZE - PACKET_SIZE);
    var h := Hear(s, plan, DATA_SIZE - PACKET_SIZE);
    HearShorter(h.rest, h.plan, U32Of(h.buf[1..5]));
  }

  /** A turn after which the loop goes on has taken something off the stream. */
  lemma HearsShorter(withParent: bool, s: seq<byte>, plan: seq<int>)
    ensures ClipHears(withParent, s, plan).err >= 1 ==> |ClipHears(withParent, s, plan).rest| < |s|
  {
    var t := Hear(s, plan, PACKET_SIZE);
    HearShorter(s, plan, PACKET_SIZE);
    HearShorter(t.rest, t.plan, SYNC_SIZE - PACKET_SIZE);
    DataShorter(REQUEST_COPY, t.rest, t.plan);
  }

  /**
   * With complete recvs a clipboard's slave, turn after turn, takes exactly the messages ClipSession
   * does, and leaves what it leaves when the session ends before the connection does.
   */
  lemma {:induction false} ClipHearsSession(withParent: bool, s: seq<byte>, plan: seq<int>, calls: nat)
    requires Complete(plan, calls, s) && calls >= 3 * |s| + 4
    ensures HearAll(withParent, s, plan).0 == ClipSession(withParent, s).0
    ensures ClipSession(withParent, s).1 ==> HearAll(withParent, s, plan).1 == ClipSession(withParent, s).2
    decreases |s|
  {
    ClipHearsTurn(withParent, s, plan, calls);
    var h := ClipHears(withParent, s, plan);
    match ClipTurn(withParent, s)
    case Took(m, rest) =>
      TakenHasData(withParent, s);
      ClipHearsSession(withParent, rest, h.plan, calls - 3);
    case PassedOver(rest) =>
      ClipHearsSession(withParent, rest, h.plan, calls - 3);
      assert [] + HearAll(withParent, rest, h.plan).0 == HearAll(withParent, rest, h.plan).0;
    case _ =>
  }

  lemma TakenHasData(withParent: bool, s: seq<byte>)
    ensures var t := ClipTurn(withParent, s); t.Took? && t.msg.Data? ==> t.msg.data != []
  {
  }

  // ----- Turn after turn: an application's slave -----

  /**
   * The requests an application's slave serves until its loop ends, and the bytes it leaves.  A wait
   * that does not return keeps it where it is.
   */
  function AppHearAll(woken: seq<bool>, s: seq<byte>, plan: seq<int>): (seq<Msg>, seq<byte>, seq<int>)
    decreases |s|
  {
    AppHearsShorter(s, plan);
    var h := AppHears(s, plan);
    if h.msg.None? && h.err < 1 then ([], h.rest, h.plan)
    else if h.msg.None? then AppHearAll(woken, h.rest, h.plan)
    else if !FateOf(woken, h.msg.value).GoesOn? then ([h.msg.value], h.rest, h.plan)
    else
      var (ms, rest, plan') := AppHearAll(WokenAfter(woken, h.msg.value), h.rest, h.plan);
      ([h.msg.value] + ms, rest, plan')
  }

  /** A turn that hands something out or goes on has taken something off the stream. */
  lemma AppHearsShorter(s: seq<byte>, plan: seq<int>)
    ensures AppHears(s, plan).err >= 1 || AppHears(s, plan).msg.Some? ==> |AppHears(s, plan).rest| < |s|
  {
    var t := Hear(s, plan, PACKET_SIZE);
    HearShorter(s, plan, PACKET_SIZE);
    HearShorter(t.rest, t.plan, FETCH_SIZE - PACKET_SIZE);
    DataShorter(REQUEST_COPY, t.rest, t.plan);
  }

  /** With complete recvs these are exactly the requests of AppRequests. */
  lemma {:induction false} AppHearsRequests(woken: seq<bool>, s: seq<byte>, plan: seq<int>, calls: nat)
    requires Complete(plan, calls, s) && calls >= 3 * |s| + 4
    ensures AppHearAll(woken, s, plan).0 == AppRequests(woken, s).0
    ensures AppRequests(woken, s).1 ==> AppHearAll(woken, s, plan).1 == AppRequests(woken, s).2
    decreases |s|
  {
    AppHearsTurn(s, plan, calls);
    var h := AppHears(s, plan);
    match AppTurn(s)
    case Took(m, rest) =>
      if FateOf(woken, m).GoesOn? {
        AppHearsRequests(WokenAfter(woken, m), rest, h.plan, calls - 3);
      }
    case PassedOver(rest) => AppHearsRequests(woken, rest, h.plan, calls - 3);
    case Ends(_) => EndsHandsOutNothing(s, plan, calls);
    case Starves =>
  }

  lemma EndsHandsOutNothing(s: seq<byte>, plan: seq<int>, calls: nat)
    requires Complete(plan, calls, s) && calls >= 4 && AppTurn(s).Ends?
    ensures AppHears(s, plan).msg.None?
  {
    TypeComplete(s, plan, calls);
    var t := Hear(s, plan, PACKET_SIZE);
    if s[0] == REQUEST_COPY {
      HeadComplete(s, t.plan, calls - 1);
      HeadParts(s);
    }
  }

  // ----- A short recv -----

  /**
   * A short recv puts a slave out of frame.  Handed the last four bytes of a sync as three and one, the
   * slave writes the fourth over the first, and takes the result for the time.
   */
  lemma ShortRecvMisreads()
    ensures ClipTurn(true, Encode(Sync(0x0500_0000))) == Took(Sync(0x0500_0000), [])
    ensures ClipHears(true, Encode(Sync(0x0500_0000)), [1, 3, 1]) == Heard(Some(Sync(5)), 4, [], [])
  {
    var s := Encode(Sync(0x0500_0000));
    assert s == [TIME_SYNC, 0, 0, 0, 5];
    assert s[1..5] == [0, 0, 0, 5] && s[5..] == [];
    WholeRecv(s, [1, 3, 1], 1);
    assert s[1..] == [0, 0, 0, 5] && [1, 3, 1][1..] == [3, 1];
    assert [0 as byte, 0, 0, 5][3..] == [5] && [3, 1][1..] == [1] && [5 as byte][1..] == [] && [1][1..] == [];
    assert [0 as byte, 0, 0, 5][..3] + Zeros(4)[3..] == Zeros(4);
    assert [5 as byte][..1] + Zeros(4)[1..] == [5, 0, 0, 0];
    assert RecvLoop([0, 0, 0, 5], [3, 1], Zeros(4), 4, 0) == RecvLoop([5], [1], Zeros(4), 4, 3);
    assert RecvLoop([5], [1], Zeros(4), 4, 3) == Received(4, [5, 0, 0, 0], [], []);
  }

  /** Handed them as three and all that is left, it drops the sync and the goodbye behind it. */
  lemma ShortRecvSwallows()
    ensures ClipSession(true, Encode(Sync(5)) + [GOODBYE]) == ([Sync(5)], true, [])
    ensures ClipHears(true, Encode(Sync(5)) + [GOODBYE], [1, 3, 4]) == Heard(None, 5, [], [])
  {
    var s := Encode(Sync(5)) + [GOODBYE];
    assert s == [TIME_SYNC, 5, 0, 0, 0, GOODBYE];
    assert [GOODBYE][1..] == [];
    assert ClipSession(true, [GOODBYE]) == ([], true, []);
    assert [Sync(5)] + [] == [Sync(5)];
    SessionTakes(true, Sync(5), [GOODBYE]);
    WholeRecv(s, [1, 3, 4], 1);
    assert s[1..] == [5, 0, 0, 0, GOODBYE] && [1, 3, 4][1..] == [3, 4];
    assert [5, 0, 0, 0, GOODBYE][3..] == [0, GOODBYE] && [3, 4][1..] == [4];
    assert [0, GOODBYE][2..] == [] && [4][1..] == [];
    assert [5, 0, 0, 0, GOODBYE][..3] + Zeros(4)[3..] == [5, 0, 0, 0];
    assert RecvLoop([5, 0, 0, 0, GOODBYE], [3, 4], Zeros(4), 4, 0) == RecvLoop([0, GOODBYE], [4], [5, 0, 0, 0], 4, 3);
    assert RecvLoop([0, GOODBYE], [4], [5, 0, 0, 0], 4, 3).ret == 5;
    assert RecvLoop([0, GOODBYE], [4], [5, 0, 0, 0], 4, 3).rest == [];
  }
}
