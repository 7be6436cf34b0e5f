/**
 * A whole session on the server's side: the loop of appif_slave on everything a client will ever send
 * (src/interfaces/appif.c:95-249), against the decoder of module Wire.
 */
module ServerLoop {
  import opened Common
  import opened Wire
  import opened Session

  /**
   * The requests served, and the session afterwards.  `nows` gives the network time of each turn and
   * `notices` what mem_wait hands out to each wait; a wait beyond those does not return, and its
   * request has been read by then.
   */
  function ServeAll(
    realMin: bool, c: Conn, turn: nat, nows: nat -> u32, notices: seq<seq<byte>>): (seq<Msg>, Conn)
    decreases |c.toServer|
  {
    if !c.open then ([], c)
    else
      match AppTurn(c.toServer)
      case Starves => ([], c)
      case PassedOver(_) => ServeAll(realMin, ServeTurn(realMin, c, nows(turn), None), turn + 1, nows, notices)
      case Ends(_) => ([], ServeTurn(realMin, c, nows(turn), None))
      case Took(req, rest) =>
        if IsWait(req) && notices == [] then ([req], c.(toServer := rest))
        else
          var notice := if IsWait(req) then Some(notices[0]) else None;
          TurnTakes(realMin, c, nows(turn), notice);
          var (ms, c') := ServeAll(realMin, ServeTurn(realMin, c, nows(turn), notice), turn + 1, nows,
                                   if IsWait(req) then notices[1..] else notices);
          ([req] + ms, c')
  }

  lemma TookKinds(s: seq<byte>)
    ensures var t := AppTurn(s);
            t.Took? ==> Served(t.msg) || IsWait(t.msg)
    ensures var t := AppTurn(s); t.Took? && t.msg.Data? ==> |t.msg.data| < U32_LIMIT
  {
  }

  /** A turn that takes a request leaves what is behind it. */
  lemma TurnTakes(realMin: bool, c: Conn, now: u32, notice: Option<seq<byte>>)
    requires c.open && AppTurn(c.toServer).Took? && (IsWait(AppTurn(c.toServer).msg) ==> notice.Some?)
    ensures ServeTurn(realMin, c, now, notice).toServer == AppTurn(c.toServer).rest
  {
    TookKinds(c.toServer);
  }

  /** Whether each wait of the stream is handed any bytes. */
  function WokenBy(s: seq<byte>, notices: seq<seq<byte>>): seq<bool>
    decreases |s|
  {
    match AppTurn(s)
    case PassedOver(rest) => WokenBy(rest, notices)
    case Took(req, rest) =>
      if !IsWait(req) then WokenBy(rest, notices)
      else if notices == [] then []
      else [req.count > 0 && notices[0] != []] + WokenBy(rest, notices[1..])
    case _ => []
  }

  /** After serving a request the session is open exactly when its fate is to go on. */
  lemma TurnGoesOnIff(realMin: bool, c: Conn, now: u32, notice: Option<seq<byte>>, woken: seq<bool>)
    requires c.open && AppTurn(c.toServer).Took?
    requires var req := AppTurn(c.toServer).msg;
             IsWait(req) ==> notice.Some? && woken != [] && woken[0] == (req.count > 0 && notice.value != [])
    ensures ServeTurn(realMin, c, now, notice).open <==> FateOf(woken, AppTurn(c.toServer).msg).GoesOn?
    ensures !FateOf(woken, AppTurn(c.toServer).msg).Blocks?
  {
    TookKinds(c.toServer);
    var req := AppTurn(c.toServer).msg;
    if Served(req) {
      CarryGoesOnIff(c.zones, req, now);
      var rep := Carry(c.zones, req, now);
      RespondGoesOnIff(realMin, Encode(rep.answer), rep.err);
    } else {
      NotifyGoesOnIff(realMin, req, notice.value, now);
    }
  }

  lemma NotifyGoesOnIff(realMin: bool, req: Msg, bytes: seq<byte>, now: u32)
    requires IsWait(req)
    ensures Notify(realMin, req, bytes, now).1 >= 1 <==> req.count > 0 && bytes != []
  {
    var got := bytes[..Min(req.count, |bytes|)];
    RespondGoesOnIff(realMin, Encode(Data(RESPONSE_NOTIFY, req.region, now, got)),
                     if got == [] then 0 else FETCH_SIZE - PACKET_SIZE);
  }

  /**
   * The server serves exactly the requests the decoder finds on the stream, in order, leaves exactly
   * what it leaves, and has stopped listening exactly when that session has ended.
   */
  lemma {:induction false} ServerIsDecoder(
    realMin: bool, c: Conn, turn: nat, nows: nat -> u32, notices: seq<seq<byte>>)
    requires c.open
    ensures var (ms, ended, left) := AppRequests(WokenBy(c.toServer, notices), c.toServer);
            var (served, c') := ServeAll(realMin, c, turn, nows, notices);
            served == ms && c'.toServer == left && (c'.open <==> !ended)
    decreases |c.toServer|
  {
    match AppTurn(c.toServer)
    case Starves =>
    case Ends(_) =>
    case PassedOver(_) => ServerIsDecoder(realMin, ServeTurn(realMin, c, nows(turn), None), turn + 1, nows, notices);
    case Took(req, rest) =>
      if !(IsWait(req) && notices == []) {
        var notice := if IsWait(req) then Some(notices[0]) else None;
        var rest' := if IsWait(req) then notices[1..] else notices;
        var woken := WokenBy(c.toServer, notices);
        TurnTakes(realMin, c, nows(turn), notice);
        TurnGoesOnIff(realMin, c, nows(turn), notice, woken);
        var next := ServeTurn(realMin, c, nows(turn), notice);
        if next.open {
          assert WokenAfter(woken, req) == WokenBy(rest, rest');
          ServerIsDecoder(realMin, next, turn + 1, nows, rest');
        } else {
          assert [req] + [] == [req];
        }
      }
  }

  /** What is served from here on, behind what was served before. */
  function Rest(
    realMin: bool, c: Conn, turn: nat, nows: nat -> u32, notices: seq<seq<byte>>, served: seq<Msg>): (seq<Msg>, Conn)
  {
    var more := ServeAll(realMin, c, turn, nows, notices);
    (served + more.0, more.1)
  }

  lemma RestAtEnd(realMin: bool, c: Conn, turn: nat, nows: nat -> u32, notices: seq<seq<byte>>, served: seq<Msg>)
    requires !c.open || AppTurn(c.toServer).Starves?
    ensures Rest(realMin, c, turn, nows, notices, served) == (served, c)
  {
    assert served + [] == served;
  }

  lemma RestTakes(realMin: bool, c: Conn, turn: nat, nows: nat -> u32, notices: seq<seq<byte>>, served: seq<Msg>)
    requires c.open && AppTurn(c.toServer).Took? && !(IsWait(AppTurn(c.toServer).msg) && notices == [])
    ensures var req := AppTurn(c.toServer).msg;
            Rest(realMin, c, turn, nows, notices, served) ==
            Rest(realMin, ServeTurn(realMin, c, nows(turn), if IsWait(req) then Some(notices[0]) else None), turn + 1,
                 nows, if IsWait(req) then notices[1..] else notices, served + [req])
  {
    var req := AppTurn(c.toServer).msg;
    var notice := if IsWait(req) then Some(notices[0]) else None;
    TurnTakes(realMin, c, nows(turn), notice);
    var more := ServeAll(realMin, ServeTurn(realMin, c, nows(turn), notice), turn + 1, nows,
                         if IsWait(req) then notices[1..] else notices);
    assert served + ([req] + more.0) == served + [req] + more.0;
  }

  lemma RestBlocks(realMin: bool, c: Conn, turn: nat, nows: nat -> u32, notices: seq<seq<byte>>, served: seq<Msg>)
    requires c.open && AppTurn(c.toServer).Took? && IsWait(AppTurn(c.toServer).msg) && notices == []
    ensures Rest(realMin, c, turn, nows, notices, served) ==
            (served + [AppTurn(c.toServer).msg], c.(toServer := AppTurn(c.toServer).rest))
  {
  }

  lemma RestGoesOn(realMin: bool, c: Conn, turn: nat, nows: nat -> u32, notices: seq<seq<byte>>, served: seq<Msg>)
    requires c.open && (AppTurn(c.toServer).PassedOver? || AppTurn(c.toServer).Ends?)
    ensures Rest(realMin, c, turn, nows, notices, served) ==
            Rest(realMin, ServeTurn(realMin, c, nows(turn), None), turn + 1, nows, notices, served)
  {
  }

  /** The loop itself. */
  method Loop(session: AppSession, nows: nat -> u32, notices: seq<seq<byte>>) returns (served: seq<Msg>)
    modifies session
    ensures (served, session.State()) == ServeAll(session.realMin, old(session.State()), 0, nows, notices)
  {
    served := [];
    var turn, left := 0, notices;
    Nothing(ServeAll(session.realMin, session.State(), 0, nows, notices).0);
    while session.listening && !AppTurn(session.toServer).Starves?
      invariant Rest(session.realMin, old(session.State()), 0, nows, notices, []) ==
                Rest(session.realMin, session.State(), turn, nows, left, served)
      decreases |session.toServer|
    {
      var t := AppTurn(session.toServer);
      if t.Took? && IsWait(t.msg) && left == [] {
        RestBlocks(session.realMin, session.State(), turn, nows, left, served);
        session.toServer := t.rest;
        served := served + [t.msg];
        return;
      }
      if t.Took? {
        RestTakes(session.realMin, session.State(), turn, nows, left, served);
        var notice := if IsWait(t.msg) then Some(left[0]) else None;
        TurnTakes(session.realMin, session.State(), nows(turn), notice);
        session.Turn(nows(turn), notice);
        left := if IsWait(t.msg) then left[1..] else left;
        served := served + [t.msg];
      } else {
        RestGoesOn(session.realMin, session.State(), turn, nows, left, served);
        session.Turn(nows(turn), None);
      }
      turn := turn + 1;
    }
    RestAtEnd(session.realMin, session.State(), turn, nows, left, served);
  }

  lemma Nothing(ms: seq<Msg>)
    ensures [] + ms == ms
  {
  }
}
