/**
 * From one end to the other: packets sent over a link or requests sent by an application, on one side
 * with short and failing writes, and read turn after turn on the other
 * (src/interfaces/clipif.c:118-148, 186-287, Library/client_api.c:114-258, src/interfaces/appif.c:95-249).
 */
module Delivery {
  import opened Common
  import opened Transfer
  import opened Wire
  import opened Framing
  import opened Reception

  // ----- Links -----

  /** Every sendData returns its size. */
  predicate AllSent(plan: seq<int>, ms: seq<Msg>)
    decreases |ms|
  {
    ms == [] ||
    (var n := |Encode(ms[0])|; Taken(plan, n) == n && AllSent(PlanAfter(plan, n), ms[1..]))
  }

  /** The next `n` calls all move something. */
  ghost predicate Works(plan: seq<int>, n: nat) {
    |plan| >= n && forall i :: 0 <= i < n ==> plan[i] >= 1
  }

  lemma {:induction false} WorksOnce(plan: seq<int>, left: nat, n: nat)
    requires Works(plan, n) && left <= n
    ensures Taken(plan, left) == left && Works(PlanAfter(plan, left), n - left)
  {
    if left > 0 {
      var r := Min(plan[0], left);
      assert Works(plan[1..], n - r);
      WorksOnce(plan[1..], left - r, n - r);
    }
  }

  /** On a connection that works, however short its writes, every send returns its size. */
  lemma {:induction false} WorkingSendsAll(plan: seq<int>, ms: seq<Msg>)
    requires Works(plan, |EncodeAll(ms)|)
    ensures AllSent(plan, ms)
    decreases |ms|
  {
    if ms != [] {
      WorksOnce(plan, |Encode(ms[0])|, |EncodeAll(ms)|);
      WorkingSendsAll(PlanAfter(plan, |Encode(ms[0])|), ms[1..]);
    }
  }

  lemma {:induction false} AllSentWhole(plan: seq<int>, ms: seq<Msg>)
    requires AllSent(plan, ms)
    ensures Streamed(plan, ms) == EncodeAll(ms)
    decreases |ms|
  {
    if ms != [] {
      var b := Encode(ms[0]);
      AllSentWhole(PlanAfter(plan, |b|), ms[1..]);
      assert b[..|b|] == b;
    }
  }

  lemma {:induction false} SentLength(plan: seq<int>, ms: seq<Msg>)
    ensures |Streamed(plan, ms)| <= |EncodeAll(ms)|
    ensures !AllSent(plan, ms) ==> |Streamed(plan, ms)| < |EncodeAll(ms)|
    decreases |ms|
  {
    if ms != [] {
      SentLength(PlanAfter(plan, |Encode(ms[0])|), ms[1..]);
    }
  }

  lemma TookLength(withParent: bool, s: seq<byte>)
    ensures var t := ClipTurn(withParent, s); t.Took? ==> |Encode(t.msg)| + |t.rest| == |s|
  {
  }

  /** What a session takes was on the stream, and so was the byte that ended it. */
  lemma {:induction false} SessionLength(withParent: bool, s: seq<byte>)
    ensures var (ms, ended, left) := ClipSession(withParent, s);
            |EncodeAll(ms)| + |left| + (if ended then 1 else 0) <= |s|
    decreases |s|
  {
    TookLength(withParent, s);
    match ClipTurn(withParent, s)
    case Took(m, rest) =>
      SessionLength(withParent, rest);
      EncodeFirstLength(m, ClipSession(withParent, rest).0);
    case PassedOver(rest) => SessionLength(withParent, rest);
    case _ =>
  }

  lemma EncodeFirstLength(m: Msg, ms: seq<Msg>)
    ensures |EncodeAll([m] + ms)| == |Encode(m)| + |EncodeAll(ms)|
  {
    assert ([m] + ms)[1..] == ms;
  }

  /**
   * Packets and a goodbye arrive whole, with nothing left over and the session ended, if and only if
   * every send returns its size.
   */
  lemma ArrivesIff(withParent: bool, plan: seq<int>, ms: seq<Msg>)
    requires AllLink(withParent, ms)
    ensures ClipSession(withParent, Streamed(plan, ms + [Bye])) == (ms, true, []) <==> AllSent(plan, ms + [Bye])
  {
    if AllSent(plan, ms + [Bye]) {
      AllSentWhole(plan, ms + [Bye]);
      AllArrive(withParent, ms);
    } else {
      SentLength(plan, ms + [Bye]);
      EncodeAppend(ms, Bye);
      EncodeBye();
      SessionLength(withParent, Streamed(plan, ms + [Bye]));
    }
  }

  /** When a packet does not go out whole and the failure is for good, the stream ends short of it. */
  lemma {:induction false} CutShort(plan: seq<int>, ms: seq<Msg>, last: Msg)
    requires FailsForGood(plan) && !AllSent(plan, ms)
    ensures |Streamed(plan, ms + [last])| < |EncodeAll(ms)|
    decreases |ms|
  {
    var b := Encode(ms[0]);
    CutIsLast(plan, |b|);
    assert (ms + [last])[0] == ms[0] && (ms + [last])[1..] == ms[1..] + [last];
    StreamStep(plan, ms + [last]);
    if Taken(plan, |b|) < |b| {
      GoneIsSilent(PlanAfter(plan, |b|), ms[1..] + [last]);
    } else {
      CutShort(PlanAfter(plan, |b|), ms[1..], last);
    }
  }

  lemma {:induction false} SentBefore(plan: seq<int>, ms: seq<Msg>, last: Msg) returns (k: nat)
    requires AllSent(plan, ms)
    ensures k <= |Encode(last)| && Streamed(plan, ms + [last]) == EncodeAll(ms) + Encode(last)[..k]
    decreases |ms|
  {
    StreamStep(plan, ms + [last]);
    if ms == [] {
      k := Taken(plan, |Encode(last)|);
      assert [] + [last] == [last] && [last][1..] == [];
    } else {
      var b := Encode(ms[0]);
      k := SentBefore(PlanAfter(plan, |b|), ms[1..], last);
      assert (ms + [last])[1..] == ms[1..] + [last] && b[..|b|] == b;
      Join(b, EncodeAll(ms[1..]), Encode(last)[..k]);
    }
  }

  lemma GoodbyeOrNot(k: nat)
    requires k <= |Encode(Bye)|
    ensures Encode(Bye)[..k] == if k == 0 then [] else [GOODBYE]
  {
    EncodeBye();
  }

  lemma AllTakenWhenSent(withParent: bool, plan: seq<int>, ms: seq<Msg>)
    requires AllLink(withParent, ms) && AllSent(plan, ms)
    ensures ClipSession(withParent, Streamed(plan, ms + [Bye])).0 == ms
  {
    var k := SentBefore(plan, ms, Bye);
    GoodbyeOrNot(k);
    SessionTakesAll(withParent, ms, Encode(Bye)[..k]);
    assert ms + [] == ms;
  }

  /**
   * From the broadcaster to the slave at the other end: where failures are for good and recvs are
   * complete, the slave's loop takes a prefix of the packets sent, and all of them if and only if
   * every packet's send returned its size.
   */
  lemma LinkDeliversIff(withParent: bool, plan: seq<int>, ms: seq<Msg>, recvs: seq<int>, calls: nat)
    requires AllLink(withParent, ms) && FailsForGood(plan)
    requires Complete(recvs, calls, Streamed(plan, ms + [Bye])) && calls >= 3 * |Streamed(plan, ms + [Bye])| + 4
    ensures var got := HearAll(withParent, Streamed(plan, ms + [Bye]), recvs).0;
            got <= ms && (got == ms <==> AllSent(plan, ms))
  {
    ClipHearsSession(withParent, Streamed(plan, ms + [Bye]), recvs, calls);
    DeliversPrefix(withParent, plan, ms);
    if AllSent(plan, ms) {
      AllTakenWhenSent(withParent, plan, ms);
    } else {
      CutShort(plan, ms, Bye);
      SessionLength(withParent, Streamed(plan, ms + [Bye]));
    }
  }

  /** On a connection that works all of them arrive, and nothing is left over. */
  lemma WorkingLinkDelivers(withParent: bool, plan: seq<int>, ms: seq<Msg>, recvs: seq<int>, calls: nat)
    requires AllLink(withParent, ms) && Works(plan, |EncodeAll(ms + [Bye])|)
    requires Complete(recvs, calls, EncodeAll(ms + [Bye])) && calls >= 3 * |EncodeAll(ms + [Bye])| + 4
    ensures Streamed(plan, ms + [Bye]) == EncodeAll(ms + [Bye])
    ensures HearAll(withParent, EncodeAll(ms + [Bye]), recvs).0 == ms
    ensures HearAll(withParent, EncodeAll(ms + [Bye]), recvs).1 == []
  {
    WorkingSendsAll(plan, ms + [Bye]);
    AllSentWhole(plan, ms + [Bye]);
    ArrivesIff(withParent, plan, ms);
    ClipHearsSession(withParent, EncodeAll(ms + [Bye]), recvs, calls);
  }

  // ----- An application's requests -----

  predicate IsPaste(m: Msg) {
    m.Fetch? && m.kind == REQUEST_PASTE
  }

  /** How much of a request goes out: clipboard_paste makes one plain send, the other calls use sendData. */
  function Asked(plan: seq<int>, m: Msg): (k: nat)
    ensures k <= |Encode(m)|
  {
    if !IsPaste(m) then Taken(plan, |Encode(m)|)
    else if Fails(plan) then 0
    else Min(plan[0], |Encode(m)|)
  }

  function AskAfter(plan: seq<int>, m: Msg): seq<int> {
    if IsPaste(m) then Next(plan) else PlanAfter(plan, |Encode(m)|)
  }

  /** A paste request that went out in part: the client does not notice, and waits for the answer. */
  predicate AsksInVain(plan: seq<int>, m: Msg) {
    IsPaste(m) && 1 <= Asked(plan, m) < |Encode(m)|
  }

  /** What a client's series of calls puts on its stream. */
  function Requested(plan: seq<int>, ms: seq<Msg>): seq<byte>
    decreases |ms|
  {
    if ms == [] then []
    else
      Encode(ms[0])[..Asked(plan, ms[0])] +
      if AsksInVain(plan, ms[0]) then [] else Requested(AskAfter(plan, ms[0]), ms[1..])
  }

  /** The sends of a client's calls, one call after the other. */
  method ClientSends(sock: Socket, ms: seq<Msg>)
    modifies sock`sent, sock`plan
    ensures sock.sent == old(sock.sent) + Requested(old(sock.plan), ms)
  {
    var i := 0;
    while i < |ms|
      invariant 0 <= i <= |ms|
      invariant old(sock.sent) + Requested(old(sock.plan), ms) == sock.sent + Requested(sock.plan, ms[i..])
    {
      ghost var was, plan := sock.sent, sock.plan;
      RequestStep(was, plan, ms[i..]);
      assert ms[i..][1..] == ms[i + 1..];
      if IsPaste(ms[i]) {
        var ret := sock.Send(Encode(ms[i]));
        assert sock.sent == was + Encode(ms[i])[..Asked(plan, ms[i])];
        if 1 <= ret < |Encode(ms[i])| {
          return;
        }
      } else {
        var ret := SendData(sock, Encode(ms[i]));
      }
      i := i + 1;
    }
  }

  lemma RequestStep(was: seq<byte>, plan: seq<int>, ms: seq<Msg>)
    requires ms != []
    ensures was + Requested(plan, ms) ==
            was + Encode(ms[0])[..Asked(plan, ms[0])] +
            if AsksInVain(plan, ms[0]) then [] else Requested(AskAfter(plan, ms[0]), ms[1..])
  {
  }

  /** A paste request arrives if and only if the one send takes all of it; otherwise the slave waits. */
  lemma PasteArrivesIff(plan: seq<int>, region: byte, count: u32)
    ensures var req := Fetch(REQUEST_PASTE, region, count);
            var turn := AppTurn(Encode(req)[..Asked(plan, req)]);
            && (turn == Took(req, []) <==> plan != [] && plan[0] >= FETCH_SIZE)
            && (turn != Took(req, []) ==> turn == Starves)
  {
    var req := Fetch(REQUEST_PASTE, region, count);
    FetchReads(req, []);
    if plan != [] && plan[0] >= FETCH_SIZE {
      assert Encode(req)[..FETCH_SIZE] == Encode(req) + [];
      AppTakes(req, []);
    } else {
      AppCutStarves(req, Asked(plan, req));
    }
  }

  /** Every request goes out whole. */
  predicate AllAsked(plan: seq<int>, ms: seq<Msg>)
    decreases |ms|
  {
    ms == [] || (Asked(plan, ms[0]) == |Encode(ms[0])| && AllAsked(AskAfter(plan, ms[0]), ms[1..]))
  }

  /** A request cut short leaves nothing but failures, or a client that waits in vain. */
  lemma AskCutIsLast(plan: seq<int>, m: Msg)
    requires FailsForGood(plan)
    ensures FailsForGood(AskAfter(plan, m))
    ensures Asked(plan, m) < |Encode(m)| && !AsksInVain(plan, m) ==>
              forall i :: 0 <= i < |AskAfter(plan, m)| ==> AskAfter(plan, m)[i] < 1
  {
    if !IsPaste(m) {
      CutIsLast(plan, |Encode(m)|);
    }
  }

  lemma {:induction false} GoneAsksNothing(plan: seq<int>, ms: seq<Msg>)
    requires forall i :: 0 <= i < |plan| ==> plan[i] < 1
    ensures Requested(plan, ms) == []
    decreases |ms|
  {
    if ms != [] {
      GoneStaysGone(plan, ms[0]);
      GoneAsksNothing(AskAfter(plan, ms[0]), ms[1..]);
    }
  }

  lemma GoneStaysGone(plan: seq<int>, m: Msg)
    requires forall i :: 0 <= i < |plan| ==> plan[i] < 1
    ensures Asked(plan, m) == 0
    ensures forall i :: 0 <= i < |AskAfter(plan, m)| ==> AskAfter(plan, m)[i] < 1
  {
  }

  lemma {:induction false} AskedShort(plan: seq<int>, ms: seq<Msg>, last: Msg)
    requires FailsForGood(plan) && !AllAsked(plan, ms)
    ensures |Requested(plan, ms + [last])| < |EncodeAll(ms)|
    decreases |ms|
  {
    AskCutIsLast(plan, ms[0]);
    RequestStep([], plan, ms + [last]);
    assert (ms + [last])[0] == ms[0] && (ms + [last])[1..] == ms[1..] + [last];
    if Asked(plan, ms[0]) == |Encode(ms[0])| {
      AskedShort(AskAfter(plan, ms[0]), ms[1..], last);
    } else if !AsksInVain(plan, ms[0]) {
      GoneAsksNothing(AskAfter(plan, ms[0]), ms[1..] + [last]);
    }
  }

  lemma {:induction false} AskedBefore(plan: seq<int>, ms: seq<Msg>, last: Msg) returns (k: nat)
    requires AllAsked(plan, ms)
    ensures k <= |Encode(last)| && Requested(plan, ms + [last]) == EncodeAll(ms) + Encode(last)[..k]
    decreases |ms|
  {
    if ms == [] {
      k := Asked(plan, last);
      assert [] + [last] == [last] && [last][1..] == [];
    } else {
      var b := Encode(ms[0]);
      k := AskedBefore(AskAfter(plan, ms[0]), ms[1..], last);
      assert (ms + [last])[1..] == ms[1..] + [last] && b[..|b|] == b;
      Join(b, EncodeAll(ms[1..]), Encode(last)[..k]);
    }
  }

  lemma AppTookLength(s: seq<byte>)
    ensures AppTurn(s).Took? ==> |Encode(AppTurn(s).msg)| + |AppTurn(s).rest| == |s|
  {
  }

  lemma {:induction false} RequestsLength(woken: seq<bool>, s: seq<byte>)
    ensures |EncodeAll(AppRequests(woken, s).0)| <= |s|
    decreases |s|
  {
    AppTookLength(s);
    match AppTurn(s)
    case Took(m, rest) =>
      EncodeFirstLength(m, []);
      RequestsLength(WokenAfter(woken, m), rest);
      EncodeFirstLength(m, AppRequests(WokenAfter(woken, m), rest).0);
      assert [m] + [] == [m];
    case PassedOver(rest) => RequestsLength(woken, rest);
    case _ =>
  }

  /** The session goes on after each request but perhaps the last. */
  predicate GoesOnToLast(woken: seq<bool>, ms: seq<Msg>) {
    ms == [] || AllGoOn(woken, ms[..|ms| - 1])
  }

  lemma {:induction false} AllGoOnAt(woken: seq<bool>, ms: seq<Msg>, n: nat)
    requires AllGoOn(woken, ms) && n < |ms|
    ensures FateOf(WokenAfterAll(woken, ms[..n]), ms[n]).GoesOn?
  {
    if n > 0 {
      AllGoOnAt(WokenAfter(woken, ms[0]), ms[1..], n - 1);
      assert ms[..n][1..] == ms[1..][..n - 1];
    } else {
      assert ms[..0] == [];
    }
  }

  lemma {:induction false} AllGoOnPrefix(woken: seq<bool>, ms: seq<Msg>, n: nat)
    requires AllGoOn(woken, ms) && n <= |ms|
    ensures AllGoOn(woken, ms[..n])
    decreases n
  {
    if n > 0 {
      AllGoOnPrefix(WokenAfter(woken, ms[0]), ms[1..], n - 1);
      assert ms[..n][1..] == ms[1..][..n - 1];
    } else {
      assert ms[..0] == [];
    }
  }

  /** Of requests that all arrive, those up to the first after which the session does not go on are served. */
  lemma ServedIff(woken: seq<bool>, ms: seq<Msg>, k: nat)
    requires AllRequests(ms) && k <= |Encode(Bye)|
    ensures AppRequests(woken, EncodeAll(ms) + Encode(Bye)[..k]).0 <= ms
    ensures AppRequests(woken, EncodeAll(ms) + Encode(Bye)[..k]).0 == ms <==> GoesOnToLast(woken, ms)
  {
    if AllGoOn(woken, ms) {
      AllServed(woken, ms, k);
      if ms != [] {
        AllGoOnPrefix(woken, ms, |ms| - 1);
      }
    } else {
      var n := AppStopsEarly(woken, ms, Encode(Bye)[..k]);
      LastToStop(woken, ms, n);
    }
  }

  lemma AllServed(woken: seq<bool>, ms: seq<Msg>, k: nat)
    requires AllRequests(ms) && AllGoOn(woken, ms) && k <= |Encode(Bye)|
    ensures AppRequests(woken, EncodeAll(ms) + Encode(Bye)[..k]).0 == ms
  {
    GoodbyeOrNot(k);
    AppTakesAll(woken, ms, Encode(Bye)[..k]);
    assert ms + [] == ms;
  }

  lemma LastToStop(woken: seq<bool>, ms: seq<Msg>, n: nat)
    requires StopsAt(woken, ms, n)
    ensures GoesOnToLast(woken, ms) <==> n == |ms| - 1
  {
    if n < |ms| - 1 && GoesOnToLast(woken, ms) {
      assert ms[..|ms| - 1][..n] == ms[..n];
      AllGoOnAt(woken, ms[..|ms| - 1], n);
    }
  }

  /**
   * From the client's calls to the application's slave: where failures are for good and recvs are
   * complete, all requests are served if and only if each of them goes out whole, which a paste's one
   * plain send does not see to, and the session goes on after each but the last.
   */
  lemma AppDeliversIff(woken: seq<bool>, plan: seq<int>, ms: seq<Msg>, recvs: seq<int>, calls: nat)
    requires AllRequests(ms) && FailsForGood(plan)
    requires Complete(recvs, calls, Requested(plan, ms + [Bye])) && calls >= 3 * |Requested(plan, ms + [Bye])| + 4
    ensures AppHearAll(woken, Requested(plan, ms + [Bye]), recvs).0 == ms
            <==> AllAsked(plan, ms) && GoesOnToLast(woken, ms)
  {
    AppHearsRequests(woken, Requested(plan, ms + [Bye]), recvs, calls);
    if AllAsked(plan, ms) {
      var k := AskedBefore(plan, ms, Bye);
      ServedIff(woken, ms, k);
    } else {
      AskedShort(plan, ms, Bye);
      RequestsLength(woken, Requested(plan, ms + [Bye]));
    }
  }
}
