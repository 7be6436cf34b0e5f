/**
 * Packets over one link from end to end: the broadcaster's sends on one slot
 * (src/interfaces/clipif.c:118-148, src/utils/packet.c:10-20), with short and failing writes, and
 * what the slave at the other end makes of the bytes.
 */
module Framing {
  import opened Common
  import opened Transfer
  import opened Wire

  /** What a series of packets puts on the stream, each of them as far as the kernel takes it. */
  function Streamed(plan: seq<int>, ms: seq<Msg>): seq<byte>
    decreases |ms|
  {
    if ms == [] then []
    else
      var b := Encode(ms[0]);
      b[..Taken(plan, |b|)] + Streamed(PlanAfter(plan, |b|), ms[1..])
  }

  /** The broadcaster's successive packets for one slot; it does not look at sendData's result. */
  method SendSeries(sock: Socket, ms: seq<Msg>)
    modifies sock`sent, sock`plan
    ensures sock.sent == old(sock.sent) + Streamed(old(sock.plan), ms)
  {
    var i := 0;
    while i < |ms|
      invariant 0 <= i <= |ms|
      invariant old(sock.sent) + Streamed(old(sock.plan), ms) == sock.sent + Streamed(sock.plan, ms[i..])
    {
      ghost var was, plan := sock.sent, sock.plan;
      var ret := SendData(sock, Encode(ms[i]));
      StreamStep(plan, ms[i..]);
      assert ms[i..][1..] == ms[i + 1..];
      Join(was, Encode(ms[i])[..Taken(plan, |Encode(ms[i])|)], Streamed(sock.plan, ms[i + 1..]));
      i := i + 1;
    }
  }

  lemma StreamStep(plan: seq<int>, ms: seq<Msg>)
    requires ms != []
    ensures var b := Encode(ms[0]);
            Streamed(plan, ms) == b[..Taken(plan, |b|)] + Streamed(PlanAfter(plan, |b|), ms[1..])
  {
  }

  lemma Join(a: seq<byte>, b: seq<byte>, c: seq<byte>)
    ensures a + (b + c) == a + b + c
  {
  }

  /** A call that fails has found the connection gone, and so do all later ones. */
  ghost predicate FailsForGood(plan: seq<int>) {
    forall i, j :: 0 <= i <= j < |plan| && plan[i] < 1 ==> plan[j] < 1
  }

  /** A send that was cut short leaves nothing but failures. */
  lemma {:induction false} CutIsLast(plan: seq<int>, left: nat)
    requires FailsForGood(plan)
    ensures FailsForGood(PlanAfter(plan, left))
    ensures Taken(plan, left) < left ==> forall i :: 0 <= i < |PlanAfter(plan, left)| ==> PlanAfter(plan, left)[i] < 1
  {
    if left > 0 && !Fails(plan) {
      CutIsLast(plan[1..], left - Min(plan[0], left));
    }
  }

  /** Once every call fails nothing more reaches the stream. */
  lemma {:induction false} GoneIsSilent(plan: seq<int>, ms: seq<Msg>)
    requires forall i :: 0 <= i < |plan| ==> plan[i] < 1
    ensures Streamed(plan, ms) == []
    decreases |ms|
  {
    if ms != [] {
      GoneIsSilent(PlanAfter(plan, |Encode(ms[0])|), ms[1..]);
    }
  }

  /** The stream is the packets up to one of them, and a strict prefix of that one. */
  lemma {:induction false} StreamIsCut(plan: seq<int>, ms: seq<Msg>) returns (j: nat, k: nat)
    requires FailsForGood(plan)
    ensures j <= |ms| && if j == |ms| then k == 0 else k < |Encode(ms[j])|
    ensures Streamed(plan, ms) == EncodeAll(ms[..j]) + if j == |ms| then [] else Encode(ms[j])[..k]
    decreases |ms|
  {
    if ms == [] {
      j, k := 0, 0;
    } else {
      var b := Encode(ms[0]);
      var taken, rest := Taken(plan, |b|), PlanAfter(plan, |b|);
      CutIsLast(plan, |b|);
      if taken < |b| {
        GoneIsSilent(rest, ms[1..]);
        j, k := 0, taken;
        assert ms[..0] == [];
      } else {
        j, k := StreamIsCut(rest, ms[1..]);
        var cut := if j == |ms| - 1 then [] else Encode(ms[1..][j])[..k];
        j := j + 1;
        assert ms[..j][1..] == ms[1..][..j - 1];
        assert b[..taken] == b;
        Join([], b, EncodeAll(ms[1..][..j - 1]));
        Join(b, EncodeAll(ms[1..][..j - 1]), cut);
      }
    }
  }

  lemma {:induction false} PrefixLinks(withParent: bool, ms: seq<Msg>, j: nat)
    requires AllLink(withParent, ms) && j <= |ms|
    ensures AllLink(withParent, ms[..j])
    ensures j < |ms| ==> LinkMsg(withParent, ms[j])
  {
    if j > 0 {
      PrefixLinks(withParent, ms[1..], j - 1);
      assert ms[..j][1..] == ms[1..][..j - 1];
    } else {
      assert ms[..0] == [];
    }
  }

  // ----- A link's packets and the goodbye behind them -----

  lemma EncodeBye()
    ensures Encode(Bye) == [GOODBYE] && |Encode(Bye)| == 1
    ensures EncodeAll([Bye]) == [GOODBYE]
  {
    assert [Bye][1..] == [];
  }

  lemma {:induction false} EncodeAppend(ms: seq<Msg>, m: Msg)
    ensures EncodeAll(ms + [m]) == EncodeAll(ms) + Encode(m)
  {
    if ms == [] {
      assert [] + [m] == [m] && [m][1..] == [];
    } else {
      assert (ms + [m])[1..] == ms[1..] + [m];
      EncodeAppend(ms[1..], m);
      Join(Encode(ms[0]), EncodeAll(ms[1..]), Encode(m));
    }
  }

  /** The slave took the first packets sent, unchanged and in order, and waits inside the next one. */
  predicate TookPrefix(ms: seq<Msg>, taken: (seq<Msg>, bool, seq<byte>)) {
    var (got, ended, left) := taken;
    && !ended && got <= ms
    && left <= (if got == ms then Encode(Bye) else Encode(ms[|got|]))
    && left != (if got == ms then Encode(Bye) else Encode(ms[|got|]))
  }

  /** Packets and a goodbye: a prefix of them arrives, or all of them and the session has ended. */
  predicate Delivered(withParent: bool, plan: seq<int>, ms: seq<Msg>) {
    var taken := ClipSession(withParent, Streamed(plan, ms + [Bye]));
    taken == (ms, true, []) || TookPrefix(ms, taken)
  }

  lemma AllArrive(withParent: bool, ms: seq<Msg>)
    requires AllLink(withParent, ms)
    ensures ClipSession(withParent, EncodeAll(ms + [Bye])) == (ms, true, [])
  {
    EncodeAppend(ms, Bye);
    ClipGoodbye(withParent, ms);
  }

  lemma AllButTheGoodbye(withParent: bool, ms: seq<Msg>)
    requires AllLink(withParent, ms)
    ensures ClipSession(withParent, EncodeAll(ms)) == (ms, false, [])
  {
    assert EncodeAll(ms) + [] == EncodeAll(ms);
    SessionTakesAll(withParent, ms, []);
    assert ms + [] == ms;
  }

  lemma SomeArrive(withParent: bool, ms: seq<Msg>, j: nat, k: nat)
    requires AllLink(withParent, ms) && j < |ms| && k < |Encode(ms[j])|
    ensures TookPrefix(ms, ClipSession(withParent, EncodeAll(ms[..j]) + Encode(ms[j])[..k]))
  {
    PrefixLinks(withParent, ms, j);
    ClipRoundTrip(withParent, ms[..j], ms[j], k);
  }

  lemma CutArrives(withParent: bool, ms: seq<Msg>, j: nat, k: nat, stream: seq<byte>)
    requires AllLink(withParent, ms) && j <= |ms|
    requires k < |Encode(if j == |ms| then Bye else ms[j])|
    requires stream == EncodeAll(ms[..j]) + Encode(if j == |ms| then Bye else ms[j])[..k]
    ensures TookPrefix(ms, ClipSession(withParent, stream))
  {
    if j == |ms| {
      assert ms[..j] == ms;
      EncodeBye();
      assert stream == EncodeAll(ms);
      AllButTheGoodbye(withParent, ms);
    } else {
      SomeArrive(withParent, ms, j, k);
    }
  }

  lemma WithGoodbye(ms: seq<Msg>, j: nat)
    requires j <= |ms|
    ensures (ms + [Bye])[..j] == ms[..j]
    ensures (ms + [Bye])[j] == if j == |ms| then Bye else ms[j]
  {
  }

  /** However the writes are split and wherever the connection breaks for good. */
  lemma DeliversPrefix(withParent: bool, plan: seq<int>, ms: seq<Msg>)
    requires AllLink(withParent, ms) && FailsForGood(plan)
    ensures Delivered(withParent, plan, ms)
  {
    var all := ms + [Bye];
    var j, k := StreamIsCut(plan, all);
    if j == |all| {
      assert all[..j] == all;
      assert EncodeAll(all) + [] == EncodeAll(all);
      AllArrive(withParent, ms);
    } else {
      WithGoodbye(ms, j);
      CutArrives(withParent, ms, j, k, Streamed(plan, all));
    }
  }

  // ----- A failure that passes -----

  /** A copy that may travel on any link; none of its bytes is a goodbye's. */
  const PLAIN := Data(REQUEST_COPY, 0, 0, [0])
  const PLAIN_BYTES: seq<byte> := [REQUEST_COPY, 0, 1, 0, 0, 0, 0, 0, 0, 0, 0]

  lemma PlainEncodes()
    ensures Encode(PLAIN) == PLAIN_BYTES
    ensures forall i :: 0 <= i < 11 ==> PLAIN_BYTES[i] != GOODBYE
  {
    assert U32Bytes(SizeField(1)) == [1, 0, 0, 0] && U32Bytes(0) == [0, 0, 0, 0];
  }

  function Plains(n: nat): (ms: seq<Msg>)
    ensures |ms| == n
  {
    if n == 0 then [] else [PLAIN] + Plains(n - 1)
  }

  lemma {:induction false} PlainsLink(withParent: bool, n: nat)
    ensures AllLink(withParent, Plains(n))
    ensures forall i :: 0 <= i < n ==> Plains(n)[i] == PLAIN
  {
    if n > 0 {
      PlainsLink(withParent, n - 1);
      assert Plains(n)[1..] == Plains(n - 1);
    }
  }

  ghost predicate SomeGoes(plan: seq<int>) {
    exists i :: 0 <= i < |plan| && plan[i] >= 1
  }

  lemma PlainsFirst(plan: seq<int>, n: nat)
    requires n > 0
    ensures Streamed(plan, Plains(n) + [Bye]) ==
            PLAIN_BYTES[..Taken(plan, 11)] + Streamed(PlanAfter(plan, 11), Plains(n - 1) + [Bye])
  {
    PlainEncodes();
    var ms := Plains(n) + [Bye];
    assert ms[0] == PLAIN && ms[1..] == Plains(n - 1) + [Bye];
    StreamStep(plan, ms);
  }

  /** Behind enough lost packets the goodbye is the next thing to get through. */
  lemma {:induction false} ByeGetsThrough(plan: seq<int>) returns (lost: nat)
    requires SomeGoes(plan)
    ensures Streamed(plan, Plains(lost) + [Bye]) == [GOODBYE]
  {
    if plan[0] >= 1 {
      lost := 0;
      EncodeBye();
      assert Plains(0) + [Bye] == [Bye] && [Bye][1..] == [];
      assert Taken(plan, 1) == 1 + Taken(plan[1..], 0);
      StreamStep(plan, [Bye]);
    } else {
      lost := ByeGetsThrough(plan[1..]);
      lost := lost + 1;
      PlainsFirst(plan, lost);
      assert PLAIN_BYTES[..0] == [];
    }
  }

  /** Using up a packet's worth of a plan with a passing failure leaves one, or ends at the failure. */
  lemma {:induction false} FailureComes(plan: seq<int>, left: nat)
    requires !FailsForGood(plan)
    ensures Taken(plan, left) == left ==> !FailsForGood(PlanAfter(plan, left))
    ensures Taken(plan, left) < left ==> SomeGoes(PlanAfter(plan, left))
  {
    var i, j :| 0 <= i <= j < |plan| && plan[i] < 1 && plan[j] >= 1;
    if left > 0 {
      assert plan[1..][j - 1] == plan[j];
      if plan[0] >= 1 {
        assert plan[1..][i - 1] == plan[i];
        FailureComes(plan[1..], left - Min(plan[0], left));
      }
    }
  }

  /** The stream of `whole` packets, one cut short, and the goodbye. */
  function BrokenStream(whole: nat, cut: nat): seq<byte>
    requires cut < 11
  {
    EncodeAll(Plains(whole)) + (PLAIN_BYTES[..cut] + [GOODBYE])
  }

  /** `whole` packets go out, the next one up to `cut`, `lost` ones not at all, and then the goodbye. */
  predicate Breaks(plan: seq<int>, whole: nat, cut: nat, lost: nat) {
    cut < 11 && Streamed(plan, Plains(whole + lost + 1) + [Bye]) == BrokenStream(whole, cut)
  }

  lemma CutNow(plan: seq<int>) returns (lost: nat)
    requires !FailsForGood(plan) && Taken(plan, 11) < 11
    ensures Breaks(plan, 0, Taken(plan, 11), lost)
  {
    FailureComes(plan, 11);
    lost := ByeGetsThrough(PlanAfter(plan, 11));
    PlainsFirst(plan, lost + 1);
  }

  lemma OneMoreWhole(whole: nat, cut: nat)
    requires cut < 11
    ensures BrokenStream(whole + 1, cut) == PLAIN_BYTES[..11] + BrokenStream(whole, cut)
  {
    PlainEncodes();
    assert PLAIN_BYTES[..11] == PLAIN_BYTES;
    assert Plains(whole + 1)[0] == PLAIN && Plains(whole + 1)[1..] == Plains(whole);
    Join(PLAIN_BYTES, EncodeAll(Plains(whole)), PLAIN_BYTES[..cut] + [GOODBYE]);
  }

  lemma WholeFirst(plan: seq<int>, whole: nat, cut: nat, lost: nat)
    requires Taken(plan, 11) == 11 && Breaks(PlanAfter(plan, 11), whole, cut, lost)
    ensures Breaks(plan, whole + 1, cut, lost)
  {
    PlainsFirst(plan, whole + 1 + lost + 1);
    OneMoreWhole(whole, cut);
  }

  /** Some number of packets goes out whole, the next one is cut or lost, and then comes the goodbye. */
  lemma {:induction false} CutByBye(plan: seq<int>) returns (whole: nat, cut: nat, lost: nat)
    requires !FailsForGood(plan)
    ensures Breaks(plan, whole, cut, lost)
    decreases |plan|
  {
    FailureComes(plan, 11);
    if Taken(plan, 11) < 11 {
      lost := CutNow(plan);
      whole, cut := 0, Taken(plan, 11);
    } else {
      var rest := PlanAfter(plan, 11);
      PlanShrinks(plan, 11);
      var before, c, l := CutByBye(rest);
      WholeFirst(plan, before, c, l);
      whole, cut, lost := before + 1, c, l;
    }
  }

  lemma {:induction false} PlanShrinks(plan: seq<int>, left: nat)
    requires left > 0 && Taken(plan, left) == left
    ensures |PlanAfter(plan, left)| < |plan|
  {
    if left > plan[0] {
      PlanShrinks(plan[1..], left - plan[0]);
    }
  }

  /** What a slave makes of a packet with the goodbye in the middle. */
  lemma CutTaken(withParent: bool, cut: nat)
    requires cut < 11
    ensures var taken := ClipSession(withParent, PLAIN_BYTES[..cut] + [GOODBYE]);
            if cut == 0 then taken == ([], true, [])
            else if cut < 10 then taken == ([], false, PLAIN_BYTES[..cut] + [GOODBYE])
            else taken == ([Data(REQUEST_COPY, 0, 0, [GOODBYE])], false, [])
  {
    var s := PLAIN_BYTES[..cut] + [GOODBYE];
    if cut == 0 {
      assert s == [GOODBYE] && s[1..] == [];
    } else if cut < 9 {
      assert |s| < DATA_SIZE && s[0] == REQUEST_COPY;
    } else if cut == 9 {
      assert s == [REQUEST_COPY, 0, 1, 0, 0, 0, 0, 0, 0, GOODBYE];
      NinesStarve(withParent, s);
    } else {
      TenIsAnother(withParent);
      assert s == PLAIN_BYTES[..10] + [GOODBYE];
    }
  }

  lemma NinesStarve(withParent: bool, s: seq<byte>)
    requires s == [REQUEST_COPY, 0, 1, 0, 0, 0, 0, 0, 0, GOODBYE]
    ensures ClipSession(withParent, s) == ([], false, s)
  {
    assert s[2..6] == [1, 0, 0, 0];
    assert SizeAt(s) == 1;
  }

  lemma TenIsAnother(withParent: bool)
    ensures ClipSession(withParent, PLAIN_BYTES[..10] + [GOODBYE]) == ([Data(REQUEST_COPY, 0, 0, [GOODBYE])], false, [])
  {
    var other := Data(REQUEST_COPY, 0, 0, [GOODBYE]);
    assert U32Bytes(SizeField(1)) == [1, 0, 0, 0] && U32Bytes(0) == [0, 0, 0, 0];
    assert PLAIN_BYTES[..10] + [GOODBYE] == Encode(other) + [];
    assert ClipSession(withParent, []) == ([], false, []);
    assert [other] + [] == [other];
    SessionTakes(withParent, other, []);
  }

  /** It took what it took of the packets before, and then this. */
  lemma BrokenTaken(withParent: bool, whole: nat, cut: nat)
    requires cut < 11
    ensures var (more, ended, left) := ClipSession(withParent, PLAIN_BYTES[..cut] + [GOODBYE]);
            ClipSession(withParent, BrokenStream(whole, cut)) == (Plains(whole) + more, ended, left)
  {
    PlainsLink(withParent, whole);
    SessionTakesAll(withParent, Plains(whole), PLAIN_BYTES[..cut] + [GOODBYE]);
  }

  /** A goodbye too early, bytes of no packet sent, or a packet that was not sent. */
  lemma BrokenIsNoPrefix(withParent: bool, whole: nat, cut: nat, n: nat)
    requires cut < 11 && whole < n
    ensures ClipSession(withParent, BrokenStream(whole, cut)) != (Plains(n), true, [])
    ensures !TookPrefix(Plains(n), ClipSession(withParent, BrokenStream(whole, cut)))
  {
    BrokenTaken(withParent, whole, cut);
    CutTaken(withParent, cut);
    PlainsLink(withParent, n);
    var got := ClipSession(withParent, BrokenStream(whole, cut)).0;
    if cut < 10 {
      assert got == Plains(whole);
      PlainEncodes();
      assert (PLAIN_BYTES[..cut] + [GOODBYE])[cut] == GOODBYE != PLAIN_BYTES[cut];
    } else {
      assert got[whole] == Data(REQUEST_COPY, 0, 0, [GOODBYE]) != Plains(n)[whole];
    }
  }

  lemma NotDelivered(withParent: bool, plan: seq<int>, ms: seq<Msg>, stream: seq<byte>)
    requires Streamed(plan, ms + [Bye]) == stream
    requires ClipSession(withParent, stream) != (ms, true, []) && !TookPrefix(ms, ClipSession(withParent, stream))
    ensures !Delivered(withParent, plan, ms)
  {
  }

  lemma PassingFailureBreaks(withParent: bool, plan: seq<int>) returns (ms: seq<Msg>)
    requires !FailsForGood(plan)
    ensures AllLink(withParent, ms) && !Delivered(withParent, plan, ms)
  {
    var whole, cut, lost := CutByBye(plan);
    var n := whole + lost + 1;
    ms := Plains(n);
    PlainsLink(withParent, n);
    BrokenIsNoPrefix(withParent, whole, cut, n);
    NotDelivered(withParent, plan, Plains(n), BrokenStream(whole, cut));
  }

  /** Every series of packets that may travel on the link arrives as a prefix. */
  ghost predicate AlwaysDelivers(withParent: bool, plan: seq<int>) {
    forall ms :: AllLink(withParent, ms) ==> Delivered(withParent, plan, ms)
  }

  /**
   * A link, in either direction, delivers a prefix of whatever packets are sent on it, the goodbye
   * included, if and only if a failed send is followed by failures alone.  The broadcaster does not
   * see to that itself: it goes on after a failed send.
   */
  lemma DeliversIff(withParent: bool, plan: seq<int>)
    ensures AlwaysDelivers(withParent, plan) <==> FailsForGood(plan)
  {
    if FailsForGood(plan) {
      forall ms | AllLink(withParent, ms)
        ensures Delivered(withParent, plan, ms)
      {
        DeliversPrefix(withParent, plan, ms);
      }
    } else {
      var ms := PassingFailureBreaks(withParent, plan);
    }
  }

  /** For example: the child takes a time nobody sent and ends the session. */
  lemma PassingFailureMisframes()
    ensures Streamed([3, -1, 5], [Sync(2), Sync(2)]) == [TIME_SYNC, 2, 0, TIME_SYNC, 2, 0, 0, 0]
    ensures ClipSession(true, [TIME_SYNC, 2, 0, TIME_SYNC, 2, 0, 0, 0]) == ([Sync(0x0201_0002)], true, [0, 0])
  {
    CutThenWhole();
    var sync := Sync(0x0201_0002);
    assert Encode(sync) == [TIME_SYNC, 2, 0, TIME_SYNC, 2];
    assert Encode(sync) + [0, 0, 0] == [TIME_SYNC, 2, 0, TIME_SYNC, 2, 0, 0, 0];
    assert [0 as byte, 0, 0][1..] == [0, 0];
    assert ClipTurn(true, [0, 0, 0]) == Ends([0, 0]);
    assert ClipSession(true, [0, 0, 0]) == ([], true, [0, 0]);
    assert [sync] + [] == [sync];
    SessionTakes(true, sync, [0, 0, 0]);
  }

  lemma CutThenWhole()
    ensures Streamed([3, -1, 5], [Sync(2), Sync(2)]) == [TIME_SYNC, 2, 0, TIME_SYNC, 2, 0, 0, 0]
  {
    var b := Encode(Sync(2));
    assert b == [TIME_SYNC, 2, 0, 0, 0];
    assert [3, -1, 5][1..] == [-1, 5] && [-1, 5][1..] == [5] && [5][1..] == [];
    assert Taken([3, -1, 5], 5) == 3 + Taken([-1, 5], 2) == 3;
    assert PlanAfter([3, -1, 5], 5) == PlanAfter([-1, 5], 2) == [5];
    assert Taken([5], 5) == 5 + Taken([], 0) == 5;
    assert [Sync(2), Sync(2)][1..] == [Sync(2)] && [Sync(2)][1..] == [];
    assert Streamed([5], [Sync(2)]) == b[..5] + Streamed(PlanAfter([5], 5), []) == b;
    StreamStep([3, -1, 5], [Sync(2), Sync(2)]);
  }
}
