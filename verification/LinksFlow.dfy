/**
 * What is passed on between clipboards that come and go (src/interfaces/clipif.c:59-151, 186-287): each
 * broadcast queue against the events at its clipboard, each link against its sender's send loop, and
 * who runs a clock.
 */
module LinksFlow {
  import opened Common
  import opened Wire
  import opened Links
  import opened Topology

  lemma Extend(ls: seq<Label>, l: Label) returns (longer: seq<Label>)
    requires Runs(ls) && Can(After(ls), l)
    ensures ls <= longer && |longer| == |ls| + 1 && longer[|ls|] == l
    ensures Runs(longer) && After(longer) == Do(After(ls), l)
  {
    longer := ls + [l];
    assert longer[..|ls|] == ls;
  }

  // ----- What a clipboard queues -----

  /** The packet at the front of connection `k` towards `n`. */
  function Front(s: Net, n: nat, k: nat): Option<Msg> {
    if k >= |s.conns| then None
    else if s.conns[k].child == n then (if s.conns[k].down == [] then None else Some(s.conns[k].down[0]))
    else if s.conns[k].up == [] then None
    else Some(s.conns[k].up[0])
  }

  /**
   * What an event gives clipboard `n` to broadcast: its own clock's sync, an application's copy, its
   * goodbye, a sync taken from the parent, a copy taken from anywhere that its memory accepts.
   */
  function Gains(s: Net, l: Label, n: nat): seq<Item> {
    match l
    case Tick(m, time) => if m == n then [Item(Sync(time), None)] else []
    case Entered(m, msg) => if m == n then [Item(msg, None)] else []
    case SayBye(m) => if m == n then [Item(Bye, None)] else []
    case Recv(m, k, accepted, time) => if m == n then TakesOver(s, n, k, accepted, time) else []
    case _ => []
  }

  function TakesOver(s: Net, n: nat, k: nat, accepted: bool, time: u32): seq<Item> {
    match Front(s, n, k)
    case Some(Sync(_)) => if s.conns[k].child == n then [Item(Sync(time), Some(k))] else []
    case Some(Data(kind, region, stamp, data)) =>
      if accepted then [Item(Data(kind, region, stamp, data), Some(k))] else []
    case _ => []
  }

  ghost function Gained(ls: seq<Label>, n: nat): seq<Item>
    requires Runs(ls)
  {
    if ls == [] then []
    else Gained(ls[..|ls| - 1], n) + Gains(After(ls[..|ls| - 1]), ls[|ls| - 1], n)
  }

  function Pops(ls: seq<Label>, n: nat): nat {
    if ls == [] then 0 else Pops(ls[..|ls| - 1], n) + if ls[|ls| - 1] == Pop(n) then 1 else 0
  }

  lemma NoOtherData(s: Net, n: nat, k: nat)
    requires Inv(s) && Node(s, n) && Open(s, n, k) && Incoming(s.conns[k], n) != []
    ensures Front(s, n, k) == Some(Incoming(s.conns[k], n)[0])
    ensures var m := Incoming(s.conns[k], n)[0]; m.Data? ==> m.kind == REQUEST_COPY
    ensures !Incoming(s.conns[k], n)[0].Fetch?
  {
    assert ConnOk(s, k);
  }

  lemma QueueReceived(s: Net, n: nat, k: nat, accepted: bool, time: u32, j: nat)
    requires Inv(s) && Can(s, Recv(n, k, accepted, time)) && j < |s.clips|
    ensures Received(s, n, k, accepted, time).clips[j].queue ==
            s.clips[j].queue + if j == n then TakesOver(s, n, k, accepted, time) else []
    ensures Received(s, n, k, accepted, time).clips[j].sending == s.clips[j].sending
  {
    NoOtherData(s, n, k);
  }

  lemma QueueStep(s: Net, l: Label, n: nat)
    requires Inv(s) && Can(s, l) && n < |s.clips|
    ensures Do(s, l).clips[n].queue ==
            (if l == Pop(n) then s.clips[n].queue[1..] else s.clips[n].queue) + Gains(s, l, n)
    ensures Do(s, l).clips[n].sending.Some? ==>
              if l == Pop(n) then Do(s, l).clips[n].sending == Some(s.clips[n].queue[0])
              else s.clips[n].sending == Do(s, l).clips[n].sending
  {
    if l.Recv? {
      QueueReceived(s, l.n, l.k, l.accepted, l.time, n);
    }
  }

  lemma NewClipGains(s: Net, l: Label)
    requires Inv(s) && Can(s, l) && |Do(s, l).clips| > |s.clips|
    ensures |Do(s, l).clips| == |s.clips| + 1 && Gains(s, l, |s.clips|) == [] && l != Pop(|s.clips|)
    ensures Do(s, l).clips[|s.clips|].queue == [] && Do(s, l).clips[|s.clips|].sending.None?
  {
  }

  lemma {:induction false} NobodyYet(ls: seq<Label>, n: nat)
    requires Runs(ls) && n >= |After(ls).clips|
    ensures Gained(ls, n) == [] && Pops(ls, n) == 0
  {
    if ls != [] {
      var before, l := ls[..|ls| - 1], ls[|ls| - 1];
      DoGrows(After(before), l);
      NobodyYet(before, n);
    }
  }

  /** The queue holds what was gained and not yet popped, and the sender what was popped last. */
  predicate QueueIs(c: Clip, gained: seq<Item>, pops: nat) {
    && pops <= |gained| && c.queue == gained[pops..]
    && (c.sending.Some? ==> pops > 0 && c.sending == Some(gained[pops - 1]))
  }

  lemma QueueGains(c: Clip, c': Clip, gained: seq<Item>, pops: nat, more: seq<Item>)
    requires QueueIs(c, gained, pops) && c'.queue == c.queue + more && (c'.sending.Some? ==> c'.sending == c.sending)
    ensures QueueIs(c', gained + more, pops)
  {
    assert (gained + more)[pops..] == gained[pops..] + more;
  }

  lemma QueuePops(c: Clip, c': Clip, gained: seq<Item>, pops: nat)
    requires QueueIs(c, gained, pops) && c.queue != []
    requires c'.queue == c.queue[1..] && c'.sending == Some(c.queue[0])
    ensures QueueIs(c', gained + [], pops + 1)
  {
    assert gained + [] == gained;
    assert gained[pops + 1..] == gained[pops..][1..];
  }

  lemma PassesOnStep(s: Net, l: Label, n: nat, gained: seq<Item>, pops: nat)
    requires Inv(s) && Can(s, l) && n < |s.clips| && QueueIs(s.clips[n], gained, pops)
    ensures n < |Do(s, l).clips|
    ensures QueueIs(Do(s, l).clips[n], gained + Gains(s, l, n), pops + if l == Pop(n) then 1 else 0)
  {
    DoGrows(s, l);
    QueueStep(s, l, n);
    if l == Pop(n) {
      QueuePops(s.clips[n], Do(s, l).clips[n], gained, pops);
    } else {
      QueueGains(s.clips[n], Do(s, l).clips[n], gained, pops, Gains(s, l, n));
    }
  }

  /**
   * Passing on: what a clipboard has queued is, in order, everything its events gave it to broadcast,
   * less what its broadcaster has taken; and what that is sending is what it took last.
   */
  lemma {:induction false} PassesOn(ls: seq<Label>, n: nat)
    requires Runs(ls) && n < |After(ls).clips|
    ensures QueueIs(After(ls).clips[n], Gained(ls, n), Pops(ls, n))
  {
    if ls != [] {
      var before := ls[..|ls| - 1];
      Reachable(before);
      if n < |After(before).clips| {
        PassesOn(before, n);
        PassesOnStep(After(before), ls[|ls| - 1], n, Gained(before, n), Pops(before, n));
      } else {
        NewPassesOn(ls, n);
      }
    }
  }

  lemma NewPassesOn(ls: seq<Label>, n: nat)
    requires Runs(ls) && ls != [] && |After(ls[..|ls| - 1]).clips| <= n < |After(ls).clips|
    ensures QueueIs(After(ls).clips[n], Gained(ls, n), Pops(ls, n))
  {
    var before, l := ls[..|ls| - 1], ls[|ls| - 1];
    Reachable(before);
    NobodyYet(before, n);
    NewClipGains(After(before), l);
  }

  // ----- What a link carries -----

  /** What an event puts on connection `k` downwards and upwards: the hello, and what the ends send. */
  function Puts(s: Net, l: Label, k: nat, down: bool): seq<Msg> {
    match l
    case Join(_, time) => if k == |s.conns| && down then [Sync(time)] else []
    case Send(n, j) =>
      if j != k || k >= |s.conns| || n >= |s.clips| || s.clips[n].sending.None? then []
      else if (s.conns[k].child != n) == down then [s.clips[n].sending.value.msg]
      else []
    case _ => []
  }

  ghost function PutOn(ls: seq<Label>, k: nat, down: bool): seq<Msg>
    requires Runs(ls)
  {
    if ls == [] then []
    else PutOn(ls[..|ls| - 1], k, down) + Puts(After(ls[..|ls| - 1]), ls[|ls| - 1], k, down)
  }

  function TakesOff(s: Net, l: Label, k: nat, down: bool): nat {
    match l
    case InitChild(j) => if j == k && down then 1 else 0
    case Recv(n, j, _, _) => if j == k && k < |s.conns| && (s.conns[k].child == n) == down then 1 else 0
    case _ => 0
  }

  ghost function TakenOff(ls: seq<Label>, k: nat, down: bool): nat
    requires Runs(ls)
  {
    if ls == [] then 0
    else TakenOff(ls[..|ls| - 1], k, down) + TakesOff(After(ls[..|ls| - 1]), ls[|ls| - 1], k, down)
  }

  function Way(c: Conn, down: bool): seq<Msg> {
    if down then c.down else c.up
  }

  /** Receiving takes one packet off one connection; closing and queueing leave what is under way alone. */
  lemma ReceivedWays(s: Net, n: nat, j: nat, accepted: bool, time: u32)
    requires Can(s, Recv(n, j, accepted, time))
    ensures var s' := Received(s, n, j, accepted, time); var c, c' := s.conns[j], s'.conns[j];
            && |s'.conns| == |s.conns|
            && (forall k :: 0 <= k < |s.conns| && k != j ==> s'.conns[k] == s.conns[k])
            && c'.down == (if c.child == n then c.down[1..] else c.down)
            && c'.up == (if c.child == n then c.up else c.up[1..])
  {
  }

  lemma WayReceived(s: Net, n: nat, j: nat, accepted: bool, time: u32, k: nat, down: bool)
    requires Can(s, Recv(n, j, accepted, time)) && k < |s.conns|
    ensures TakesOff(s, Recv(n, j, accepted, time), k, down) <= |Way(s.conns[k], down)|
    ensures k < |Received(s, n, j, accepted, time).conns|
    ensures Way(Received(s, n, j, accepted, time).conns[k], down) ==
            Way(s.conns[k], down)[TakesOff(s, Recv(n, j, accepted, time), k, down)..]
  {
    ReceivedWays(s, n, j, accepted, time);
  }

  lemma WaySent(s: Net, n: nat, j: nat, k: nat, down: bool)
    requires Inv(s) && Can(s, Send(n, j)) && k < |s.conns|
    ensures Way(Do(s, Send(n, j)).conns[k], down) == Way(s.conns[k], down) + Puts(s, Send(n, j), k, down)
  {
  }

  lemma WayInit(s: Net, j: nat, k: nat, down: bool)
    requires Inv(s) && Can(s, InitChild(j)) && k < |s.conns|
    ensures TakesOff(s, InitChild(j), k, down) <= |Way(s.conns[k], down)|
    ensures Way(Do(s, InitChild(j)).conns[k], down) == Way(s.conns[k], down)[TakesOff(s, InitChild(j), k, down)..]
  {
  }

  lemma WayStep(s: Net, l: Label, k: nat, down: bool)
    requires Inv(s) && Can(s, l) && k < |s.conns|
    ensures k < |Do(s, l).conns| && TakesOff(s, l, k, down) <= |Way(s.conns[k], down)|
    ensures Way(Do(s, l).conns[k], down) ==
            Way(s.conns[k], down)[TakesOff(s, l, k, down)..] + Puts(s, l, k, down)
  {
    DoGrows(s, l);
    match l
    case Recv(n, j, accepted, time) => WayReceived(s, n, j, accepted, time, k, down);
    case Send(n, j) => WaySent(s, n, j, k, down);
    case InitChild(j) => WayInit(s, j, k, down);
    case _ =>
  }

  lemma NewConn(s: Net, l: Label)
    requires Inv(s) && Can(s, l) && |Do(s, l).conns| > |s.conns|
    ensures |Do(s, l).conns| == |s.conns| + 1
    ensures forall down :: Way(Do(s, l).conns[|s.conns|], down) == Puts(s, l, |s.conns|, down)
    ensures forall down :: TakesOff(s, l, |s.conns|, down) == 0
  {
  }

  lemma {:induction false} NoConnYet(ls: seq<Label>, k: nat, down: bool)
    requires Runs(ls) && k >= |After(ls).conns|
    ensures PutOn(ls, k, down) == [] && TakenOff(ls, k, down) == 0
  {
    if ls != [] {
      var before, l := ls[..|ls| - 1], ls[|ls| - 1];
      Reachable(before);
      DoGrows(After(before), l);
      NoConnYet(before, k, down);
      NothingBeyond(After(before), l, k, down);
    }
  }

  lemma NothingBeyond(s: Net, l: Label, k: nat, down: bool)
    requires Inv(s) && Can(s, l) && k >= |Do(s, l).conns|
    ensures Puts(s, l, k, down) == [] && TakesOff(s, l, k, down) == 0
  {
    DoGrows(s, l);
  }

  lemma DropMsgs(a: seq<Msg>, b: seq<Msg>, j: nat, k: nat)
    requires j <= |a| && k <= |a[j..]|
    ensures (a + b)[j + k..] == a[j..][k..] + b
  {
  }

  /** Each direction of a link carries, in order, exactly what was put on it, less what was taken off. */
  lemma {:induction false} LinkCarries(ls: seq<Label>, k: nat, down: bool)
    requires Runs(ls) && k < |After(ls).conns|
    ensures TakenOff(ls, k, down) <= |PutOn(ls, k, down)|
    ensures Way(After(ls).conns[k], down) == PutOn(ls, k, down)[TakenOff(ls, k, down)..]
  {
    if ls != [] {
      var before, l := ls[..|ls| - 1], ls[|ls| - 1];
      var s := After(before);
      Reachable(before);
      if k < |s.conns| {
        LinkCarries(before, k, down);
        WayStep(s, l, k, down);
        DropMsgs(PutOn(before, k, down), Puts(s, l, k, down), TakenOff(before, k, down), TakesOff(s, l, k, down));
      } else {
        NoConnYet(before, k, down);
        NewConn(s, l);
      }
    }
  }

  // ----- The send loop leaves nobody out -----

  /** The connections `n` sent to since it took its last packet. */
  function SentSince(ls: seq<Label>, n: nat): set<nat> {
    if ls == [] then {}
    else
      match ls[|ls| - 1]
      case Pop(m) => if m == n then {} else SentSince(ls[..|ls| - 1], n)
      case Send(m, k) => SentSince(ls[..|ls| - 1], n) + if m == n then {k} else {}
      case _ => SentSince(ls[..|ls| - 1], n)
  }

  lemma ServedStep(s: Net, l: Label, n: nat)
    requires Can(s, l) && n < |s.clips|
    ensures Do(s, l).clips[n].served ==
            if l == Pop(n) then {} else s.clips[n].served + if l.Send? && l.n == n then {l.k} else {}
    ensures Do(s, l).clips[n].upto == if l == Pop(n) then |s.conns| else s.clips[n].upto
  {
  }

  lemma {:induction false} NotSentYet(ls: seq<Label>, n: nat)
    requires Runs(ls) && n >= |After(ls).clips|
    ensures SentSince(ls, n) == {}
  {
    if ls != [] {
      var before, l := ls[..|ls| - 1], ls[|ls| - 1];
      DoGrows(After(before), l);
      NotSentYet(before, n);
    }
  }

  lemma {:induction false} ServedIsSent(ls: seq<Label>, n: nat)
    requires Runs(ls) && n < |After(ls).clips|
    ensures After(ls).clips[n].served == SentSince(ls, n)
  {
    if ls != [] {
      var before, l := ls[..|ls| - 1], ls[|ls| - 1];
      if n < |After(before).clips| {
        ServedIsSent(before, n);
        ServedStep(After(before), l, n);
      } else {
        NotSentYet(before, n);
        NewServesNobody(After(before), l, n);
      }
    }
  }

  lemma NewServesNobody(s: Net, l: Label, n: nat)
    requires Can(s, l) && |s.clips| <= n < |Do(s, l).clips|
    ensures Do(s, l).clips[n].served == {} && !l.Pop? && !l.Send?
  {
    DoGrows(s, l);
  }

  /**
   * A packet is done with exactly when it was sent on every connection that was open throughout the
   * send loop, but the one it came from.
   */
  lemma DoneIff(ls: seq<Label>, n: nat)
    requires Runs(ls) && Node(After(ls), n) && After(ls).clips[n].sending.Some?
    ensures var s := After(ls);
            Can(s, Done(n)) <==>
            forall k: nat :: Open(s, n, k) && k < s.clips[n].upto && s.clips[n].sending.value.from != Some(k) ==>
                          k in SentSince(ls, n)
  {
    ServedIsSent(ls, n);
    var s := After(ls);
    if Can(s, Done(n)) {
      forall k: nat | Open(s, n, k) && k < s.clips[n].upto && s.clips[n].sending.value.from != Some(k)
        ensures k in SentSince(ls, n)
      {
        assert !Awaits(s, n, k);
      }
    }
  }

  // ----- Who runs a clock, and whose goodbye is under way -----

  /** A clipboard that stays has a clock exactly when it has no parent; one that left has neither. */
  predicate ClockOk(s: Net, n: nat)
    requires n < |s.clips|
  {
    var c := s.clips[n];
    if !c.ready then !c.clock && c.parentSock.None? && c.phase.Staying?
    else if c.phase.Left? then !c.clock && c.parentSock.None?
    else
      && (c.clock <==> c.parentSock.None?)
      && (c.parentSock.Some? ==>
            && c.parentSock.value < |s.conns|
            && s.conns[c.parentSock.value].child == n && s.conns[c.parentSock.value].atChild)
  }

  lemma ClockReceived(s: Net, m: nat, k: nat, accepted: bool, time: u32, n: nat)
    requires Inv(s) && Can(s, Recv(m, k, accepted, time)) && n < |s.clips| && ClockOk(s, n)
    ensures n < |Received(s, m, k, accepted, time).clips| && ClockOk(Received(s, m, k, accepted, time), n)
  {
    assert ConnOk(s, k);
  }

  lemma ClockClosed(s: Net, m: nat, k: nat, n: nat)
    requires Inv(s) && Can(s, Close(m, k)) && n < |s.clips| && ClockOk(s, n)
    ensures n < |Closed(s, m, k).clips| && ClockOk(Closed(s, m, k), n)
  {
    assert ConnOk(s, k);
  }

  lemma ClockStep(s: Net, l: Label, n: nat)
    requires Inv(s) && Can(s, l) && n < |s.clips| && ClockOk(s, n)
    ensures n < |Do(s, l).clips| && ClockOk(Do(s, l), n)
  {
    match l
    case InitChild(k) => ClockInit(s, k, n);
    case Recv(m, k, accepted, time) => ClockReceived(s, m, k, accepted, time, n);
    case Close(m, k) => ClockClosed(s, m, k, n);
    case _ =>
  }

  lemma ClockInit(s: Net, k: nat, n: nat)
    requires Inv(s) && Can(s, InitChild(k)) && n < |s.clips| && ClockOk(s, n)
    ensures n < |Do(s, InitChild(k)).clips| && ClockOk(Do(s, InitChild(k)), n)
  {
    assert ClipOk(s, n);
  }

  /** Losing the parent makes a clipboard the root of its own tree, with a clock; nothing else does. */
  lemma {:induction false} RootHasClock(ls: seq<Label>, n: nat)
    requires Runs(ls) && n < |After(ls).clips|
    ensures ClockOk(After(ls), n)
  {
    if ls != [] {
      var before, l := ls[..|ls| - 1], ls[|ls| - 1];
      Reachable(before);
      DoGrows(After(before), l);
      if n < |After(before).clips| {
        RootHasClock(before, n);
        ClockStep(After(before), l, n);
      }
    }
  }

  /** No goodbye of this clipboard is queued or being sent. */
  predicate NoBye(c: Clip) {
    (forall i :: 0 <= i < |c.queue| ==> c.queue[i].msg != Bye) && (c.sending.Some? ==> c.sending.value.msg != Bye)
  }

  predicate StaySilent(s: Net, n: nat)
    requires n < |s.clips|
  {
    s.clips[n].phase.Staying? ==> NoBye(s.clips[n])
  }

  predicate LinkSilent(s: Net, k: nat)
    requires k < |s.conns| && s.conns[k].parent < |s.clips|
  {
    s.clips[s.conns[k].parent].phase.Staying? ==> forall i :: 0 <= i < |s.conns[k].down| ==> s.conns[k].down[i] != Bye
  }

  lemma PhaseStep(s: Net, l: Label, n: nat)
    requires Can(s, l) && n < |s.clips|
    ensures n < |Do(s, l).clips|
    ensures Do(s, l).clips[n].phase.Staying? ==> s.clips[n].phase.Staying? && l != SayBye(n)
  {
  }

  lemma SilentStep(s: Net, l: Label, n: nat)
    requires Inv(s) && Can(s, l) && n < |s.clips| && StaySilent(s, n)
    ensures n < |Do(s, l).clips| && StaySilent(Do(s, l), n)
  {
    PhaseStep(s, l, n);
    QueueStep(s, l, n);
    if Do(s, l).clips[n].phase.Staying? {
      forall i | 0 <= i < |Gains(s, l, n)|
        ensures Gains(s, l, n)[i].msg != Bye
      {
      }
    }
  }

  lemma LinkSilentStep(s: Net, l: Label, k: nat)
    requires Inv(s) && Can(s, l) && k < |s.conns| && s.conns[k].parent < |s.clips|
    requires LinkSilent(s, k) && StaySilent(s, s.conns[k].parent)
    ensures k < |Do(s, l).conns| && Do(s, l).conns[k].parent < |Do(s, l).clips| && LinkSilent(Do(s, l), k)
  {
    DoGrows(s, l);
    PhaseStep(s, l, s.conns[k].parent);
    WayStep(s, l, k, true);
    assert Way(Do(s, l).conns[k], true) == Do(s, l).conns[k].down;
    assert ConnOk(s, k);
  }

  ghost predicate AllSilent(s: Net) {
    && (forall n :: 0 <= n < |s.clips| ==> StaySilent(s, n))
    && (forall k :: 0 <= k < |s.conns| ==> s.conns[k].parent < |s.clips| && LinkSilent(s, k))
  }

  lemma AllSilentStep(s: Net, l: Label)
    requires Inv(s) && Can(s, l) && AllSilent(s)
    ensures AllSilent(Do(s, l))
  {
    var s' := Do(s, l);
    DoGrows(s, l);
    forall n | 0 <= n < |s'.clips|
      ensures StaySilent(s', n)
    {
      if n < |s.clips| {
        SilentStep(s, l, n);
      }
    }
    forall k | 0 <= k < |s'.conns|
      ensures s'.conns[k].parent < |s'.clips| && LinkSilent(s', k)
    {
      if k < |s.conns| {
        LinkSilentStep(s, l, k);
      } else {
        NewLinkSilent(s, l);
      }
    }
  }

  lemma NewLinkSilent(s: Net, l: Label)
    requires Can(s, l) && |Do(s, l).conns| > |s.conns|
    ensures var s', k := Do(s, l), |s.conns|;
            |s'.conns| == k + 1 && s'.conns[k].parent < |s'.clips| && LinkSilent(s', k)
  {
  }

  lemma {:induction false} StayersAreSilent(ls: seq<Label>)
    requires Runs(ls)
    ensures AllSilent(After(ls))
  {
    if ls != [] {
      Reachable(ls[..|ls| - 1]);
      StayersAreSilent(ls[..|ls| - 1]);
      AllSilentStep(After(ls[..|ls| - 1]), ls[|ls| - 1]);
    }
  }

  // ----- Joining and parting -----

  /** A clipboard can always be joined: the newcomer becomes ready, with an open connection to it. */
  lemma JoinCompletes(ls: seq<Label>, p: nat, time: u32) returns (more: seq<Label>)
    requires Runs(ls) && Node(After(ls), p)
    ensures ls <= more && Runs(more)
    ensures var s, s' := After(ls), After(more); var k, n := |s.conns|, |s.clips|;
            && |s'.conns| == k + 1 && |s'.clips| == n + 1
            && s'.conns[..k] == s.conns && s'.clips[..n] == s.clips
            && s'.conns[k] == Conn(p, n, [], [], true, true)
            && Node(s', n) && s'.clips[n].parentSock == Some(k) && !s'.clips[n].clock
  {
    Reachable(ls);
    more := Extend(ls, Join(p, time));
    assert After(more).conns[|After(ls).conns|].down == [Sync(time)];
    more := Extend(more, InitChild(|After(ls).conns|));
  }

  /** A goodbye read closes the reader's end; from the parent, it makes the reader a root. */
  lemma ByeParts(ls: seq<Label>, n: nat, k: nat, accepted: bool, time: u32)
    requires Runs(ls) && Can(After(ls), Recv(n, k, accepted, time)) && Front(After(ls), n, k) == Some(Bye)
    ensures var s' := Do(After(ls), Recv(n, k, accepted, time));
            && !Open(s', n, k)
            && (After(ls).clips[n].parentSock == Some(k) ==> s'.clips[n].clock && s'.clips[n].parentSock.None?)
  {
    Reachable(ls);
    NoOtherData(After(ls), n, k);
    assert ConnOk(After(ls), k);
  }

  /** At any time a clipboard can start, any copy enter, and any clipboard tick, say goodbye or leave. */
  lemma EventsCome(s: Net, n: nat, region: byte, stamp: u32, data: seq<byte>, time: u32)
    requires region < 10 && data != [] && InRange(|data|)
    ensures Can(s, Start)
    ensures Node(s, n) ==> Can(s, Entered(n, Data(REQUEST_COPY, region, stamp, data))) && Can(s, Join(n, time))
    ensures Node(s, n) && s.clips[n].clock ==> Can(s, Tick(n, time))
    ensures Node(s, n) && s.clips[n].phase.Staying? ==> Can(s, SayBye(n))
    ensures Node(s, n) && s.clips[n].phase.Leaving? ==> Can(s, Leave(n))
  {
  }

  /** At any time an open connection can be lost, and what has arrived on it be taken. */
  lemma PacketsCome(s: Net, n: nat, k: nat, time: u32)
    requires Inv(s) && Node(s, n) && Open(s, n, k)
    ensures Can(s, Close(n, k))
    ensures Front(s, n, k).Some? ==> Can(s, Recv(n, k, false, time))
    ensures Front(s, n, k).Some? && Front(s, n, k).value.Data? ==> Can(s, Recv(n, k, true, time))
  {
    assert ConnOk(s, k);
  }

  /** The connection of the clipboard that joined as number `i`. */
  predicate JoinedTo(s: Net, i: nat, p: nat) {
    && 0 < i <= |s.conns| && s.conns[i - 1] == Conn(p, i, [], [], true, true)
    && Node(s, i) && s.clips[i].parentSock == Some(i - 1)
  }

  /** The first `m` clipboards of the tree, joined as it says. */
  ghost predicate Built(t: Tree, s: Net, m: nat) {
    && 0 < m <= |t.parent| && |s.clips| == m && |s.conns| == m - 1 && Node(s, 0) && s.clips[0].clock
    && forall i :: 0 < i < m ==> JoinedTo(s, i, t.parent[i])
  }

  lemma Earlier(t: Tree, s: Net, s': Net, m: nat)
    requires Built(t, s, m) && m < |t.parent| && t.parent[m] < m
    requires |s'.conns| == |s.conns| + 1 && |s'.clips| == |s.clips| + 1
    requires s'.conns[..|s.conns|] == s.conns && s'.clips[..|s.clips|] == s.clips
    requires JoinedTo(s', m, t.parent[m])
    ensures Built(t, s', m + 1)
  {
    forall i | 0 < i < m + 1
      ensures JoinedTo(s', i, t.parent[i])
    {
      if i < m {
        assert JoinedTo(s, i, t.parent[i]);
        assert s'.conns[i - 1] == s'.conns[..|s.conns|][i - 1] && s'.clips[i] == s'.clips[..|s.clips|][i];
      }
    }
    assert s'.clips[0] == s'.clips[..|s.clips|][0];
  }

  /** Every tree of clipboards can come about. */
  lemma {:induction false} TreeBuilt(t: Tree, m: nat, time: u32) returns (ls: seq<Label>)
    requires WellFormed(t) && 0 < m <= |t.parent|
    ensures Runs(ls) && Built(t, After(ls), m)
  {
    if m == 1 {
      ls := Extend([], Start);
    } else {
      var before := TreeBuilt(t, m - 1, time);
      BuiltReady(t, After(before), m - 1, t.parent[m - 1]);
      ls := JoinCompletes(before, t.parent[m - 1], time);
      Earlier(t, After(before), After(ls), m - 1);
    }
  }

  lemma BuiltReady(t: Tree, s: Net, m: nat, p: nat)
    requires Built(t, s, m) && p < m
    ensures Node(s, p)
  {
    assert p > 0 ==> JoinedTo(s, p, t.parent[p]);
  }
}
