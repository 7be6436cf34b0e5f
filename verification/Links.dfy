/**
 * Clipboards coming and going: joins, losses of the parent, clock syncs, copies and goodbyes on a
 * changing forest of connections (src/interfaces/clipif.c).  What each link may carry is what its
 * receiver can read.
 *
 * Connections have numbers of their own, descriptors being reused.
 */
module Links {
  import opened Common
  import opened Clmem
  import opened Wire

  /** Which ends have the connection in a slot, and what is under way in each direction. */
  datatype Conn = Conn(parent: nat, child: nat, down: seq<Msg>, up: seq<Msg>, atParent: bool, atChild: bool)

  /** A broadcast_t; `from` is None for -1 and for an application's socket. */
  datatype Item = Item(msg: Msg, from: Option<nat>)

  /** How far clipif_finalize has come: before the goodbye, after it, and without parent or clock. */
  datatype Phase = Staying | Leaving | Left

  /**
   * `clock` says that clipif_clock_man runs; a clipboard that is not ready is still in clipif_init.
   * While a packet is sent, `served` are the connections that had it already, and connections from
   * `upto` on are younger than the send loop, which may or may not come past them.
   */
  datatype Clip = Clip(
    ready: bool, clock: bool, parentSock: Option<nat>, queue: seq<Item>, sending: Option<Item>,
    served: set<nat>, upto: nat, phase: Phase)

  datatype Net = Net(clips: seq<Clip>, conns: seq<Conn>)

  datatype Label =
    | Start                                           // a clipboard without a parent
    | Join(p: nat, time: u32)                         // accepted by clipboard p, hello sent
    | InitChild(k: nat)                               // hello read, slave started
    | Tick(n: nat, time: u32)                         // clipif_clock_man
    | Entered(n: nat, m: Msg)                         // an application's copy, accepted and pushed
    | Pop(n: nat)
    | Send(n: nat, k: nat)
    | Done(n: nat)
    | Recv(n: nat, k: nat, accepted: bool, time: u32) // one turn of clipif_slave
    | Close(n: nat, k: nat)                           // clipif_close_conn after an error or cancellation
    | SayBye(n: nat)                                  // clipif_finalize pushes the goodbye
    | Leave(n: nat)                                   // and then gives up its parent or its clock

  predicate Node(s: Net, n: nat) {
    n < |s.clips| && s.clips[n].ready
  }

  /** Clipboard `n` has connection `k` in a slot. */
  predicate Open(s: Net, n: nat, k: nat) {
    && k < |s.conns|
    && ((s.conns[k].parent == n && s.conns[k].atParent) || (s.conns[k].child == n && s.conns[k].atChild))
  }

  function Incoming(c: Conn, n: nat): seq<Msg> {
    if c.child == n then c.down else c.up
  }

  /** A copy mem_put has accepted. */
  predicate AcceptedCopy(m: Msg) {
    && ValidMsg(m) && m.Data? && m.kind == REQUEST_COPY
    && m.region < 10 && m.data != []
  }

  /** The send loop still has to come past this connection. */
  predicate Awaits(s: Net, n: nat, k: nat)
    requires n < |s.clips|
  {
    && Open(s, n, k) && k < s.clips[n].upto && k !in s.clips[n].served
    && s.clips[n].sending.Some? && s.clips[n].sending.value.from != Some(k)
  }

  predicate Can(s: Net, l: Label) {
    match l
    case Start => true
    case Join(p, _) => Node(s, p)
    case InitChild(k) =>
      && k < |s.conns| && s.conns[k].child < |s.clips| && !s.clips[s.conns[k].child].ready
      && s.conns[k].down != [] && s.conns[k].down[0].Sync?
    case Tick(n, _) => Node(s, n) && s.clips[n].clock
    case Entered(n, m) => Node(s, n) && AcceptedCopy(m)
    case Pop(n) => Node(s, n) && s.clips[n].sending.None? && s.clips[n].queue != []
    case Send(n, k) =>
      && Node(s, n) && s.clips[n].sending.Some?
      && Open(s, n, k) && s.clips[n].sending.value.from != Some(k) && k !in s.clips[n].served
    case Done(n) => Node(s, n) && s.clips[n].sending.Some? && forall k :: 0 <= k < |s.conns| ==> !Awaits(s, n, k)
    case Recv(n, k, accepted, _) =>
      && Node(s, n) && Open(s, n, k) && Incoming(s.conns[k], n) != []
      && (accepted ==> AcceptedCopy(Incoming(s.conns[k], n)[0]))
    case Close(n, k) => Node(s, n) && Open(s, n, k)
    case SayBye(n) => Node(s, n) && s.clips[n].phase.Staying?
    case Leave(n) => Node(s, n) && s.clips[n].phase.Leaving?
  }

  function WithClip(s: Net, n: nat, c: Clip): Net
    requires n < |s.clips|
  {
    s.(clips := s.clips[n := c])
  }

  function WithConn(s: Net, k: nat, c: Conn): Net
    requires k < |s.conns|
  {
    s.(conns := s.conns[k := c])
  }

  function Pushed(s: Net, n: nat, it: Item): Net
    requires n < |s.clips|
  {
    WithClip(s, n, s.clips[n].(queue := s.clips[n].queue + [it]))
  }

  /** clipif_close_conn: losing the parent starts a clock of one's own. */
  function Closed(s: Net, n: nat, k: nat): Net
    requires n < |s.clips| && k < |s.conns|
  {
    var c := s.conns[k];
    var s' := WithConn(s, k, if c.child == n then c.(atChild := false) else c.(atParent := false));
    if s.clips[n].parentSock == Some(k)
    then WithClip(s', n, s.clips[n].(parentSock := None, clock := true))
    else s'
  }

  function Taken(s: Net, n: nat, k: nat): Net
    requires k < |s.conns| && Incoming(s.conns[k], n) != []
  {
    var c := s.conns[k];
    WithConn(s, k, if c.child == n then c.(down := c.down[1..]) else c.(up := c.up[1..]))
  }

  /** The switch of clipif_slave; a slave serves the parent exactly at the child's end. */
  function Received(s: Net, n: nat, k: nat, accepted: bool, time: u32): Net
    requires n < |s.clips| && k < |s.conns| && Incoming(s.conns[k], n) != []
  {
    var m := Incoming(s.conns[k], n)[0];
    var s' := Taken(s, n, k);
    if m.Sync? then (if s.conns[k].child == n then Pushed(s', n, Item(Sync(time), Some(k))) else s')
    else if m.Data? && m.kind == REQUEST_COPY then
      (if accepted then Pushed(s', n, Item(m, Some(k))) else s')
    else Closed(s', n, k)
  }

  function Do(s: Net, l: Label): Net
    requires Can(s, l)
  {
    match l
    case Start => s.(clips := s.clips + [Clip(true, true, None, [], None, {}, 0, Staying)])
    case Join(p, time) =>
      Net(s.clips + [Clip(false, false, None, [], None, {}, 0, Staying)],
          s.conns + [Conn(p, |s.clips|, [Sync(time)], [], true, false)])
    case InitChild(k) =>
      var c := s.conns[k];
      WithConn(WithClip(s, c.child, s.clips[c.child].(ready := true, parentSock := Some(k))),
               k, c.(down := c.down[1..], atChild := true))
    case Tick(n, time) => Pushed(s, n, Item(Sync(time), None))
    case Entered(n, m) => Pushed(s, n, Item(m, None))
    case Pop(n) =>
      WithClip(s, n, s.clips[n].(queue := s.clips[n].queue[1..], sending := Some(s.clips[n].queue[0]),
                                 served := {}, upto := |s.conns|))
    case Send(n, k) =>
      var c, m := s.conns[k], s.clips[n].sending.value.msg;
      WithConn(WithClip(s, n, s.clips[n].(served := s.clips[n].served + {k})),
               k, if c.child == n then c.(up := c.up + [m]) else c.(down := c.down + [m]))
    case Done(n) => WithClip(s, n, s.clips[n].(sending := None))
    case Recv(n, k, accepted, time) => Received(s, n, k, accepted, time)
    case Close(n, k) => Closed(s, n, k)
    case SayBye(n) => Pushed(WithClip(s, n, s.clips[n].(phase := Leaving)), n, Item(Bye, None))
    case Leave(n) => WithClip(s, n, s.clips[n].(parentSock := None, clock := false, phase := Left))
  }

  ghost predicate Runs(ls: seq<Label>)
    decreases |ls|, 0
  {
    ls == [] || (Runs(ls[..|ls| - 1]) && Can(After(ls[..|ls| - 1]), ls[|ls| - 1]))
  }

  ghost function After(ls: seq<Label>): Net
    requires Runs(ls)
    decreases |ls|, 1
  {
    if ls == [] then Net([], []) else Do(After(ls[..|ls| - 1]), ls[|ls| - 1])
  }

  // ----- The invariant -----

  /** What may be under way to a slave that serves the parent, or one that does not. */
  predicate Readable(withParent: bool, m: Msg) {
    m.Bye? || (m.Data? && AcceptedCopy(m)) || (m.Sync? && withParent)
  }

  predicate ConnOk(s: Net, k: nat)
    requires k < |s.conns|
  {
    var c := s.conns[k];
    && c.parent < c.child < |s.clips|
    && (forall i :: 0 <= i < |c.down| ==> Readable(true, c.down[i]))
    && (forall i :: 0 <= i < |c.up| ==> Readable(false, c.up[i]))
    && (!s.clips[c.child].ready ==> !c.atChild && c.down != [] && c.down[0].Sync?)
  }

  /** `n` has its connection to a parent in no slot, if it ever had a parent. */
  ghost predicate ParentGone(s: Net, n: nat) {
    forall k :: 0 <= k < |s.conns| && s.conns[k].child == n ==> !s.conns[k].atChild
  }

  /** A sync in the queue came from the parent, or the parent is gone. */
  ghost predicate ItemOk(s: Net, n: nat, it: Item) {
    || Readable(false, it.msg)
    || (it.msg.Sync? && match it.from
                        case Some(k) => k < |s.conns| && s.conns[k].child == n
                        case None => ParentGone(s, n))
  }

  ghost predicate ClipOk(s: Net, n: nat)
    requires n < |s.clips|
  {
    var c := s.clips[n];
    && (forall i :: 0 <= i < |c.queue| ==> ItemOk(s, n, c.queue[i]))
    && (c.sending.Some? ==> ItemOk(s, n, c.sending.value))
    && (c.clock ==> ParentGone(s, n))
    && (c.parentSock.Some? ==> c.parentSock.value < |s.conns| && s.conns[c.parentSock.value].child == n)
    && (!c.ready ==> c.queue == [] && c.sending.None? && !c.clock && c.parentSock.None?)
  }

  ghost predicate OneParentEach(s: Net) {
    forall j, k :: 0 <= j < k < |s.conns| ==> s.conns[j].child != s.conns[k].child
  }

  ghost predicate Inv(s: Net) {
    && (forall k :: 0 <= k < |s.conns| ==> ConnOk(s, k))
    && (forall n :: 0 <= n < |s.clips| ==> ClipOk(s, n))
    && OneParentEach(s)
  }

  // ----- What every step keeps about connections -----

  /** A connection's ends are fixed, and a child's end opens only while the child starts up. */
  ghost predicate Grows(s: Net, s': Net) {
    && |s.conns| <= |s'.conns| && |s.clips| <= |s'.clips|
    && (forall k :: 0 <= k < |s.conns| ==>
          && s'.conns[k].parent == s.conns[k].parent && s'.conns[k].child == s.conns[k].child
          && (s'.conns[k].atChild && !s.conns[k].atChild ==> !Node(s, s.conns[k].child)))
    && (forall k :: |s.conns| <= k < |s'.conns| ==> !s'.conns[k].atChild && s'.conns[k].child >= |s.clips|)
    && (forall n :: Node(s, n) ==> Node(s', n))
  }

  lemma ClosedGrows(s: Net, n: nat, k: nat)
    requires n < |s.clips| && k < |s.conns|
    ensures Grows(s, Closed(s, n, k))
  {
  }

  lemma ReceivedGrows(s: Net, n: nat, k: nat, accepted: bool, time: u32)
    requires n < |s.clips| && k < |s.conns| && Incoming(s.conns[k], n) != []
    ensures Grows(s, Received(s, n, k, accepted, time))
  {
    assert Grows(s, Taken(s, n, k));
  }

  lemma DoGrows(s: Net, l: Label)
    requires Can(s, l)
    ensures Grows(s, Do(s, l))
  {
    match l
    case Recv(n, k, accepted, time) => ReceivedGrows(s, n, k, accepted, time);
    case Close(n, k) => ClosedGrows(s, n, k);
    case _ =>
  }

  lemma ParentStaysGone(s: Net, s': Net, n: nat)
    requires Grows(s, s') && Node(s, n) && ParentGone(s, n)
    ensures ParentGone(s', n)
  {
  }

  lemma ItemStays(s: Net, s': Net, n: nat, it: Item)
    requires Grows(s, s') && Node(s, n) && ItemOk(s, n, it)
    ensures ItemOk(s', n, it)
  {
    if ParentGone(s, n) {
      ParentStaysGone(s, s', n);
    }
  }

  lemma OneParentKept(s: Net, l: Label)
    requires Inv(s) && Can(s, l)
    ensures OneParentEach(Do(s, l))
  {
    DoGrows(s, l);
    forall k | 0 <= k < |s.conns|
      ensures s.conns[k].child < |s.clips|
    {
      assert ConnOk(s, k);
    }
  }

  // ----- Connections carry what can be read -----

  /** A packet the broadcaster may still send is readable at the other end of every open connection it goes to. */
  lemma SentReadable(s: Net, n: nat, k: nat)
    requires Inv(s) && Can(s, Send(n, k))
    ensures Readable(s.conns[k].child != n, s.clips[n].sending.value.msg)
  {
    assert ClipOk(s, n) && ConnOk(s, k);
    var it := s.clips[n].sending.value;
    assert ItemOk(s, n, it);
    if it.msg.Sync? && it.from.Some? {
      assert it.from.value != k;
    }
  }

  lemma ConnAfterSend(s: Net, n: nat, k: nat, j: nat)
    requires Inv(s) && Can(s, Send(n, k)) && j < |s.conns|
    ensures ConnOk(Do(s, Send(n, k)), j)
  {
    SentReadable(s, n, k);
    assert ConnOk(s, j);
  }

  lemma ConnAfterTake(s: Net, n: nat, k: nat, j: nat)
    requires Inv(s) && Node(s, n) && Open(s, n, k) && Incoming(s.conns[k], n) != [] && j < |s.conns|
    ensures ConnOk(Taken(s, n, k), j)
  {
    assert ConnOk(s, j);
  }

  lemma ConnAfterClose(s: Net, n: nat, k: nat, j: nat)
    requires n < |s.clips| && k < |s.conns| && j < |s.conns| && ConnOk(s, j)
    ensures ConnOk(Closed(s, n, k), j)
  {
  }

  lemma ConnAfterRecv(s: Net, n: nat, k: nat, accepted: bool, time: u32, j: nat)
    requires Inv(s) && Can(s, Recv(n, k, accepted, time)) && j < |s.conns|
    ensures ConnOk(Received(s, n, k, accepted, time), j)
  {
    ConnAfterTake(s, n, k, j);
    var m := Incoming(s.conns[k], n)[0];
    if !m.Sync? && !(m.Data? && m.kind == REQUEST_COPY) {
      ConnAfterClose(Taken(s, n, k), n, k, j);
    }
  }

  lemma ConnKept(s: Net, l: Label, j: nat)
    requires Inv(s) && Can(s, l) && j < |Do(s, l).conns|
    ensures ConnOk(Do(s, l), j)
  {
    if j < |s.conns| {
      assert ConnOk(s, j);
    }
    match l
    case Send(n, k) => ConnAfterSend(s, n, k, j);
    case Recv(n, k, accepted, time) => ConnAfterRecv(s, n, k, accepted, time, j);
    case Close(n, k) => ConnAfterClose(s, n, k, j);
    case InitChild(k) => ConnAfterInit(s, k, j);
    case _ =>
  }

  lemma ConnAfterInit(s: Net, k: nat, j: nat)
    requires Inv(s) && Can(s, InitChild(k)) && j < |s.conns|
    ensures ConnOk(Do(s, InitChild(k)), j)
  {
    assert ConnOk(s, j) && ConnOk(s, k);
    assert j != k ==> s.conns[j].child != s.conns[k].child;
  }

  // ----- Clipboards queue what may be sent on -----

  /** The parts of a clipboard's state are still fine in a later state. */
  lemma ClipStays(s: Net, s': Net, n: nat)
    requires Grows(s, s') && n < |s.clips| && ClipOk(s, n) && s'.clips[n] == s.clips[n]
    ensures ClipOk(s', n)
  {
    var c := s.clips[n];
    forall i | 0 <= i < |c.queue|
      ensures ItemOk(s', n, c.queue[i])
    {
      ItemStays(s, s', n, c.queue[i]);
    }
    if c.sending.Some? {
      ItemStays(s, s', n, c.sending.value);
    }
    if c.clock {
      ParentStaysGone(s, s', n);
    }
  }

  lemma ClipAfterPush(s: Net, n: nat, it: Item)
    requires n < |s.clips| && s.clips[n].ready && ClipOk(s, n) && ItemOk(s, n, it)
    ensures ClipOk(Pushed(s, n, it), n)
  {
    var s' := Pushed(s, n, it);
    assert Grows(s, s');
    forall i | 0 <= i < |s'.clips[n].queue|
      ensures ItemOk(s', n, s'.clips[n].queue[i])
    {
      ItemStays(s, s', n, s'.clips[n].queue[i]);
    }
    ClipFixed(s, s', n);
  }

  /** The parts of ClipOk that are not about the queue. */
  lemma ClipFixed(s: Net, s': Net, n: nat)
    requires Grows(s, s') && Node(s, n) && ClipOk(s, n)
    ensures s.clips[n].sending.Some? ==> ItemOk(s', n, s.clips[n].sending.value)
    ensures s.clips[n].clock ==> ParentGone(s', n)
  {
    if s.clips[n].sending.Some? {
      ItemStays(s, s', n, s.clips[n].sending.value);
    }
    if s.clips[n].clock {
      ParentStaysGone(s, s', n);
    }
  }

  /** After losing the connection to its parent a clipboard has its parent in no slot. */
  lemma LosesParent(s: Net, n: nat, k: nat)
    requires OneParentEach(s) && n < |s.clips| && k < |s.conns| && ClipOk(s, n) && s.clips[n].parentSock == Some(k)
    ensures ParentGone(Closed(s, n, k), n)
  {
    forall j | 0 <= j < |s.conns| && s.conns[j].child == n
      ensures j == k
    {
    }
  }

  lemma ClipAfterClose(s: Net, n: nat, k: nat)
    requires OneParentEach(s) && Node(s, n) && k < |s.conns| && ClipOk(s, n)
    ensures ClipOk(Closed(s, n, k), n)
  {
    var s' := Closed(s, n, k);
    assert Grows(s, s');
    forall i | 0 <= i < |s.clips[n].queue|
      ensures ItemOk(s', n, s.clips[n].queue[i])
    {
      ItemStays(s, s', n, s.clips[n].queue[i]);
    }
    ClipFixed(s, s', n);
    if s.clips[n].parentSock == Some(k) {
      LosesParent(s, n, k);
    }
  }

  lemma ClipAfterTake(s: Net, n: nat, k: nat)
    requires n < |s.clips| && k < |s.conns| && Incoming(s.conns[k], n) != [] && ClipOk(s, n)
    ensures ClipOk(Taken(s, n, k), n) && Grows(s, Taken(s, n, k))
  {
    ClipStays(s, Taken(s, n, k), n);
  }

  lemma ClipAfterRecv(s: Net, n: nat, k: nat, accepted: bool, time: u32)
    requires Inv(s) && Can(s, Recv(n, k, accepted, time))
    ensures ClipOk(Received(s, n, k, accepted, time), n)
  {
    assert ClipOk(s, n) && ConnOk(s, k);
    ClipAfterTake(s, n, k);
    var s' := Taken(s, n, k);
    var m := Incoming(s.conns[k], n)[0];
    if m.Sync? {
      if s.conns[k].child == n {
        ClipAfterPush(s', n, Item(Sync(time), Some(k)));
      }
    } else if m.Data? && m.kind == REQUEST_COPY {
      if accepted {
        ClipAfterPush(s', n, Item(m, Some(k)));
      }
    } else {
      ClipAfterClose(s', n, k);
    }
  }

  /** Changes that neither add to the queue nor gain a parent or a clock. */
  lemma ClipAfterLoss(s: Net, n: nat, c: Clip)
    requires Node(s, n) && ClipOk(s, n)
    requires c.ready && c.queue == s.clips[n].queue && c.sending == s.clips[n].sending
    requires (c.clock ==> s.clips[n].clock) && (c.parentSock.Some? ==> c.parentSock == s.clips[n].parentSock)
    ensures ClipOk(WithClip(s, n, c), n)
  {
    var s' := WithClip(s, n, c);
    assert Grows(s, s');
    forall i | 0 <= i < |s.clips[n].queue|
      ensures ItemOk(s', n, s.clips[n].queue[i])
    {
      ItemStays(s, s', n, s.clips[n].queue[i]);
    }
    ClipFixed(s, s', n);
  }

  lemma ClipAfterSend(s: Net, n: nat, k: nat)
    requires Can(s, Send(n, k)) && ClipOk(s, n)
    ensures ClipOk(Do(s, Send(n, k)), n)
  {
    var s1 := WithClip(s, n, s.clips[n].(served := s.clips[n].served + {k}));
    ClipAfterLoss(s, n, s.clips[n].(served := s.clips[n].served + {k}));
    ClipStays(s1, Do(s, Send(n, k)), n);
  }

  lemma ClipAfterBye(s: Net, n: nat)
    requires Node(s, n) && ClipOk(s, n)
    ensures ClipOk(Pushed(WithClip(s, n, s.clips[n].(phase := Leaving)), n, Item(Bye, None)), n)
  {
    ClipAfterLoss(s, n, s.clips[n].(phase := Leaving));
    ClipAfterPush(WithClip(s, n, s.clips[n].(phase := Leaving)), n, Item(Bye, None));
  }

  lemma ClipAfterLeave(s: Net, n: nat)
    requires Node(s, n) && ClipOk(s, n)
    ensures ClipOk(WithClip(s, n, s.clips[n].(parentSock := None, clock := false, phase := Left)), n)
  {
    ClipAfterLoss(s, n, s.clips[n].(parentSock := None, clock := false, phase := Left));
  }

  lemma ClipAfterInit(s: Net, k: nat)
    requires Inv(s) && Can(s, InitChild(k))
    ensures ClipOk(Do(s, InitChild(k)), s.conns[k].child)
  {
    assert ClipOk(s, s.conns[k].child);
  }

  lemma ClipAfterPop(s: Net, n: nat)
    requires Can(s, Pop(n)) && ClipOk(s, n)
    ensures ClipOk(Do(s, Pop(n)), n)
  {
    var s' := Do(s, Pop(n));
    assert Grows(s, s');
    forall i | 0 <= i < |s.clips[n].queue|
      ensures ItemOk(s', n, s.clips[n].queue[i])
    {
      ItemStays(s, s', n, s.clips[n].queue[i]);
    }
    ClipFixed(s, s', n);
  }

  /** The clipboard whose state a step may change. */
  function Actor(s: Net, l: Label): nat
    requires Can(s, l)
  {
    match l
    case Start => |s.clips|
    case Join(_, _) => |s.clips|
    case InitChild(k) => s.conns[k].child
    case Tick(n, _) => n
    case Entered(n, _) => n
    case Pop(n) => n
    case Send(n, _) => n
    case Done(n) => n
    case Recv(n, _, _, _) => n
    case Close(n, _) => n
    case SayBye(n) => n
    case Leave(n) => n
  }

  lemma OthersSame(s: Net, l: Label, n: nat)
    requires Can(s, l) && n < |s.clips| && n != Actor(s, l)
    ensures n < |Do(s, l).clips| && Do(s, l).clips[n] == s.clips[n]
  {
  }

  lemma ActorOk(s: Net, l: Label)
    requires Inv(s) && Can(s, l)
    ensures Actor(s, l) < |Do(s, l).clips| && ClipOk(Do(s, l), Actor(s, l))
  {
    DoGrows(s, l);
    match l
    case Start => NewClip(s, l);
    case Join(_, _) => NewClip(s, l);
    case InitChild(k) => ClipAfterInit(s, k);
    case Tick(n, time) => assert ClipOk(s, n); ClipAfterPush(s, n, Item(Sync(time), None));
    case Entered(n, m) => assert ClipOk(s, n); ClipAfterPush(s, n, Item(m, None));
    case Pop(n) => assert ClipOk(s, n); ClipAfterPop(s, n);
    case Send(n, k) => assert ClipOk(s, n); ClipAfterSend(s, n, k);
    case Done(n) => assert ClipOk(s, n); ClipAfterDone(s, n);
    case Recv(n, k, accepted, time) => ClipAfterRecv(s, n, k, accepted, time);
    case Close(n, k) => assert ClipOk(s, n); ClipAfterClose(s, n, k);
    case SayBye(n) => assert ClipOk(s, n); ClipAfterBye(s, n);
    case Leave(n) => assert ClipOk(s, n); ClipAfterLeave(s, n);
  }

  lemma ClipAfterDone(s: Net, n: nat)
    requires Can(s, Done(n)) && ClipOk(s, n)
    ensures ClipOk(Do(s, Done(n)), n)
  {
    var s' := Do(s, Done(n));
    assert Grows(s, s');
    forall i | 0 <= i < |s.clips[n].queue|
      ensures ItemOk(s', n, s.clips[n].queue[i])
    {
      ItemStays(s, s', n, s.clips[n].queue[i]);
    }
    ClipFixed(s, s', n);
  }

  lemma NewClip(s: Net, l: Label)
    requires Inv(s) && (l.Start? || l.Join?) && Can(s, l)
    ensures |s.clips| < |Do(s, l).clips| && ClipOk(Do(s, l), |s.clips|)
  {
    forall k | 0 <= k < |s.conns|
      ensures s.conns[k].child < |s.clips|
    {
      assert ConnOk(s, k);
    }
  }

  lemma StepKeeps(s: Net, l: Label)
    requires Inv(s) && Can(s, l)
    ensures Inv(Do(s, l))
  {
    DoGrows(s, l);
    OneParentKept(s, l);
    forall j | 0 <= j < |Do(s, l).conns|
      ensures ConnOk(Do(s, l), j)
    {
      ConnKept(s, l, j);
    }
    ActorOk(s, l);
    forall n | 0 <= n < |Do(s, l).clips| && n != Actor(s, l)
      ensures ClipOk(Do(s, l), n)
    {
      assert n < |s.clips|;
      OthersSame(s, l, n);
      assert ClipOk(s, n);
      ClipStays(s, Do(s, l), n);
    }
  }

  lemma {:induction false} Reachable(ls: seq<Label>)
    requires Runs(ls)
    ensures Inv(After(ls))
  {
    if ls != [] {
      Reachable(ls[..|ls| - 1]);
      StepKeeps(After(ls[..|ls| - 1]), ls[|ls| - 1]);
    }
  }

  // ----- The results -----

  /** Joins build a forest: every parent joined before its child, and a child has one connection upwards. */
  lemma Forest(ls: seq<Label>)
    requires Runs(ls)
    ensures var s := After(ls);
            && (forall k :: 0 <= k < |s.conns| ==> s.conns[k].parent < s.conns[k].child < |s.clips|)
            && (forall j, k :: 0 <= j < k < |s.conns| ==> s.conns[j].child != s.conns[k].child)
  {
    Reachable(ls);
    var s := After(ls);
    forall k | 0 <= k < |s.conns|
      ensures s.conns[k].parent < s.conns[k].child < |s.clips|
    {
      assert ConnOk(s, k);
    }
  }

  /** Everything under way is a goodbye, a copy with a region below ten and some data, or a sync going down. */
  lemma LinksReadable(ls: seq<Label>, k: nat, i: nat)
    requires Runs(ls) && k < |After(ls).conns|
    ensures i < |After(ls).conns[k].down| ==> Readable(true, After(ls).conns[k].down[i])
    ensures i < |After(ls).conns[k].up| ==> Readable(false, After(ls).conns[k].up[i])
  {
    Reachable(ls);
    assert ConnOk(After(ls), k);
  }

  /**
   * So the next packet of a link is one its slave takes whole, or a goodbye: it never leaves a time
   * unread, reads a length of zero, or meets a packet it does not know.
   */
  lemma SlaveInFrame(ls: seq<Label>, n: nat, k: nat, tail: seq<byte>)
    requires Runs(ls) && Node(After(ls), n) && Open(After(ls), n, k) && Incoming(After(ls).conns[k], n) != []
    ensures var m := Incoming(After(ls).conns[k], n)[0];
            ClipTurn(After(ls).conns[k].child == n, Encode(m) + tail) == if m.Bye? then Ends(tail) else Took(m, tail)
  {
    var s := After(ls);
    Reachable(ls);
    assert ConnOk(s, k);
    var m := Incoming(s.conns[k], n)[0];
    if m.Bye? {
      assert (Encode(m) + tail)[1..] == tail;
    } else {
      ClipTakes(s.conns[k].child == n, m, tail);
    }
  }
}
