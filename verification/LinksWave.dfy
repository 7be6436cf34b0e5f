/**
 * A wave of clock syncs: a clipboard with a clock can bring a sync down every open path below it
 * (src/interfaces/clipif.c:59-69, 118-148, 201-232), and then the clocks along the path are as close as
 * module Clock says.
 */
module LinksWave {
  import opened Common
  import opened Wire
  import opened Links
  import opened LinksFlow
  import Clock

  // ----- Paths -----

  /** Nothing but queues, send loops and what is under way differs. */
  ghost predicate SameShape(s: Net, s': Net) {
    && |s'.clips| == |s.clips| && |s'.conns| == |s.conns|
    && (forall n :: 0 <= n < |s.clips| ==>
          && s'.clips[n].ready == s.clips[n].ready && s'.clips[n].phase == s.clips[n].phase
          && s'.clips[n].clock == s.clips[n].clock)
    && (forall k :: 0 <= k < |s.conns| ==>
          && s'.conns[k].parent == s.conns[k].parent && s'.conns[k].child == s.conns[k].child
          && s'.conns[k].atParent == s.conns[k].atParent && s'.conns[k].atChild == s.conns[k].atChild)
  }

  lemma ShapeTrans(a: Net, b: Net, c: Net)
    requires SameShape(a, b) && SameShape(b, c)
    ensures SameShape(a, c)
  {
  }

  /** Connection `k` is open at both ends, below clipboard `n`, which has not said goodbye. */
  predicate Step(s: Net, n: nat, k: nat) {
    && Node(s, n) && s.clips[n].phase.Staying?
    && k < |s.conns| && s.conns[k].parent == n && s.conns[k].atParent && s.conns[k].atChild
    && Node(s, s.conns[k].child)
  }

  /** The connections `ks` lead from clipboard `n` down. */
  predicate Path(s: Net, n: nat, ks: seq<nat>)
    decreases |ks|
  {
    Node(s, n) && (ks == [] || (Step(s, n, ks[0]) && Path(s, s.conns[ks[0]].child, ks[1..])))
  }

  lemma {:induction false} PathStays(s: Net, s': Net, n: nat, ks: seq<nat>)
    requires SameShape(s, s') && Path(s, n, ks)
    ensures Path(s', n, ks)
    decreases |ks|
  {
    if ks != [] {
      PathStays(s, s', s.conns[ks[0]].child, ks[1..]);
    }
  }

  // ----- One clipboard sends out all it has queued -----

  function Away(s: Net, n: nat, k: nat): seq<Msg>
    requires k < |s.conns|
  {
    if s.conns[k].child == n then s.conns[k].up else s.conns[k].down
  }

  /** Only clipboard `n` and what it puts on its connections has changed. */
  ghost predicate OnlyFrom(s: Net, s': Net, n: nat) {
    && SameShape(s, s')
    && forall j :: 0 <= j < |s.clips| && j != n ==> s'.clips[j] == s.clips[j]
  }

  lemma OnlyTrans(a: Net, b: Net, c: Net, n: nat)
    requires OnlyFrom(a, b, n) && OnlyFrom(b, c, n)
    ensures OnlyFrom(a, c, n)
  {
  }

  /** What waits to be sent on connection `k` of the packet in hand. */
  function Waiting(s: Net, n: nat, k: nat): seq<Msg>
    requires n < |s.clips|
  {
    if Awaits(s, n, k) then [s.clips[n].sending.value.msg] else []
  }

  function Unserved(s: Net, n: nat): set<nat>
    requires n < |s.clips|
  {
    set k | 0 <= k < |s.conns| && Awaits(s, n, k)
  }

  lemma SendOne(s: Net, n: nat, k: nat)
    requires Node(s, n) && Awaits(s, n, k)
    ensures Can(s, Send(n, k)) && PutOut(s, Do(s, Send(n, k)), n)
    ensures Unserved(Do(s, Send(n, k)), n) == Unserved(s, n) - {k}
  {
    var s' := Do(s, Send(n, k));
    forall j: nat | j < |s.conns|
      ensures Awaits(s', n, j) <==> Awaits(s, n, j) && j != k
    {
    }
  }

  /** From `s` to `s'` clipboard `n` has put on its connections what waited for them, and no more. */
  ghost predicate PutOut(s: Net, s': Net, n: nat) {
    && OnlyFrom(s, s', n) && n < |s.clips| && s'.clips[n].queue == s.clips[n].queue
    && forall j :: 0 <= j < |s.conns| ==>
         Away(s', n, j) + Waiting(s', n, j) == Away(s, n, j) + Waiting(s, n, j)
  }

  lemma PutOutTrans(a: Net, b: Net, c: Net, n: nat)
    requires PutOut(a, b, n) && PutOut(b, c, n)
    ensures PutOut(a, c, n)
  {
    OnlyTrans(a, b, c, n);
  }

  lemma DonePutsOut(s: Net, n: nat)
    requires Node(s, n) && s.clips[n].sending.Some? && Unserved(s, n) == {}
    ensures Can(s, Done(n)) && PutOut(s, Do(s, Done(n)), n) && Do(s, Done(n)).clips[n].sending.None?
  {
    forall k: nat | k < |s.conns|
      ensures !Awaits(s, n, k)
    {
      assert k !in Unserved(s, n);
    }
  }

  /** The packet in hand goes out on every connection it has to. */
  lemma {:induction false} FinishItem(ls: seq<Label>, n: nat) returns (more: seq<Label>)
    requires Runs(ls) && Node(After(ls), n) && After(ls).clips[n].sending.Some?
    ensures ls <= more && Runs(more) && PutOut(After(ls), After(more), n) && After(more).clips[n].sending.None?
    decreases |Unserved(After(ls), n)|
  {
    if Unserved(After(ls), n) == {} {
      DonePutsOut(After(ls), n);
      more := Extend(ls, Done(n));
    } else {
      var k :| k in Unserved(After(ls), n);
      SendOne(After(ls), n, k);
      var longer := Extend(ls, Send(n, k));
      more := FinishItem(longer, n);
      PutOutTrans(After(ls), After(longer), After(more), n);
    }
  }

  lemma NothingWaits(s: Net, n: nat, k: nat)
    requires n < |s.clips| && s.clips[n].sending.None? && k < |s.conns|
    ensures Away(s, n, k) + Waiting(s, n, k) == Away(s, n, k)
  {
  }

  lemma PopOne(s: Net, n: nat)
    requires Node(s, n) && s.clips[n].sending.None? && s.clips[n].queue != []
    ensures Can(s, Pop(n)) && OnlyFrom(s, Do(s, Pop(n)), n)
    ensures var s' := Do(s, Pop(n));
            && s'.clips[n].sending == Some(s.clips[n].queue[0]) && s'.clips[n].queue == s.clips[n].queue[1..]
            && (forall j :: 0 <= j < |s.conns| ==> Away(s', n, j) == Away(s, n, j))
            && (forall j: nat :: Open(s, n, j) && s.clips[n].queue[0].from != Some(j) ==> Awaits(s', n, j))
  {
  }

  /** The first packet queued goes out. */
  lemma NextItem(ls: seq<Label>, n: nat, k: nat) returns (more: seq<Label>)
    requires Runs(ls) && Node(After(ls), n) && After(ls).clips[n].sending.None? && After(ls).clips[n].queue != []
    requires Open(After(ls), n, k)
    ensures ls <= more && Runs(more) && OnlyFrom(After(ls), After(more), n)
    ensures After(more).clips[n].sending.None? && After(more).clips[n].queue == After(ls).clips[n].queue[1..]
    ensures After(ls).clips[n].queue[0].from != Some(k) ==>
              Away(After(more), n, k) == Away(After(ls), n, k) + [After(ls).clips[n].queue[0].msg]
  {
    var s := After(ls);
    PopOne(s, n);
    var popped := Extend(ls, Pop(n));
    more := FinishItem(popped, n);
    OnlyTrans(s, After(popped), After(more), n);
    NothingWaits(After(more), n, k);
  }

  /** The last packet queued is this one, and not from connection `k`. */
  predicate LastIs(q: seq<Item>, msg: Msg, k: nat) {
    q != [] && q[|q| - 1].msg == msg && q[|q| - 1].from != Some(k)
  }

  predicate Ends(ms: seq<Msg>, msg: Msg) {
    ms != [] && ms[|ms| - 1] == msg
  }

  /** Everything queued goes out, the last packet last. */
  lemma {:induction false} Drain(ls: seq<Label>, n: nat, k: nat, msg: Msg) returns (more: seq<Label>)
    requires Runs(ls) && Node(After(ls), n) && After(ls).clips[n].sending.None?
    requires LastIs(After(ls).clips[n].queue, msg, k) && Open(After(ls), n, k)
    ensures ls <= more && Runs(more) && OnlyFrom(After(ls), After(more), n)
    ensures k < |After(more).conns| && Ends(Away(After(more), n, k), msg)
    decreases |After(ls).clips[n].queue|
  {
    var next := NextItem(ls, n, k);
    if |After(ls).clips[n].queue| == 1 {
      more := next;
    } else {
      more := Drain(next, n, k, msg);
      OnlyTrans(After(ls), After(next), After(more), n);
    }
  }

  /** With a packet in hand it finishes that first. */
  lemma DrainAll(ls: seq<Label>, n: nat, k: nat, msg: Msg) returns (more: seq<Label>)
    requires Runs(ls) && Node(After(ls), n) && LastIs(After(ls).clips[n].queue, msg, k) && Open(After(ls), n, k)
    ensures ls <= more && Runs(more) && OnlyFrom(After(ls), After(more), n)
    ensures k < |After(more).conns| && Ends(Away(After(more), n, k), msg)
  {
    if After(ls).clips[n].sending.Some? {
      var ready := FinishItem(ls, n);
      more := Drain(ready, n, k, msg);
      OnlyTrans(After(ls), After(ready), After(more), n);
    } else {
      more := Drain(ls, n, k, msg);
    }
  }

  // ----- The child takes it all -----

  /** At step `i` clipboard `n` takes a sync to `told` from its parent and queues one to `time`. */
  ghost predicate TakesSync(ls: seq<Label>, i: nat, n: nat, k: nat, told: u32, time: u32) {
    && i < |ls| && Runs(ls[..i]) && Can(After(ls[..i]), ls[i])
    && ls[i].Recv? && ls[i].n == n && ls[i].k == k && ls[i].time == time
    && k < |After(ls[..i]).conns| && After(ls[..i]).conns[k].child == n
    && Front(After(ls[..i]), n, k) == Some(Sync(told))
  }

  lemma TakesSyncLater(ls: seq<Label>, longer: seq<Label>, i: nat, n: nat, k: nat, told: u32, time: u32)
    requires TakesSync(ls, i, n, k, told, time) && ls <= longer
    ensures TakesSync(longer, i, n, k, told, time)
  {
    assert longer[..i] == ls[..i] && longer[i] == ls[i];
  }

  lemma CanTake(ls: seq<Label>, k: nat, time: u32)
    requires Runs(ls) && k < |After(ls).conns| && Step(After(ls), After(ls).conns[k].parent, k)
    requires After(ls).conns[k].down != []
    ensures Can(After(ls), Recv(After(ls).conns[k].child, k, false, time))
    ensures Front(After(ls), After(ls).conns[k].child, k) == Some(After(ls).conns[k].down[0])
    ensures After(ls).conns[k].down[0] != Bye && Readable(true, After(ls).conns[k].down[0])
  {
    var s := After(ls);
    Reachable(ls);
    StayersAreSilent(ls);
    assert ConnOk(s, k) && LinkSilent(s, k);
    assert Open(s, s.conns[k].child, k);
  }

  /** What the child does with the first packet of a link whose parent has not said goodbye. */
  lemma TakeOne(s: Net, k: nat, time: u32)
    requires k < |s.conns| && s.conns[k].down != []
    requires Can(s, Recv(s.conns[k].child, k, false, time))
    requires s.conns[k].down[0] != Bye && Readable(true, s.conns[k].down[0])
    ensures var s' := Do(s, Recv(s.conns[k].child, k, false, time)); var n := s.conns[k].child;
            && SameShape(s, s') && s'.conns[k].down == s.conns[k].down[1..]
            && s'.clips[n].queue == s.clips[n].queue +
                 if s.conns[k].down[0].Sync? then [Item(Sync(time), Some(k))] else []
  {
  }

  /** A sync at the front. */
  lemma TakeLast(ls: seq<Label>, k: nat, told: u32, time: u32) returns (more: seq<Label>)
    requires Runs(ls) && k < |After(ls).conns| && Step(After(ls), After(ls).conns[k].parent, k)
    requires After(ls).conns[k].down == [Sync(told)]
    ensures ls <= more && |more| > |ls| && Runs(more) && SameShape(After(ls), After(more))
    ensures TakesSync(more, |more| - 1, After(ls).conns[k].child, k, told, time)
    ensures var q := After(more).clips[After(ls).conns[k].child].queue;
            q != [] && q[|q| - 1] == Item(Sync(time), Some(k))
  {
    CanTake(ls, k, time);
    TakeOne(After(ls), k, time);
    more := Extend(ls, Recv(After(ls).conns[k].child, k, false, time));
    assert more[..|ls|] == ls;
  }

  lemma StepStays(s: Net, s': Net, n: nat, k: nat)
    requires SameShape(s, s') && Step(s, n, k)
    ensures Step(s', n, k) && s'.conns[k].child == s.conns[k].child && s'.conns[k].parent == n
  {
  }

  lemma TakeNext(ls: seq<Label>, k: nat) returns (next: seq<Label>)
    requires Runs(ls) && k < |After(ls).conns| && Step(After(ls), After(ls).conns[k].parent, k)
    requires After(ls).conns[k].down != []
    ensures ls <= next && |next| == |ls| + 1 && Runs(next) && SameShape(After(ls), After(next))
    ensures After(next).conns[k].down == After(ls).conns[k].down[1..]
  {
    CanTake(ls, k, 0);
    TakeOne(After(ls), k, 0);
    next := Extend(ls, Recv(After(ls).conns[k].child, k, false, 0));
  }

  /** Clipboard `n` has taken the sync at the end of the run, and queued its own. */
  ghost predicate JustTook(ls: seq<Label>, n: nat, k: nat, told: u32, time: u32)
    requires Runs(ls) && n < |After(ls).clips|
  {
    && ls != [] && TakesSync(ls, |ls| - 1, n, k, told, time)
    && var q := After(ls).clips[n].queue; q != [] && q[|q| - 1] == Item(Sync(time), Some(k))
  }

  /** The child takes all that is under way to it; last, the sync. */
  lemma {:induction false} TakeAll(ls: seq<Label>, n: nat, k: nat, told: u32, time: u32) returns (more: seq<Label>)
    requires Runs(ls) && k < |After(ls).conns| && Step(After(ls), After(ls).conns[k].parent, k)
    requires n == After(ls).conns[k].child && Ends(After(ls).conns[k].down, Sync(told))
    ensures ls <= more && |more| > |ls| && Runs(more) && SameShape(After(ls), After(more))
    ensures n < |After(more).clips| && JustTook(more, n, k, told, time)
    decreases |After(ls).conns[k].down|
  {
    if |After(ls).conns[k].down| == 1 {
      more := TakeLast(ls, k, told, time);
    } else {
      var next := TakeNextOf(ls, n, k, told);
      more := TakeAll(next, n, k, told, time);
      ShapeTrans(After(ls), After(next), After(more));
    }
  }

  /** One of several packets under way is taken, the last of them not yet. */
  lemma TakeNextOf(ls: seq<Label>, n: nat, k: nat, told: u32) returns (next: seq<Label>)
    requires Runs(ls) && k < |After(ls).conns| && Step(After(ls), After(ls).conns[k].parent, k)
    requires n == After(ls).conns[k].child && Ends(After(ls).conns[k].down, Sync(told))
    requires |After(ls).conns[k].down| > 1
    ensures ls <= next && |next| == |ls| + 1 && Runs(next) && SameShape(After(ls), After(next))
    ensures Step(After(next), After(next).conns[k].parent, k) && n == After(next).conns[k].child
    ensures Ends(After(next).conns[k].down, Sync(told))
    ensures |After(next).conns[k].down| == |After(ls).conns[k].down| - 1
  {
    next := TakeNext(ls, k);
    StepStays(After(ls), After(next), After(ls).conns[k].parent, k);
  }

  // ----- Down the path -----

  /** Steps `at` of the run are the path's takes, each child told what the one above it queued. */
  ghost predicate Wave(ls: seq<Label>, s: Net, ks: seq<nat>, times: seq<u32>, at: seq<nat>) {
    && |times| == |ks| + 1 && |at| == |ks|
    && (forall i, j :: 0 <= i < j < |at| ==> at[i] < at[j])
    && (forall i :: 0 <= i < |ks| ==>
          ks[i] < |s.conns| && TakesSync(ls, at[i], s.conns[ks[i]].child, ks[i], times[i], times[i + 1]))
  }

  lemma OtherConn(ls: seq<Label>, k: nat, ks: seq<nat>)
    requires Runs(ls) && k < |After(ls).conns| && ks != [] && Step(After(ls), After(ls).conns[k].child, ks[0])
    ensures ks[0] != k
  {
    Reachable(ls);
    assert ConnOk(After(ls), k);
  }

  /** One hop: what is queued goes out, and the child takes it. */
  lemma Hop(ls: seq<Label>, n: nat, k: nat, told: u32, time: u32) returns (taken: seq<Label>)
    requires Runs(ls) && Step(After(ls), n, k) && LastIs(After(ls).clips[n].queue, Sync(told), k)
    ensures ls <= taken && |ls| < |taken| && Runs(taken) && SameShape(After(ls), After(taken))
    ensures After(ls).conns[k].child < |After(taken).clips|
    ensures JustTook(taken, After(ls).conns[k].child, k, told, time)
  {
    var sent := DrainAll(ls, n, k, Sync(told));
    StepStays(After(ls), After(sent), n, k);
    DownIsAway(ls, sent, n, k);
    taken := TakeAll(sent, After(ls).conns[k].child, k, told, time);
    ShapeTrans(After(ls), After(sent), After(taken));
  }

  lemma {:induction false} Relay(ls: seq<Label>, n: nat, ks: seq<nat>, times: seq<u32>)
    returns (more: seq<Label>, at: seq<nat>)
    requires Runs(ls) && Path(After(ls), n, ks) && |times| == |ks| + 1
    requires ks != [] ==> LastIs(After(ls).clips[n].queue, Sync(times[0]), ks[0])
    ensures ls <= more && Runs(more) && SameShape(After(ls), After(more))
    ensures Wave(more, After(ls), ks, times, at) && forall i :: 0 <= i < |at| ==> |ls| <= at[i]
    decreases |ks|
  {
    if ks == [] {
      more, at := ls, [];
    } else {
      var k, child := ks[0], After(ls).conns[ks[0]].child;
      var taken := Hop(ls, n, k, times[0], times[1]);
      PathStays(After(ls), After(taken), n, ks);
      if ks[1..] != [] {
        OtherConn(taken, k, ks[1..]);
      }
      var rest;
      more, rest := Relay(taken, child, ks[1..], times[1..]);
      ShapeTrans(After(ls), After(taken), After(more));
      at := [|taken| - 1] + rest;
      WaveGrows(taken, more, After(ls), After(taken), ks, times, rest);
    }
  }

  lemma DownIsAway(ls: seq<Label>, sent: seq<Label>, n: nat, k: nat)
    requires Runs(ls) && Runs(sent) && SameShape(After(ls), After(sent)) && Step(After(ls), n, k)
    ensures k < |After(sent).conns| && Away(After(sent), n, k) == After(sent).conns[k].down
  {
    Reachable(ls);
    assert ConnOk(After(ls), k);
  }

  lemma WaveGrows(
    taken: seq<Label>, more: seq<Label>, s: Net, s': Net, ks: seq<nat>, times: seq<u32>, rest: seq<nat>)
    requires ks != [] && |times| == |ks| + 1 && SameShape(s, s') && taken <= more && |taken| > 0
    requires ks[0] < |s.conns|
    requires TakesSync(taken, |taken| - 1, s.conns[ks[0]].child, ks[0], times[0], times[1])
    requires Wave(more, s', ks[1..], times[1..], rest) && forall i :: 0 <= i < |rest| ==> |taken| <= rest[i]
    ensures Wave(more, s, ks, times, [|taken| - 1] + rest)
  {
    var at := [|taken| - 1] + rest;
    TakesSyncLater(taken, more, |taken| - 1, s.conns[ks[0]].child, ks[0], times[0], times[1]);
    forall i | 0 <= i < |ks|
      ensures ks[i] < |s.conns| && TakesSync(more, at[i], s.conns[ks[i]].child, ks[i], times[i], times[i + 1])
    {
      if i > 0 {
        assert ks[1..][i - 1] == ks[i] && times[1..][i - 1] == times[i] && times[1..][i] == times[i + 1];
      }
    }
  }

  /**
   * A wave: from every reachable state, a clipboard with a clock can tick and its sync go down any open
   * path of clipboards that stay, each of them told what the one above it made of the sync.
   */
  lemma WaveComes(ls: seq<Label>, top: nat, ks: seq<nat>, times: seq<u32>)
    returns (more: seq<Label>, at: seq<nat>)
    requires Runs(ls) && Path(After(ls), top, ks) && After(ls).clips[top].clock && |times| == |ks| + 1
    ensures ls <= more && Runs(more) && |ls| < |more| && more[|ls|] == Tick(top, times[0])
    ensures Wave(more, After(ls), ks, times, at) && forall i :: 0 <= i < |at| ==> |ls| < at[i]
  {
    var ticked := Extend(ls, Tick(top, times[0]));
    assert SameShape(After(ls), After(ticked));
    PathStays(After(ls), After(ticked), top, ks);
    more, at := Relay(ticked, top, ks, times);
    assert more[|ls|] == ticked[|ls|];
    SameWave(more, After(ticked), After(ls), ks, times, at);
  }

  lemma SameWave(ls: seq<Label>, s: Net, s': Net, ks: seq<nat>, times: seq<u32>, at: seq<nat>)
    requires Wave(ls, s, ks, times, at) && SameShape(s, s')
    ensures Wave(ls, s', ks, times, at)
  {
  }

  // ----- And the clocks -----

  /** The times on the path: what each clipboard's clock shows when it sends the sync on. */
  function Told(chain: seq<Clock.Node>, last: u32): (times: seq<u32>)
    requires chain != []
    ensures |times| == |chain|
  {
    seq(|chain|, i requires 0 <= i < |chain| =>
      if i == |chain| - 1 then last else Clock.NetAt(chain[i], chain[i + 1].sent))
  }

  /**
   * For every chain of clocks that syncs can make, some wave down the path carries just these syncs, and
   * at any time after the last is applied its clocks are within the chain's bound.
   */
  lemma WaveSyncs(
    ls: seq<Label>, top: nat, ks: seq<nat>, chain: seq<Clock.Node>, last: u32, l: nat, d: nat, at: real)
    returns (more: seq<Label>, steps: seq<nat>)
    requires Runs(ls) && Path(After(ls), top, ks) && After(ls).clips[top].clock && |chain| == |ks| + 1
    requires forall i :: 0 < i < |chain| ==> Clock.SyncedBy(chain[i - 1], chain[i], l, d)
    requires at >= chain[|ks|].got
    ensures ls <= more && Runs(more) && |ls| < |more| && more[|ls|] == Tick(top, Told(chain, last)[0])
    ensures Wave(more, After(ls), ks, Told(chain, last), steps)
    ensures Clock.Within(Clock.NetAt(chain[|ks|], at), Clock.NetAt(chain[0], at), |ks| * (Clock.Max(l, d) + 1))
  {
    more, steps := WaveComes(ls, top, ks, Told(chain, last));
    Clock.ChainBound(chain, |ks|, l, d, at);
  }

  /** Such chains exist: whatever the parent's clock, a sync of these times and this credit can follow. */
  lemma SyncFollows(parent: Clock.Node, phase: real, sent: real, got: real, delay: nat, l: nat, d: nat)
    returns (child: Clock.Node)
    requires parent.got <= sent <= got <= sent + l as real && delay <= d
    ensures Clock.SyncedBy(parent, child, l, d) && child.phase == phase && child.sent == sent && child.got == got
  {
    var offset := Clock.Offset(Clock.Reading(phase, got), Clock.Wrap(Clock.NetAt(parent, sent) + delay));
    child := Clock.Node(phase, offset, sent, got, delay);
  }
}
