/** The region behaves like an atomic register: what every reachable state of RegionMachine keeps. */
module RegionLinear {
  import opened Common
  import opened Clmem
  import opened RegionMachine
  import RwLock

  // ----- The invariant -----

  /** Where in the lock a thread can be while it does what it does. */
  predicate BodyFits(b: Body, p: RwLock.Pc) {
    match b
    case Out => p.Idle?
    case Getting(_, _) => p.WantIn? || p.CountIn? || p.TestIn? || p.WaitIn? || p.LeaveIn? || p.Reading?
    case Copying(_, _, _, _, _) => p.Reading?
    case Putting(_, _, _, _) => p.WantWrite? || p.Writing?
    case Refused(_, _, _, _, _) => p.Writing?
    case Taking(_, _, _, _, _, _) => p.Writing?
    case Leaving(_, _, _, _, _) =>
      p.WantOut? || p.CountOut? || p.TestOut? || p.PostOut? || p.LeaveOut? || p.WantPost? || p.Idle?
  }

  predicate Fits(s: Region, t: nat) {
    t in s.body && t in s.lock.pc && BodyFits(s.body[t], s.lock.pc[t])
  }

  ghost predicate LockPart(s: Region) {
    RwLock.Inv(s.lock) && s.body.Keys == s.lock.pc.Keys && forall t :: t in s.body ==> Fits(s, t)
  }

  /** The buffer only this thread knows. */
  function Private(b: Body): Option<nat> {
    match b
    case Putting(buf, _, _, _) => Some(buf)
    case Refused(buf, _, _, _, _) => Some(buf)
    case Taking(stage, buf, _, _, _, _) => if stage.FreeOld? || stage.SetData? then Some(buf) else None
    case Leaving(_, _, trash, _, _) => trash
    case _ => None
  }

  predicate PrivateOk(s: Region, b: Body) {
    Private(b).Some? ==>
      && Private(b).value in s.heap
      && s.data != Private(b)
      && (b.Putting? || b.Taking? ==> s.heap[Private(b).value] == b.data)
  }

  ghost predicate HeapPart(s: Region) {
    && (forall k :: k in s.heap ==> k < s.next)
    && (s.data.Some? ==> s.data.value < s.next)
    && (forall t :: t in s.body ==> PrivateOk(s, s.body[t]))
    && (forall t, u :: t in s.body && u in s.body && t != u && Private(s.body[t]).Some? ==>
          Private(s.body[t]) != Private(s.body[u]))
  }

  /** The zone's three fields and its buffer hold what the register holds. */
  predicate Matches(s: Region, z: Zone) {
    match z.data
    case None => s.data.None? && s.size == 0
    case Some(d) =>
      && s.data.Some? && s.data.value in s.heap && s.heap[s.data.value] == d
      && s.size == |d| && s.stamp == z.stamp
  }

  /** How far the thread that is replacing the zone's contents has come. */
  predicate TakingOk(s: Region, b: Body)
    requires b.Taking?
  {
    && Replay(s.log) == PutZone(b.data, b.stamp)
    && match b.stage
       case FreeOld => s.data.Some? ==> s.data.value in s.heap
       case SetData => true
       case SetSize => HoldsBuf(s, b.buf, b.data)
       case SetStamp => HoldsBuf(s, b.buf, b.data) && s.size == |b.data|
       case TakeDone => Matches(s, Replay(s.log))
  }

  predicate HoldsBuf(s: Region, buf: nat, data: seq<byte>) {
    s.data == Some(buf) && buf in s.heap && s.heap[buf] == data
  }

  ghost predicate NobodyTakes(s: Region) {
    forall t :: t in s.body ==> !s.body[t].Taking?
  }

  ghost predicate ZonePart(s: Region) {
    && (NobodyTakes(s) ==> Matches(s, Replay(s.log)))
    && (forall t :: t in s.body && s.body[t].Taking? ==> TakingOk(s, s.body[t]))
  }

  /** A reader in the middle of its copy holds a prefix of what the register answers. */
  predicate CopyOk(s: Region, b: Body)
    requires b.Copying?
  {
    var d := GetZone(Replay(s.log), b.size);
    b.n == |d| && |b.got| <= b.n && b.got == d[..|b.got|]
      && b.at < |s.log| && s.log[b.at].result == Bytes(d)
  }

  ghost predicate CopyPart(s: Region) {
    forall t :: t in s.body && s.body[t].Copying? ==> CopyOk(s, s.body[t])
  }

  function CallOf(b: Body): Call
    requires !b.Out?
  {
    match b
    case Getting(size, _) => Get(size)
    case Copying(size, _, _, _, _) => Get(size)
    case Putting(_, data, stamp, _) => Put(data, stamp)
    case Refused(_, data, stamp, _, _) => Put(data, stamp)
    case Taking(_, _, data, stamp, _, _) => Put(data, stamp)
    case Leaving(call, _, _, _, _) => call
  }

  predicate Logged(b: Body) {
    b.Copying? || b.Refused? || b.Taking? || b.Leaving?
  }

  /** A call in progress has its log entry, if it has one already, after the call began. */
  predicate LogOk(s: Region, t: nat, b: Body) {
    && (!b.Out? ==> b.start <= |s.log|)
    && (Logged(b) ==>
          && b.start <= b.at < |s.log|
          && s.log[b.at].tid == t && s.log[b.at].call == CallOf(b)
          && (b.Refused? ==> s.log[b.at].result == Placed(0))
          && (b.Taking? ==> s.log[b.at].result == Placed(|b.data|))
          && (b.Leaving? ==> s.log[b.at].result == b.result))
  }

  predicate FinishedOk(s: Region, f: Finished) {
    f.start <= f.at < f.end <= |s.log| && s.log[f.at] == Event(f.tid, f.call, f.result)
  }

  /** A thread makes one call at a time. */
  ghost predicate OneAtATime(s: Region) {
    && (forall i, j :: 0 <= i < j < |s.done| && s.done[i].tid == s.done[j].tid ==> s.done[i].end <= s.done[j].start)
    && (forall i :: 0 <= i < |s.done| && s.done[i].tid in s.body && !s.body[s.done[i].tid].Out? ==>
          s.done[i].end <= s.body[s.done[i].tid].start)
  }

  ghost predicate LogPart(s: Region) {
    && Sequential(s.log)
    && (forall t :: t in s.body ==> LogOk(s, t, s.body[t]))
    && (forall i :: 0 <= i < |s.done| ==> FinishedOk(s, s.done[i]))
    && OneAtATime(s)
  }

  ghost predicate Inv(s: Region) {
    LockPart(s) && HeapPart(s) && ZonePart(s) && CopyPart(s) && LogPart(s)
  }

  lemma InitInv(s: Region)
    requires Init(s)
    ensures Inv(s)
  {
    RwLock.InitInv(s.lock);
  }

  // ----- What the lock gives -----

  /** While one thread is inside for writing no other thread is inside at all. */
  lemma WriterAlone(s: Region, t: nat, u: nat)
    requires LockPart(s) && t in s.body && u in s.body && t != u && s.lock.pc[t].Writing?
    ensures !s.lock.pc[u].Writing? && !s.lock.pc[u].Reading?
    ensures !s.body[u].Copying? && !s.body[u].Refused? && !s.body[u].Taking?
  {
    assert Fits(s, u);
    assert t in RwLock.WritersIn(s.lock);
    if s.lock.pc[u].Writing? {
      RwLock.TwoWriters(s.lock, t, u);
    }
    if s.lock.pc[u].Reading? {
      RwLock.ReaderExcludes(s.lock, u);
    }
  }

  lemma ReaderSeesNoTaker(s: Region, t: nat)
    requires LockPart(s) && t in s.body && s.lock.pc[t].Reading?
    ensures NobodyTakes(s)
  {
    forall u | u in s.body
      ensures !s.body[u].Taking?
    {
      assert Fits(s, u) && Fits(s, t);
      if s.body[u].Taking? {
        WriterAlone(s, u, t);
      }
    }
  }

  lemma WriterIsTheTaker(s: Region, t: nat)
    requires LockPart(s) && t in s.body && s.lock.pc[t].Writing? && !s.body[t].Taking?
    ensures NobodyTakes(s)
  {
    forall u | u in s.body
      ensures !s.body[u].Taking?
    {
      if u != t {
        WriterAlone(s, t, u);
      }
    }
  }

  // ----- What a step leaves alone -----

  /** The lock statement a move consists of, if any. */
  function OpOf(m: Move): Option<RwLock.Op> {
    match m
    case CallGet(_) => Some(RwLock.BeginRead)
    case CallPut(_, _) => Some(RwLock.BeginWrite)
    case LockStep => Some(RwLock.Advance)
    case DoneGet => Some(RwLock.EndSection)
    case DonePut => Some(RwLock.EndSection)
    case _ => None
  }

  lemma DoFrame(s: Region, t: nat, m: Move)
    requires Can(s, t, m)
    ensures var s' := Do(s, t, m);
            && s'.body.Keys == s.body.Keys && s'.body == s.body[t := s'.body[t]]
            && (if OpOf(m).Some? then
                  RwLock.Can(s.lock, t, OpOf(m).value) && s'.lock == RwLock.Do(s.lock, t, OpOf(m).value)
                else s'.lock == s.lock)
            && (m.LockStep? ==> s'.body == s.body)
  {
  }

  lemma LockFrame(s: Region, t: nat, m: Move)
    requires Can(s, t, m)
    ensures var s' := Do(s, t, m);
            s'.lock.pc.Keys == s.lock.pc.Keys && s'.lock.pc == s.lock.pc[t := s'.lock.pc[t]]
  {
    DoFrame(s, t, m);
    if OpOf(m).Some? {
      RwLock.DoFrame(s.lock, t, OpOf(m).value);
    }
  }

  // ----- LockPart -----

  lemma OwnFits(s: Region, t: nat, m: Move)
    requires Can(s, t, m) && Fits(s, t)
    ensures Fits(Do(s, t, m), t)
  {
  }

  lemma LockPartKept(s: Region, t: nat, m: Move)
    requires LockPart(s) && Can(s, t, m)
    ensures LockPart(Do(s, t, m))
  {
    DoFrame(s, t, m);
    LockFrame(s, t, m);
    if OpOf(m).Some? {
      RwLock.InvKept(s.lock, t, OpOf(m).value);
    }
    OwnFits(s, t, m);
    forall u | u in s.body && u != t
      ensures Fits(Do(s, t, m), u)
    {
      assert Fits(s, u);
    }
  }

  // ----- HeapPart -----

  /** Moves that leave zone and heap alone, and the private buffer of their thread. */
  predicate LeavesHeap(m: Move) {
    !m.CallPut? && !m.Assign? && !m.Return?
  }

  lemma HeapFrame(s: Region, t: nat, m: Move)
    requires Can(s, t, m) && LeavesHeap(m)
    ensures var s' := Do(s, t, m);
            && s'.heap == s.heap && s'.data == s.data && s'.next == s.next && s'.size == s.size && s'.stamp == s.stamp
            && Private(s'.body[t]) == (if m.DonePut? && s.body[t].Taking? then None else Private(s.body[t]))
            && (Private(s'.body[t]).Some? && (s'.body[t].Putting? || s'.body[t].Taking?) ==>
                  s'.body[t].data == s.body[t].data && (s.body[t].Putting? || s.body[t].Taking?))
  {
  }

  ghost predicate Apart(s: Region, t: nat, u: nat) {
    t in s.body && u in s.body && t != u && Private(s.body[t]).Some? ==> Private(s.body[t]) != Private(s.body[u])
  }

  /** HeapPart as facts about one or two threads. */
  ghost predicate HeapFacts(s: Region) {
    && (forall k :: k in s.heap ==> k < s.next)
    && (s.data.Some? ==> s.data.value < s.next)
  }

  lemma FactsKept(s: Region, t: nat, m: Move)
    requires Can(s, t, m) && HeapFacts(s) && PrivateOk(s, s.body[t])
    ensures HeapFacts(Do(s, t, m))
  {
    if LeavesHeap(m) {
      HeapFrame(s, t, m);
    }
  }

  lemma OthersPrivateKept(s: Region, t: nat, m: Move, u: nat)
    requires Can(s, t, m) && HeapFacts(s) && u in s.body && u != t
    requires PrivateOk(s, s.body[t]) && PrivateOk(s, s.body[u]) && Apart(s, u, t)
    ensures PrivateOk(Do(s, t, m), Do(s, t, m).body[u])
  {
    DoFrame(s, t, m);
    if LeavesHeap(m) {
      HeapFrame(s, t, m);
    }
  }

  lemma OwnPrivateKept(s: Region, t: nat, m: Move)
    requires Can(s, t, m) && HeapFacts(s) && PrivateOk(s, s.body[t])
    ensures PrivateOk(Do(s, t, m), Do(s, t, m).body[t])
  {
    if LeavesHeap(m) {
      HeapFrame(s, t, m);
    } else if m.Assign? {
      OwnPrivateAssign(s, t);
    }
  }

  lemma OwnPrivateAssign(s: Region, t: nat)
    requires Can(s, t, Assign) && PrivateOk(s, s.body[t])
    ensures PrivateOk(Do(s, t, Assign), Do(s, t, Assign).body[t])
  {
  }

  /** A move gives its thread no private buffer but its own old one, or a new one. */
  lemma PrivateComes(s: Region, t: nat, m: Move)
    requires Can(s, t, m)
    ensures var p := Private(Do(s, t, m).body[t]);
            p.Some? ==> p == Private(s.body[t]) || (m.CallPut? && p.value == s.next)
  {
    if LeavesHeap(m) {
      HeapFrame(s, t, m);
    }
  }

  lemma ApartKept(s: Region, t: nat, m: Move, u: nat, v: nat)
    requires Can(s, t, m) && HeapFacts(s) && u in s.body && v in s.body && u != v
    requires PrivateOk(s, s.body[u]) && PrivateOk(s, s.body[v]) && Apart(s, u, v) && Apart(s, v, u)
    ensures Apart(Do(s, t, m), u, v)
  {
    DoFrame(s, t, m);
    PrivateComes(s, t, m);
  }

  lemma HeapPartKept(s: Region, t: nat, m: Move)
    requires HeapPart(s) && Can(s, t, m)
    ensures HeapPart(Do(s, t, m))
  {
    var s' := Do(s, t, m);
    DoFrame(s, t, m);
    assert PrivateOk(s, s.body[t]);
    FactsKept(s, t, m);
    forall u | u in s'.body
      ensures PrivateOk(s', s'.body[u])
    {
      assert PrivateOk(s, s.body[u]);
      if u == t {
        OwnPrivateKept(s, t, m);
      } else {
        OthersPrivateKept(s, t, m, u);
      }
    }
    forall u, v | u in s'.body && v in s'.body && u != v && Private(s'.body[u]).Some?
      ensures Private(s'.body[u]) != Private(s'.body[v])
    {
      ApartKept(s, t, m, u, v);
    }
  }

  // ----- ZonePart -----

  lemma ReplayAppend(log: seq<Event>, e: Event)
    ensures Replay(log + [e]) == Effect(Replay(log), e.call)
  {
    assert (log + [e])[..|log|] == log;
  }

  /** What the register holds after the move. */
  lemma RegisterMoves(s: Region, t: nat, m: Move)
    requires Can(s, t, m)
    ensures Replay(Do(s, t, m).log) ==
            if m.Check? then Effect(Replay(s.log), Put(s.body[t].data, s.body[t].stamp)) else Replay(s.log)
    ensures s.log <= Do(s, t, m).log
  {
    if m.Measure? {
      ReplayAppend(s.log, Event(t, Get(s.body[t].size), Answer(Replay(s.log), Get(s.body[t].size))));
    } else if m.Check? {
      var c := Put(s.body[t].data, s.body[t].stamp);
      ReplayAppend(s.log, Event(t, c, Answer(Replay(s.log), c)));
    }
  }

  /** The concrete test under the write lock is the register's. */
  lemma TestAgrees(s: Region, z: Zone, stamp: u32)
    requires Matches(s, z)
    ensures Keeps(s, stamp) <==> !ZoneTakes(z, stamp)
  {
  }

  /** Only the thread itself frees or replaces what the zone points to. */
  lemma ZoneBufferKept(s: Region, t: nat, m: Move)
    requires Can(s, t, m) && HeapFacts(s) && PrivateOk(s, s.body[t]) && !m.Assign?
    ensures var s' := Do(s, t, m);
            && s'.data == s.data && s'.size == s.size && s'.stamp == s.stamp
            && (s.data.Some? && s.data.value in s.heap ==>
                  s.data.value in s'.heap && s'.heap[s.data.value] == s.heap[s.data.value])
  {
    if LeavesHeap(m) {
      HeapFrame(s, t, m);
    }
  }

  lemma MatchesKept(s: Region, t: nat, m: Move, z: Zone)
    requires Can(s, t, m) && HeapFacts(s) && PrivateOk(s, s.body[t]) && !m.Assign? && Matches(s, z)
    ensures Matches(Do(s, t, m), z)
  {
    ZoneBufferKept(s, t, m);
  }

  lemma OthersTakingKept(s: Region, t: nat, m: Move, u: nat)
    requires LockPart(s) && HeapPart(s) && Can(s, t, m) && u in s.body && u != t
    requires s.body[u].Taking? && TakingOk(s, s.body[u])
    ensures Do(s, t, m).body[u] == s.body[u] && TakingOk(Do(s, t, m), s.body[u])
  {
    DoFrame(s, t, m);
    assert Fits(s, u) && PrivateOk(s, s.body[t]);
    WriterAlone(s, u, t);
    RegisterMoves(s, t, m);
    ZoneBufferKept(s, t, m);
  }

  lemma AssignTaking(s: Region, t: nat)
    requires Can(s, t, Assign) && TakingOk(s, s.body[t]) && PrivateOk(s, s.body[t])
    ensures Do(s, t, Assign).body[t].Taking? && TakingOk(Do(s, t, Assign), Do(s, t, Assign).body[t])
  {
  }

  lemma CheckTaking(s: Region, t: nat)
    requires HeapFacts(s) && Can(s, t, Check) && PrivateOk(s, s.body[t]) && Matches(s, Replay(s.log))
    ensures var s' := Do(s, t, Check);
            if s'.body[t].Taking? then TakingOk(s', s'.body[t]) else Matches(s', Replay(s'.log))
  {
    RegisterMoves(s, t, Check);
    TestAgrees(s, Replay(s.log), s.body[t].stamp);
    ZoneBufferKept(s, t, Check);
  }

  /** The thread that moves is now taking: it was already, or has just decided to. */
  lemma OwnTakingKept(s: Region, t: nat, m: Move)
    requires LockPart(s) && HeapPart(s) && ZonePart(s) && Can(s, t, m) && Do(s, t, m).body[t].Taking?
    ensures TakingOk(Do(s, t, m), Do(s, t, m).body[t])
  {
    assert Fits(s, t) && PrivateOk(s, s.body[t]);
    if m.Assign? {
      AssignTaking(s, t);
    } else {
      assert m.Check?;
      WriterIsTheTaker(s, t);
      CheckTaking(s, t);
    }
  }

  lemma NobodyBefore(s: Region, t: nat, m: Move)
    requires Can(s, t, m) && NobodyTakes(Do(s, t, m)) && !s.body[t].Taking?
    ensures NobodyTakes(s)
  {
    DoFrame(s, t, m);
    forall u | u in s.body && u != t
      ensures !s.body[u].Taking?
    {
      assert Do(s, t, m).body[u] == s.body[u];
    }
  }

  lemma NobodyBeforeMatches(s: Region, t: nat, m: Move)
    requires LockPart(s) && HeapPart(s) && ZonePart(s) && Can(s, t, m) && NobodyTakes(Do(s, t, m))
    ensures m.Check? || !s.body[t].Taking? ==> Matches(s, Replay(s.log))
    ensures s.body[t].Taking? ==> TakingOk(s, s.body[t])
  {
    if m.Check? || !s.body[t].Taking? {
      NobodyBefore(s, t, m);
    }
  }

  lemma NobodyMatches(s: Region, t: nat, m: Move)
    requires LockPart(s) && HeapPart(s) && ZonePart(s) && Can(s, t, m) && NobodyTakes(Do(s, t, m))
    ensures Matches(Do(s, t, m), Replay(Do(s, t, m).log))
  {
    assert PrivateOk(s, s.body[t]);
    assert !Do(s, t, m).body[t].Taking?;
    NobodyBeforeMatches(s, t, m);
    if m.Check? {
      CheckTaking(s, t);
    } else {
      RegisterMoves(s, t, m);
      MatchesKept(s, t, m, Replay(s.log));
    }
  }

  lemma ZonePartKept(s: Region, t: nat, m: Move)
    requires LockPart(s) && HeapPart(s) && ZonePart(s) && Can(s, t, m)
    ensures ZonePart(Do(s, t, m))
  {
    var s' := Do(s, t, m);
    DoFrame(s, t, m);
    forall u | u in s'.body && s'.body[u].Taking?
      ensures TakingOk(s', s'.body[u])
    {
      if u == t {
        OwnTakingKept(s, t, m);
      } else {
        OthersTakingKept(s, t, m, u);
      }
    }
    if NobodyTakes(s') {
      NobodyMatches(s, t, m);
    }
  }

  // ----- CopyPart -----

  lemma OthersCopyKept(s: Region, t: nat, m: Move, u: nat)
    requires LockPart(s) && Can(s, t, m) && u in s.body && u != t && s.body[u].Copying? && CopyOk(s, s.body[u])
    ensures Do(s, t, m).body[u] == s.body[u] && CopyOk(Do(s, t, m), s.body[u])
  {
    DoFrame(s, t, m);
    RegisterMoves(s, t, m);
    assert Fits(s, t) && Fits(s, u);
    if m.Check? {
      WriterAlone(s, t, u);
    }
  }

  /** The buffer a reader copies from is live, long enough, and holds the register's bytes. */
  lemma ReadsRegister(s: Region, t: nat)
    requires LockPart(s) && ZonePart(s) && t in s.body && s.lock.pc[t].Reading?
    ensures Matches(s, Replay(s.log))
  {
    ReaderSeesNoTaker(s, t);
  }

  lemma OneByte(s: Region, z: Zone, size: nat, i: nat)
    requires Matches(s, z) && i < |GetZone(z, size)|
    ensures s.data.Some? && s.data.value in s.heap && i < |s.heap[s.data.value]|
    ensures ByteAt(s, i) == GetZone(z, size)[i]
  {
  }

  lemma OwnCopyBegins(s: Region, t: nat)
    requires LockPart(s) && ZonePart(s) && Can(s, t, Measure)
    ensures CopyOk(Do(s, t, Measure), Do(s, t, Measure).body[t])
  {
    assert Fits(s, t);
    ReadsRegister(s, t);
    RegisterMoves(s, t, Measure);
  }

  lemma OwnCopyGoesOn(s: Region, t: nat)
    requires LockPart(s) && ZonePart(s) && CopyPart(s) && Can(s, t, CopyByte)
    ensures CopyOk(Do(s, t, CopyByte), Do(s, t, CopyByte).body[t])
  {
    assert Fits(s, t);
    ReadsRegister(s, t);
    OneByte(s, Replay(s.log), s.body[t].size, |s.body[t].got|);
  }

  lemma OwnCopyKept(s: Region, t: nat, m: Move)
    requires LockPart(s) && ZonePart(s) && CopyPart(s) && Can(s, t, m) && Do(s, t, m).body[t].Copying?
    ensures CopyOk(Do(s, t, m), Do(s, t, m).body[t])
  {
    assert Fits(s, t);
    if m.CopyByte? {
      OwnCopyGoesOn(s, t);
    } else if m.Measure? {
      OwnCopyBegins(s, t);
    } else {
      assert false;
    }
  }

  lemma CopyPartKept(s: Region, t: nat, m: Move)
    requires LockPart(s) && ZonePart(s) && CopyPart(s) && Can(s, t, m)
    ensures CopyPart(Do(s, t, m))
  {
    var s' := Do(s, t, m);
    DoFrame(s, t, m);
    forall u | u in s'.body && s'.body[u].Copying?
      ensures CopyOk(s', s'.body[u])
    {
      if u == t {
        OwnCopyKept(s, t, m);
      } else {
        OthersCopyKept(s, t, m, u);
      }
    }
  }

  // ----- LogPart -----

  lemma LogFrame(s: Region, t: nat, m: Move)
    requires Can(s, t, m)
    ensures var s' := Do(s, t, m);
            && s.log <= s'.log
            && (m.Measure? || m.Check? ==>
                  && |s'.log| == |s.log| + 1
                  && s'.log[|s.log|] == Event(t, CallOf(s.body[t]), Answer(Replay(s.log), CallOf(s.body[t]))))
            && (!m.Measure? && !m.Check? ==> s'.log == s.log)
            && s.done <= s'.done
            && (!m.Return? ==> s'.done == s.done)
  {
  }

  lemma SequentialKept(s: Region, t: nat, m: Move)
    requires Can(s, t, m) && Sequential(s.log)
    ensures Sequential(Do(s, t, m).log)
  {
    LogFrame(s, t, m);
    var log, log' := s.log, Do(s, t, m).log;
    forall i | 0 <= i < |log'|
      ensures log'[i].result == Answer(Replay(log'[..i]), log'[i].call)
    {
      if i < |log| {
        assert log'[..i] == log[..i];
      } else {
        assert log'[..i] == log;
      }
    }
  }

  lemma OwnLogChecked(s: Region, t: nat)
    requires Can(s, t, Check) && LogOk(s, t, s.body[t]) && Matches(s, Replay(s.log))
    ensures LogOk(Do(s, t, Check), t, Do(s, t, Check).body[t])
  {
    LogFrame(s, t, Check);
    TestAgrees(s, Replay(s.log), s.body[t].stamp);
  }

  lemma OwnLogOther(s: Region, t: nat, m: Move)
    requires Can(s, t, m) && LogOk(s, t, s.body[t]) && Fits(s, t) && !m.Check?
    requires s.body[t].Copying? ==> CopyOk(s, s.body[t])
    ensures LogOk(Do(s, t, m), t, Do(s, t, m).body[t])
  {
    LogFrame(s, t, m);
  }

  /** What a thread's finished work answers is what its log entry says. */
  lemma OwnLogKept(s: Region, t: nat, m: Move)
    requires Can(s, t, m) && LogOk(s, t, s.body[t]) && Fits(s, t)
    requires s.body[t].Copying? ==> CopyOk(s, s.body[t])
    requires m.Check? ==> Matches(s, Replay(s.log))
    ensures LogOk(Do(s, t, m), t, Do(s, t, m).body[t])
  {
    if m.Check? {
      OwnLogChecked(s, t);
    } else {
      OwnLogOther(s, t, m);
    }
  }

  lemma AllLogsKept(s: Region, t: nat, m: Move)
    requires LockPart(s) && ZonePart(s) && CopyPart(s) && LogPart(s) && Can(s, t, m)
    ensures forall u :: u in Do(s, t, m).body ==> LogOk(Do(s, t, m), u, Do(s, t, m).body[u])
  {
    DoFrame(s, t, m);
    LogFrame(s, t, m);
    assert Fits(s, t);
    forall u | u in s.body
      ensures LogOk(Do(s, t, m), u, Do(s, t, m).body[u])
    {
      assert LogOk(s, u, s.body[u]);
      if u == t {
        if m.Check? {
          WriterIsTheTaker(s, t);
        }
        OwnLogKept(s, t, m);
      }
    }
  }

  lemma FinishedKept(s: Region, t: nat, m: Move)
    requires Can(s, t, m) && LogOk(s, t, s.body[t])
    requires forall i :: 0 <= i < |s.done| ==> FinishedOk(s, s.done[i])
    ensures forall i :: 0 <= i < |Do(s, t, m).done| ==> FinishedOk(Do(s, t, m), Do(s, t, m).done[i])
  {
    LogFrame(s, t, m);
    forall i | 0 <= i < |Do(s, t, m).done|
      ensures FinishedOk(Do(s, t, m), Do(s, t, m).done[i])
    {
      if i < |s.done| {
        assert FinishedOk(s, s.done[i]);
      }
    }
  }

  lemma OneAtATimeKept(s: Region, t: nat, m: Move)
    requires Can(s, t, m) && OneAtATime(s)
    requires forall i :: 0 <= i < |s.done| ==> FinishedOk(s, s.done[i])
    ensures OneAtATime(Do(s, t, m))
  {
    DoFrame(s, t, m);
    LogFrame(s, t, m);
    StartKept(s, t, m);
    var s' := Do(s, t, m);
    forall i | 0 <= i < |s'.done| && s'.done[i].tid in s'.body && !s'.body[s'.done[i].tid].Out?
      ensures s'.done[i].end <= s'.body[s'.done[i].tid].start
    {
      if i < |s.done| {
        assert FinishedOk(s, s.done[i]);
      }
    }
  }

  lemma StartKept(s: Region, t: nat, m: Move)
    requires Can(s, t, m)
    ensures var b, b' := s.body[t], Do(s, t, m).body[t];
            if b.Out? then b'.Out? || b'.start == |s.log|
            else b'.Out? || b'.start == b.start
    ensures m.Return? ==> Do(s, t, m).body[t].Out? && Do(s, t, m).done == s.done + [Do(s, t, m).done[|s.done|]]
    ensures m.Return? ==> Do(s, t, m).done[|s.done|].tid == t && Do(s, t, m).done[|s.done|].start == s.body[t].start
  {
  }

  lemma StepKeeps(s: Region, t: nat, m: Move)
    requires Inv(s) && Can(s, t, m)
    ensures Inv(Do(s, t, m))
  {
    LockPartKept(s, t, m);
    HeapPartKept(s, t, m);
    ZonePartKept(s, t, m);
    CopyPartKept(s, t, m);
    SequentialKept(s, t, m);
    AllLogsKept(s, t, m);
    FinishedKept(s, t, m);
    OneAtATimeKept(s, t, m);
  }

  lemma {:induction false} Reachable(start: Region, steps: seq<Step>)
    requires Init(start) && Runs(start, steps)
    ensures Inv(After(start, steps))
  {
    if steps == [] {
      InitInv(start);
    } else {
      Reachable(start, steps[..|steps| - 1]);
      StepKeeps(After(start, steps[..|steps| - 1]), steps[|steps| - 1].tid, steps[|steps| - 1].move);
    }
  }

  // ----- The results -----

  /** A reader never reads through a freed pointer, and the next byte is the register's. */
  lemma NoReadAfterFree(start: Region, steps: seq<Step>, t: nat)
    requires Init(start) && Runs(start, steps) && Can(After(start, steps), t, CopyByte)
    ensures var s := After(start, steps);
            && s.data.Some? && s.data.value in s.heap && |s.body[t].got| < |s.heap[s.data.value]|
            && |s.body[t].got| < |GetZone(Replay(s.log), s.body[t].size)|
            && ByteAt(s, |s.body[t].got|) == GetZone(Replay(s.log), s.body[t].size)[|s.body[t].got|]
  {
    Reachable(start, steps);
    var s := After(start, steps);
    assert Fits(s, t);
    ReadsRegister(s, t);
    OneByte(s, Replay(s.log), s.body[t].size, |s.body[t].got|);
  }

  lemma OldIsLive(s: Region, t: nat)
    requires ZonePart(s) && Can(s, t, Assign) && s.body[t].stage.FreeOld? && s.data.Some?
    ensures s.data.value in s.heap
  {
    assert TakingOk(s, s.body[t]);
  }

  lemma TrashIsLive(s: Region, t: nat)
    requires HeapPart(s) && Can(s, t, Return) && s.body[t].trash.Some?
    ensures s.body[t].trash.value in s.heap && s.data != s.body[t].trash
  {
    assert PrivateOk(s, s.body[t]);
  }

  /** Whatever mem_put frees, the old contents or its refused copy, is live until then. */
  lemma FreesLiveBuffers(start: Region, steps: seq<Step>, t: nat)
    requires Init(start) && Runs(start, steps)
    ensures var s := After(start, steps);
            && (Can(s, t, Assign) && s.body[t].stage.FreeOld? && s.data.Some? ==> s.data.value in s.heap)
            && (Can(s, t, Return) && s.body[t].trash.Some? ==>
                  s.body[t].trash.value in s.heap && s.data != s.body[t].trash)
  {
    Reachable(start, steps);
    var s := After(start, steps);
    if Can(s, t, Assign) && s.body[t].stage.FreeOld? && s.data.Some? {
      OldIsLive(s, t);
    }
    if Can(s, t, Return) && s.body[t].trash.Some? {
      TrashIsLive(s, t);
    }
  }

  /**
   * Linearizability: in every reachable state the log is a correct sequential history of the
   * register, every finished call answered what its own entry in the log says, that entry was made
   * between its call and its return, no two finished calls share an entry, and calls that did not
   * overlap have their entries in the order in which they were made.
   */
  lemma Linearizable(start: Region, steps: seq<Step>)
    requires Init(start) && Runs(start, steps)
    ensures var s := After(start, steps);
            && Sequential(s.log)
            && (forall i :: 0 <= i < |s.done| ==> FinishedOk(s, s.done[i]))
            && (forall i, j :: 0 <= i < j < |s.done| ==> s.done[i].at != s.done[j].at)
            && (forall i, j :: 0 <= i < |s.done| && 0 <= j < |s.done| && s.done[i].end <= s.done[j].start ==>
                  s.done[i].at < s.done[j].at)
  {
    Reachable(start, steps);
    var s := After(start, steps);
    forall i, j | 0 <= i < j < |s.done|
      ensures s.done[i].at != s.done[j].at
    {
      assert FinishedOk(s, s.done[i]) && FinishedOk(s, s.done[j]);
    }
    forall i, j | 0 <= i < |s.done| && 0 <= j < |s.done| && s.done[i].end <= s.done[j].start
      ensures s.done[i].at < s.done[j].at
    {
      assert FinishedOk(s, s.done[i]) && FinishedOk(s, s.done[j]);
    }
  }

  /** A finished mem_get returned the leading bytes of the last put the log took before it, or nothing. */
  lemma GetReturnsOnePut(start: Region, steps: seq<Step>, i: nat) returns (w: int)
    requires Init(start) && Runs(start, steps)
    requires i < |After(start, steps).done| && After(start, steps).done[i].call.Get?
    ensures var s := After(start, steps); var f := s.done[i];
            && -1 <= w < f.at < |s.log|
            && (w != -1 ==> s.log[w].call.Put? && s.log[w].result == Placed(|s.log[w].call.data|))
            && f.result == Bytes(if w == -1 then [] else s.log[w].call.data[..Min(f.call.size, |s.log[w].call.data|)])
            && (forall j :: w < j < f.at && s.log[j].call.Put? ==> s.log[j].result == Placed(0))
  {
    Reachable(start, steps);
    var s := After(start, steps);
    var f := s.done[i];
    assert FinishedOk(s, f);
    w := LastTaken(s.log, f.at);
  }

  /** `w` is the last put the register took among the first `k` calls, or -1. */
  ghost predicate LastPut(log: seq<Event>, k: nat, w: int)
    requires k <= |log|
  {
    && -1 <= w < k
    && (w == -1 ==> Replay(log[..k]) == EMPTY_ZONE)
    && (w != -1 ==>
          && log[w].call.Put? && log[w].result == Placed(|log[w].call.data|)
          && Replay(log[..k]) == PutZone(log[w].call.data, log[w].call.stamp))
    && (forall j :: w < j < k && log[j].call.Put? ==> log[j].result == Placed(0))
  }

  lemma ReplayNext(log: seq<Event>, k: nat)
    requires k < |log|
    ensures Replay(log[..k + 1]) == Effect(Replay(log[..k]), log[k].call)
  {
    assert log[..k + 1] == log[..k] + [log[k]];
    ReplayAppend(log[..k], log[k]);
  }

  lemma NextPut(log: seq<Event>, k: nat, w: int)
    requires Sequential(log) && k < |log| && LastPut(log, k, w)
    ensures var takes := log[k].call.Put? && ZoneTakes(Replay(log[..k]), log[k].call.stamp);
            LastPut(log, k + 1, if takes then k else w)
  {
    ReplayNext(log, k);
    assert log[k].result == Answer(Replay(log[..k]), log[k].call);
  }

  lemma {:induction false} LastTaken(log: seq<Event>, k: nat) returns (w: int)
    requires Sequential(log) && k <= |log|
    ensures LastPut(log, k, w)
  {
    if k == 0 {
      w := -1;
    } else {
      w := LastTaken(log, k - 1);
      NextPut(log, k - 1, w);
      if log[k - 1].call.Put? && ZoneTakes(Replay(log[..k - 1]), log[k - 1].call.stamp) {
        w := k - 1;
      }
    }
  }
}
