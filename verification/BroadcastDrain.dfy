/** What the broadcast queue keeps among threads, and when it drains. */
module BroadcastDrain {
  import opened BroadcastMachine

  // ----- The mutex, and the terminate flag's phases -----

  predicate SlaveHolds(p: Slave) {
    p.SIn? || p.SAdded?
  }

  predicate FinHolds(p: Fin) {
    p.FIn? || p.FAdded? || p.TIn? || p.TSet?
  }

  predicate PopHolds(p: Pop) {
    p.PIn? || p.PTook? || p.PNull?
  }

  /** The mutex is held by a slave whose push has returned. */
  predicate Leaked(s: State) {
    s.mutex.BySlave? && s.mutex.tid in s.slaves && !SlaveHolds(s.slaves[s.mutex.tid])
  }

  ghost predicate MutexPart(s: State) {
    && (PopHolds(s.pop) <==> s.mutex == ByPop)
    && (FinHolds(s.fin) <==> s.mutex == ByFin)
    && (forall t :: t in s.slaves && SlaveHolds(s.slaves[t]) ==> s.mutex == BySlave(t))
    && (s.mutex.BySlave? ==> s.mutex.tid in s.slaves)
    && (Leaked(s) <==> !s.unlocks && s.refused > 0)
  }

  predicate Terminated(p: Fin) {
    p.TSet? || p.TSignal? || p.FJoin? || p.FDone?
  }

  predicate FlowPart(s: State) {
    && s.accepted == s.popped + s.q
    && (s.term <==> Terminated(s.fin))
    && (Goodbye in s.accepted <==> !s.fin.FStart? && !s.fin.FIn?)
    && (s.pop.PNull? || s.pop.PDone? ==> s.term && s.q == [])
    && (s.pop.PTook? || s.pop.PSending? ==> s.popped != [] && s.popped[|s.popped| - 1] == s.pop.msg)
    && (s.fin.FDone? ==> s.pop.PDone?)
    && (s.refused > 0 ==> s.term)
  }

  /** Some thread that changed the queue has its signal still to give. */
  ghost predicate SignalOwed(s: State) {
    || s.fin.FAdded? || s.fin.FSignal? || s.fin.TSet? || s.fin.TSignal?
    || exists t :: t in s.slaves && (s.slaves[t].SAdded? || s.slaves[t].SSignal?)
  }

  ghost predicate WakePart(s: State) {
    s.pop.PAsleep? ==> (s.q == [] && !s.term) || SignalOwed(s)
  }

  // ----- Where a packet is -----

  /** `Queued(i)`: the packet is entry `i` of the accepted log and still in the queue. */
  datatype Place = WithSlave(t: nat) | Queued(i: nat) | WithPopper | Freed(i: nat)

  predicate At(s: State, pid: nat, p: Place) {
    match p
    case WithSlave(t) =>
      && t in s.slaves
      && match s.slaves[t] {
           case SHas(k) => k == pid
           case SWant(k) => k == pid
           case SIn(k) => k == pid
           case SRefused(k) => k == pid
           case _ => false
         }
    case Queued(i) => |s.popped| <= i < |s.accepted| && s.accepted[i] == Packet(pid)
    case WithPopper => (s.pop.PTook? || s.pop.PSending?) && s.pop.msg == Packet(pid)
    case Freed(i) => i < |s.freed| && s.freed[i] == pid
  }

  ghost predicate Somewhere(s: State, pid: nat) {
    exists p :: At(s, pid, p)
  }

  ghost predicate OwnPart(s: State) {
    && (forall pid: nat :: Somewhere(s, pid) <==> pid < s.made)
    && (forall pid: nat, p, p' :: At(s, pid, p) && At(s, pid, p') ==> p == p')
  }

  ghost predicate Inv(s: State) {
    MutexPart(s) && FlowPart(s) && WakePart(s) && OwnPart(s)
  }

  lemma InitInv(s: State)
    requires Init(s)
    ensures Inv(s)
  {
  }

  // ----- What a step leaves alone -----

  lemma SlaveFrame(s: State, t: nat)
    requires Can(s, SlaveGo(t))
    ensures var s' := SlaveStep(s, t);
            && s'.slaves.Keys == s.slaves.Keys && s'.slaves == s.slaves[t := s'.slaves[t]]
            && s'.unlocks == s.unlocks && s'.fin == s.fin && s'.term == s.term
            && s'.popped == s.popped && s'.made == s.made
            && (s'.pop == s.pop || (s.pop.PAsleep? && s'.pop.PWant?))
  {
  }

  lemma SignalFrame(s: State)
    ensures Signalled(s) == s.(pop := if s.pop.PAsleep? then PWant else s.pop)
  {
  }

  lemma FinFrame(s: State)
    requires Can(s, FinGo)
    ensures var s' := FinStep(s);
            && s'.slaves == s.slaves && s'.unlocks == s.unlocks && s'.refused == s.refused
            && s'.popped == s.popped && s'.freed == s.freed && s'.made == s.made
            && (s'.pop == s.pop || (s.pop.PAsleep? && s'.pop.PWant?))
  {
    if s.fin.FSignal? {
      SignalFrame(s.(fin := TWant));
    } else if s.fin.TSignal? {
      SignalFrame(s.(fin := FJoin));
    }
  }

  lemma PopFrame(s: State)
    requires Can(s, PopGo)
    ensures var s' := PopStep(s);
            && s'.slaves == s.slaves && s'.unlocks == s.unlocks && s'.refused == s.refused
            && s'.fin == s.fin && s'.term == s.term && s'.accepted == s.accepted && s'.made == s.made
  {
  }

  // ----- MutexPart -----

  lemma MutexKeptBySlave(s: State, t: nat)
    requires MutexPart(s) && Can(s, SlaveGo(t))
    ensures MutexPart(SlaveStep(s, t))
  {
    SlaveFrame(s, t);
  }

  lemma MutexKeptByFin(s: State)
    requires MutexPart(s) && Can(s, FinGo)
    ensures MutexPart(FinStep(s))
  {
    FinFrame(s);
  }

  lemma MutexKeptByPop(s: State)
    requires MutexPart(s) && Can(s, PopGo)
    ensures MutexPart(PopStep(s))
  {
    PopFrame(s);
  }

  lemma MutexKept(s: State, a: Act)
    requires MutexPart(s) && Can(s, a)
    ensures MutexPart(Do(s, a))
  {
    match a
    case SlaveGo(t) => MutexKeptBySlave(s, t);
    case FinGo => MutexKeptByFin(s);
    case PopGo => MutexKeptByPop(s);
    case _ =>
  }

  // ----- FlowPart -----

  lemma FlowKeptBySlave(s: State, t: nat)
    requires FlowPart(s) && Can(s, SlaveGo(t))
    ensures FlowPart(SlaveStep(s, t))
  {
    SlaveFrame(s, t);
  }

  lemma FlowKeptByFin(s: State)
    requires FlowPart(s) && MutexPart(s) && Can(s, FinGo)
    ensures FlowPart(FinStep(s))
  {
    FinFrame(s);
  }

  lemma FlowKeptByPop(s: State)
    requires FlowPart(s) && Can(s, PopGo)
    ensures FlowPart(PopStep(s))
  {
    PopFrame(s);
  }

  lemma FlowKept(s: State, a: Act)
    requires FlowPart(s) && MutexPart(s) && Can(s, a)
    ensures FlowPart(Do(s, a))
  {
    match a
    case SlaveGo(t) => FlowKeptBySlave(s, t);
    case FinGo => FlowKeptByFin(s);
    case PopGo => FlowKeptByPop(s);
    case _ =>
  }

  // ----- WakePart -----

  lemma WakeKept(s: State, a: Act)
    requires WakePart(s) && Can(s, a)
    ensures WakePart(Do(s, a))
  {
    match a
    case SlaveGo(t) =>
      SlaveFrame(s, t);
      assert SlaveStep(s, t).slaves[t].SAdded? ==> SignalOwed(SlaveStep(s, t));
    case FinGo => FinFrame(s);
    case PopGo => PopFrame(s);
    case _ =>
      if w :| w in s.slaves && (s.slaves[w].SAdded? || s.slaves[w].SSignal?) {
        assert Do(s, a).slaves[w] == s.slaves[w];
      }
  }

  // ----- OwnPart -----

  /** The packet a step moves, where from and where to. */
  datatype Transfer = Nothing | Transfer(pid: nat, from: Place, to: Place) | New(pid: nat, to: Place)

  function Moved(s: State, a: Act): Transfer
    requires Can(s, a)
  {
    match a
    case Read(t) => New(s.made, WithSlave(t))
    case Reject(t) => Transfer(s.slaves[t].pid, WithSlave(t), Freed(|s.freed|))
    case SlaveGo(t) =>
      if s.slaves[t].SIn? && !s.term then Transfer(s.slaves[t].pid, WithSlave(t), Queued(|s.accepted|))
      else if s.slaves[t].SRefused? then Transfer(s.slaves[t].pid, WithSlave(t), Freed(|s.freed|))
      else Nothing
    case PopGo =>
      if s.pop.PIn? && s.q != [] && s.q[0].Packet? then Transfer(s.q[0].pid, Queued(|s.popped|), WithPopper)
      else if s.pop.PSending? && s.pop.msg.Packet? then Transfer(s.pop.msg.pid, WithPopper, Freed(|s.freed|))
      else Nothing
    case _ => Nothing
  }

  predicate AtAfter(s: State, tr: Transfer, pid: nat, p: Place) {
    match tr
    case Nothing => At(s, pid, p)
    case Transfer(k, from, to) => (pid == k && p == to) || (At(s, pid, p) && !(pid == k && p == from))
    case New(k, to) => (pid == k && p == to) || At(s, pid, p)
  }

  lemma PushPlaces(s: State, t: nat, pid: nat, p: Place)
    requires Can(s, SlaveGo(t)) && FlowPart(s) && s.slaves[t].SIn?
    ensures At(SlaveStep(s, t), pid, p) <==> AtAfter(s, Moved(s, SlaveGo(t)), pid, p)
  {
    SlaveFrame(s, t);
  }

  lemma FreeingPlaces(s: State, t: nat, pid: nat, p: Place)
    requires Can(s, SlaveGo(t)) && s.slaves[t].SRefused?
    ensures At(SlaveStep(s, t), pid, p) <==> AtAfter(s, Moved(s, SlaveGo(t)), pid, p)
  {
  }

  lemma OtherSlavePlaces(s: State, t: nat, pid: nat, p: Place)
    requires Can(s, SlaveGo(t)) && FlowPart(s) && !s.slaves[t].SIn? && !s.slaves[t].SRefused?
    ensures At(SlaveStep(s, t), pid, p) <==> AtAfter(s, Moved(s, SlaveGo(t)), pid, p)
  {
    SlaveFrame(s, t);
  }

  lemma SlavePlaces(s: State, t: nat, pid: nat, p: Place)
    requires Can(s, SlaveGo(t)) && FlowPart(s)
    ensures At(SlaveStep(s, t), pid, p) <==> AtAfter(s, Moved(s, SlaveGo(t)), pid, p)
  {
    if s.slaves[t].SIn? {
      PushPlaces(s, t, pid, p);
    } else if s.slaves[t].SRefused? {
      FreeingPlaces(s, t, pid, p);
    } else {
      OtherSlavePlaces(s, t, pid, p);
    }
  }

  lemma FinPlaces(s: State, pid: nat, p: Place)
    requires Can(s, FinGo) && FlowPart(s)
    ensures At(FinStep(s), pid, p) <==> At(s, pid, p)
  {
    FinFrame(s);
  }

  lemma PopPlaces(s: State, pid: nat, p: Place)
    requires Can(s, PopGo) && FlowPart(s)
    ensures At(PopStep(s), pid, p) <==> AtAfter(s, Moved(s, PopGo), pid, p)
  {
    PopFrame(s);
  }

  lemma Places(s: State, a: Act, pid: nat, p: Place)
    requires Can(s, a) && FlowPart(s)
    ensures At(Do(s, a), pid, p) <==> AtAfter(s, Moved(s, a), pid, p)
  {
    match a
    case SlaveGo(t) => SlavePlaces(s, t, pid, p);
    case FinGo => FinPlaces(s, pid, p);
    case PopGo => PopPlaces(s, pid, p);
    case _ =>
  }

  lemma MovedWasThere(s: State, a: Act)
    requires Can(s, a) && FlowPart(s)
    ensures Moved(s, a).Transfer? ==> At(s, Moved(s, a).pid, Moved(s, a).from)
    ensures Do(s, a).made == s.made + if Moved(s, a).New? then 1 else 0
    ensures Moved(s, a).New? ==> Moved(s, a).pid == s.made
  {
  }

  lemma SomewhereKept(s: State, a: Act, pid: nat)
    requires Can(s, a) && FlowPart(s) && OwnPart(s)
    ensures Somewhere(Do(s, a), pid) <==> pid < Do(s, a).made
  {
    MovedWasThere(s, a);
    var tr := Moved(s, a);
    assert Somewhere(s, pid) <==> pid < s.made;
    if Somewhere(s, pid) {
      var p :| At(s, pid, p);
      if tr.Transfer? && tr.pid == pid && tr.from == p {
        Places(s, a, pid, tr.to);
      } else {
        Places(s, a, pid, p);
      }
    }
    if tr.New? {
      Places(s, a, tr.pid, tr.to);
    }
    if p :| At(Do(s, a), pid, p) {
      Places(s, a, pid, p);
      assert tr.Transfer? ==> Somewhere(s, tr.pid);
    }
  }

  lemma OnePlaceKept(s: State, a: Act, pid: nat, p: Place, p': Place)
    requires Can(s, a) && FlowPart(s) && OwnPart(s) && At(Do(s, a), pid, p) && At(Do(s, a), pid, p')
    ensures p == p'
  {
    MovedWasThere(s, a);
    Places(s, a, pid, p);
    Places(s, a, pid, p');
    OnePlaceMoved(s, Moved(s, a), pid, p, p');
  }

  lemma OnePlaceMoved(s: State, tr: Transfer, pid: nat, p: Place, p': Place)
    requires OwnPart(s) && AtAfter(s, tr, pid, p) && AtAfter(s, tr, pid, p')
    requires tr.Transfer? ==> At(s, tr.pid, tr.from)
    requires tr.New? ==> tr.pid == s.made
    ensures p == p'
  {
    assert Somewhere(s, s.made) <==> false;
  }

  lemma OwnKept(s: State, a: Act)
    requires Can(s, a) && FlowPart(s) && OwnPart(s)
    ensures OwnPart(Do(s, a))
  {
    forall pid: nat
      ensures Somewhere(Do(s, a), pid) <==> pid < Do(s, a).made
    {
      SomewhereKept(s, a, pid);
    }
    forall pid: nat, p, p' | At(Do(s, a), pid, p) && At(Do(s, a), pid, p')
      ensures p == p'
    {
      OnePlaceKept(s, a, pid, p, p');
    }
  }

  lemma StepKeeps(s: State, a: Act)
    requires Inv(s) && Can(s, a)
    ensures Inv(Do(s, a))
  {
    MutexKept(s, a);
    FlowKept(s, a);
    WakeKept(s, a);
    OwnKept(s, a);
  }

  lemma LastStep(start: State, acts: seq<Act>)
    requires Runs(start, acts) && acts != []
    ensures var before, a := acts[..|acts| - 1], acts[|acts| - 1];
            Runs(start, before) && Can(After(start, before), a) &&
            After(start, acts) == Do(After(start, before), a)
  {
  }

  lemma UnlocksKept(s: State, a: Act)
    requires Can(s, a)
    ensures Do(s, a).unlocks == s.unlocks
  {
  }

  lemma {:induction false} Reachable(start: State, acts: seq<Act>)
    requires Init(start) && Runs(start, acts)
    ensures Inv(After(start, acts)) && After(start, acts).unlocks == start.unlocks
  {
    if acts == [] {
      InitInv(start);
    } else {
      var before, a := acts[..|acts| - 1], acts[|acts| - 1];
      LastStep(start, acts);
      Reachable(start, before);
      UnlocksKept(After(start, before), a);
      StepKeeps(After(start, before), a);
    }
  }

  // ----- The results -----

  /**
   * Nothing accepted is lost, reordered or invented; once the broadcaster has seen NULL everything
   * ever accepted has been popped, the goodbye among it, and nothing is accepted any more.
   */
  lemma Drains(start: State, acts: seq<Act>)
    requires Init(start) && Runs(start, acts)
    ensures var s := After(start, acts);
            && s.accepted == s.popped + s.q
            && (s.pop.PNull? || s.pop.PDone? ==> s.popped == s.accepted && Goodbye in s.popped && s.term)
            && (s.fin.FDone? ==> s.pop.PDone?)
  {
    Reachable(start, acts);
  }

  lemma EndedStep(s: State, a: Act)
    requires MutexPart(s) && FlowPart(s) && s.pop.PDone? && Can(s, a)
    ensures Do(s, a).accepted == s.accepted && Do(s, a).pop.PDone?
  {
  }

  /** After the broadcaster has ended no step accepts anything. */
  lemma EndedStays(start: State, acts: seq<Act>, a: Act)
    requires Init(start) && Runs(start, acts) && After(start, acts).pop.PDone? && Can(After(start, acts), a)
    ensures Do(After(start, acts), a).accepted == After(start, acts).accepted
    ensures Do(After(start, acts), a).pop.PDone?
  {
    Reachable(start, acts);
    EndedStep(After(start, acts), a);
  }

  /** A sleeping broadcaster has nothing to do, or the signal that wakes it is still to come. */
  lemma NoLostWakeup(start: State, acts: seq<Act>)
    requires Init(start) && Runs(start, acts) && After(start, acts).pop.PAsleep?
    ensures var s := After(start, acts);
            (s.q == [] && !s.term) || SignalOwed(s)
  {
    Reachable(start, acts);
  }

  /** No packet is freed twice, or freed while a slave, the queue or the broadcaster has it. */
  lemma FreedOnce(start: State, acts: seq<Act>, pid: nat, i: nat, p: Place)
    requires Init(start) && Runs(start, acts)
    requires At(After(start, acts), pid, Freed(i)) && At(After(start, acts), pid, p)
    ensures p == Freed(i)
  {
    Reachable(start, acts);
  }

  /** When the broadcaster has ended and the slaves are idle every packet has been freed. */
  lemma AllFreed(start: State, acts: seq<Act>, pid: nat) returns (i: nat)
    requires Init(start) && Runs(start, acts) && pid < After(start, acts).made
    requires After(start, acts).pop.PDone?
    requires forall t :: t in After(start, acts).slaves ==> After(start, acts).slaves[t].SIdle?
    ensures At(After(start, acts), pid, Freed(i))
  {
    Reachable(start, acts);
    var s := After(start, acts);
    assert Somewhere(s, pid);
    var p :| At(s, pid, p);
    assert p.Freed?;
    i := p.i;
  }

  // ----- The push that keeps the mutex -----

  /** As queue_push is written, the mutex is lost exactly when a push has been refused. */
  lemma LeakedIffRefused(start: State, acts: seq<Act>)
    requires Init(start) && Runs(start, acts)
    ensures Leaked(After(start, acts)) <==> !start.unlocks && After(start, acts).refused > 0
  {
    Reachable(start, acts);
  }

  /** A thread other than an idle slave, or a sleeper waking for nothing, can take a step. */
  ghost predicate SomeoneMoves(s: State) {
    || Can(s, FinGo) || Can(s, PopGo)
    || exists t :: Can(s, SlaveGo(t))
  }

  /** Unless the mutex is lost, the shutdown always goes on until the broadcaster has been joined. */
  lemma Progress(start: State, acts: seq<Act>)
    requires Init(start) && Runs(start, acts)
    requires !Leaked(After(start, acts)) && !After(start, acts).fin.FDone?
    ensures SomeoneMoves(After(start, acts))
  {
    Reachable(start, acts);
    var s := After(start, acts);
    match s.mutex
    case BySlave(t) => assert Can(s, SlaveGo(t));
    case ByFin => assert Can(s, FinGo);
    case ByPop => assert Can(s, PopGo);
    case Free =>
      if !Can(s, FinGo) {
        assert s.fin.FJoin? && !s.pop.PDone?;
        if s.pop.PAsleep? {
          var t :| t in s.slaves && (s.slaves[t].SAdded? || s.slaves[t].SSignal?);
          assert Can(s, SlaveGo(t));
        } else {
          assert Can(s, PopGo);
        }
      }
  }

  /** The mutex is lost, or it will be by the next statement of the slave that holds it. */
  predicate Doomed(s: State) {
    || Leaked(s)
    || (!s.unlocks && s.term && s.mutex.BySlave? && s.mutex.tid in s.slaves && s.slaves[s.mutex.tid].SIn?)
  }

  lemma DoomStays(s: State, a: Act)
    requires Inv(s) && Doomed(s) && !s.pop.PDone? && Can(s, a)
    ensures Doomed(Do(s, a)) && !Do(s, a).pop.PDone? && Do(s, a).popped == s.popped
  {
    match a
    case SlaveGo(t) => SlaveFrame(s, t);
    case FinGo => FinFrame(s);
    case PopGo => PopFrame(s);
    case _ =>
  }

  /** From a doomed state on the broadcaster pops nothing more and never ends. */
  lemma {:induction false} DoomIsForever(start: State, acts: seq<Act>, more: seq<Act>)
    requires Init(start) && Runs(start, acts) && acts <= more && Runs(start, more)
    requires Doomed(After(start, acts)) && !After(start, acts).pop.PDone?
    ensures Doomed(After(start, more)) && !After(start, more).pop.PDone?
    ensures After(start, more).popped == After(start, acts).popped
    decreases |more|
  {
    if more != acts {
      var before := more[..|more| - 1];
      DoomIsForever(start, acts, before);
      Reachable(start, before);
      DoomStays(After(start, before), more[|more| - 1]);
    }
  }

  // ----- The shutdown can complete -----

  function FinLeft(p: Fin): nat {
    match p
    case FStart => 9
    case FIn => 8
    case FAdded => 7
    case FSignal => 6
    case TWant => 5
    case TIn => 4
    case TSet => 3
    case TSignal => 2
    case FJoin => 1
    case FDone => 0
  }

  function PopLeft(s: State): nat {
    6 * |s.q| + match s.pop
    case PSending(_) => 5
    case PTook(_) => 6
    case PWant => 4
    case PIn => 3
    case PNull => 1
    case PAsleep => 0
    case PDone => 0
  }

  function HolderLeft(s: State): nat {
    if s.mutex.BySlave? && s.mutex.tid in s.slaves then
      match s.slaves[s.mutex.tid] {
        case SIn(_) => 2
        case SAdded => 1
        case _ => 0
      }
    else 0
  }

  function AsleepAtEnd(s: State): nat {
    if s.term && s.pop.PAsleep? then 1 else 0
  }

  /** `s'` is closer to the end of the shutdown than `s`. */
  predicate Closer(s': State, s: State) {
    || FinLeft(s'.fin) < FinLeft(s.fin)
    || (FinLeft(s'.fin) == FinLeft(s.fin) &&
        (|| AsleepAtEnd(s') < AsleepAtEnd(s)
         || (AsleepAtEnd(s') == AsleepAtEnd(s) &&
             (|| HolderLeft(s') < HolderLeft(s)
              || (HolderLeft(s') == HolderLeft(s) && PopLeft(s') < PopLeft(s))))))
  }

  predicate Hopeful(s: State) {
    s.pop.PDone? || !Doomed(s)
  }

  lemma HolderCloser(s: State)
    requires Inv(s) && Hopeful(s) && !s.pop.PDone? && s.mutex.BySlave?
    ensures Can(s, SlaveGo(s.mutex.tid))
    ensures Closer(Do(s, SlaveGo(s.mutex.tid)), s) && Hopeful(Do(s, SlaveGo(s.mutex.tid)))
  {
    SlaveFrame(s, s.mutex.tid);
  }

  lemma PopCloser(s: State)
    requires Inv(s) && Hopeful(s) && !s.mutex.BySlave? && Can(s, PopGo)
    ensures Closer(Do(s, PopGo), s) && Hopeful(Do(s, PopGo))
  {
    PopFrame(s);
  }

  lemma FinCloser(s: State)
    requires Inv(s) && Hopeful(s) && Can(s, FinGo) && (s.pop.PDone? || !s.mutex.BySlave?)
    ensures Closer(Do(s, FinGo), s) && Hopeful(Do(s, FinGo))
  {
    FinFrame(s);
  }

  lemma WakerCloser(s: State, t: nat)
    requires Inv(s) && Hopeful(s) && !s.mutex.BySlave? && s.term && s.pop.PAsleep?
    requires t in s.slaves && s.slaves[t].SSignal?
    ensures Closer(Do(s, SlaveGo(t)), s) && Hopeful(Do(s, SlaveGo(t)))
  {
    SlaveFrame(s, t);
  }

  /** The step is no new packet, and no idle slave's. */
  predicate NothingNew(s: State, a: Act) {
    !a.Read? && (a.SlaveGo? && a.t in s.slaves ==> !s.slaves[a.t].SIdle?)
  }

  /** A step on the way to the end: whoever holds the mutex first, then the broadcaster, then the shutdown. */
  lemma NextToEnd(s: State) returns (a: Act)
    requires Inv(s) && !s.fin.FDone? && Hopeful(s)
    ensures Can(s, a) && Hopeful(Do(s, a)) && Closer(Do(s, a), s) && NothingNew(s, a)
  {
    if s.pop.PDone? {
      a := FinGo;
      FinCloser(s);
    } else if s.mutex.BySlave? {
      a := SlaveGo(s.mutex.tid);
      HolderCloser(s);
    } else if Can(s, PopGo) {
      a := PopGo;
      PopCloser(s);
    } else if Can(s, FinGo) {
      a := FinGo;
      FinCloser(s);
    } else {
      var t :| t in s.slaves && (s.slaves[t].SAdded? || s.slaves[t].SSignal?);
      a := SlaveGo(t);
      WakerCloser(s, t);
    }
  }

  predicate AllIdle(s: State) {
    forall t :: t in s.slaves ==> s.slaves[t].SIdle?
  }

  lemma IdleStay(s: State, a: Act)
    requires Can(s, a) && NothingNew(s, a)
    ensures Do(s, a).made == s.made
    ensures AllIdle(s) ==> AllIdle(Do(s, a))
  {
    match a
    case SlaveGo(t) => SlaveFrame(s, t);
    case FinGo => FinFrame(s);
    case PopGo => PopFrame(s);
    case _ =>
  }

  lemma {:induction false} EndsFrom(start: State, acts: seq<Act>) returns (more: seq<Act>)
    requires Init(start) && Runs(start, acts)
    requires Hopeful(After(start, acts))
    ensures acts <= more && Runs(start, more) && After(start, more).fin.FDone?
    ensures AllIdle(After(start, acts)) ==> AllIdle(After(start, more))
    ensures After(start, more).made == After(start, acts).made
    decreases FinLeft(After(start, acts).fin), AsleepAtEnd(After(start, acts)),
              HolderLeft(After(start, acts)), PopLeft(After(start, acts))
  {
    var s := After(start, acts);
    Reachable(start, acts);
    if s.fin.FDone? {
      more := acts;
    } else {
      var a := NextToEnd(s);
      assert (acts + [a])[..|acts|] == acts;
      IdleStay(s, a);
      more := EndsFrom(start, acts + [a]);
    }
  }

  ghost predicate CanEnd(start: State, acts: seq<Act>)
    requires Runs(start, acts)
  {
    exists more :: acts <= more && Runs(start, more) && After(start, more).fin.FDone?
  }

  /**
   * From a reachable state the shutdown can still complete exactly when the broadcaster has ended
   * or the mutex is neither lost nor about to be.  With the unlock in place it always can.
   */
  lemma ShutdownCompletesIff(start: State, acts: seq<Act>)
    requires Init(start) && Runs(start, acts)
    ensures CanEnd(start, acts) <==> After(start, acts).pop.PDone? || !Doomed(After(start, acts))
    ensures start.unlocks ==> CanEnd(start, acts)
  {
    Reachable(start, acts);
    if After(start, acts).pop.PDone? || !Doomed(After(start, acts)) {
      var more := EndsFrom(start, acts);
    } else if more :| acts <= more && Runs(start, more) && After(start, more).fin.FDone? {
      DoomIsForever(start, acts, more);
      Reachable(start, more);
    }
  }

  // ----- The shutdown is safe -----

  /** Whatever happens from here on, the shutdown can still complete. */
  ghost predicate AlwaysCanEnd(start: State, acts: seq<Act>)
    requires Runs(start, acts)
  {
    forall more :: acts <= more && Runs(start, more) ==> CanEnd(start, more)
  }

  /** The broadcaster has the mutex for the last time, or is done with it. */
  predicate AtItsEnd(s: State) {
    s.pop.PDone? || s.pop.PNull? || (s.pop.PIn? && s.q == [] && s.term)
  }

  predicate Safe(s: State) {
    s.unlocks || s.slaves.Keys == {} || AtItsEnd(s)
  }

  lemma SafeKeptByPop(s: State)
    requires Inv(s) && Safe(s) && Can(s, PopGo)
    ensures Safe(PopStep(s))
  {
    PopFrame(s);
  }

  /** While the broadcaster is at its end nobody else gets the mutex, so nothing is pushed any more. */
  lemma SafeKeptBySlave(s: State, t: nat)
    requires Inv(s) && Safe(s) && Can(s, SlaveGo(t))
    ensures Safe(SlaveStep(s, t))
  {
    SlaveFrame(s, t);
    assert s.slaves[t].SIn? ==> s.mutex == BySlave(t);
  }

  lemma SafeKeptByFin(s: State)
    requires Inv(s) && Safe(s) && Can(s, FinGo)
    ensures Safe(FinStep(s))
  {
    FinFrame(s);
  }

  lemma SafeKept(s: State, a: Act)
    requires Inv(s) && Safe(s) && Can(s, a)
    ensures Safe(Do(s, a))
  {
    match a
    case SlaveGo(t) => SafeKeptBySlave(s, t);
    case FinGo => SafeKeptByFin(s);
    case PopGo => SafeKeptByPop(s);
    case _ =>
  }

  lemma {:induction false} SafeForever(start: State, acts: seq<Act>, more: seq<Act>)
    requires Init(start) && Runs(start, acts) && acts <= more && Runs(start, more) && Safe(After(start, acts))
    ensures Safe(After(start, more))
    decreases |more|
  {
    if more != acts {
      var before := more[..|more| - 1];
      SafeForever(start, acts, before);
      Reachable(start, before);
      SafeKept(After(start, before), more[|more| - 1]);
    }
  }

  lemma SafeIsHopeful(s: State)
    requires Inv(s) && Safe(s)
    ensures Hopeful(s)
  {
  }

  // ----- And otherwise it is not -----

  /** Steps the mutex's holder still takes before it lets go. */
  function MutexLeft(s: State): nat {
    if s.mutex.ByPop? then (if s.pop.PIn? then 2 else 1)
    else if s.mutex.BySlave? && s.mutex.tid in s.slaves then
      (if s.slaves[s.mutex.tid].SIn? then 2 else 1)
    else 0
  }

  /** Steps slave `t` takes to come to its next push. */
  function PushLeft(s: State, t: nat): nat
    requires t in s.slaves
  {
    match s.slaves[t]
    case SSignal => 4
    case SRefused(_) => 4
    case SIdle => 3
    case SHas(_) => 2
    case SWant(_) => 1
    case _ => 0
  }

  predicate Threatened(s: State, t: nat) {
    !s.unlocks && t in s.slaves && !AtItsEnd(s)
  }

  predicate Nearer(s': State, s: State, t: nat)
    requires t in s.slaves && t in s'.slaves
  {
    || FinLeft(s'.fin) < FinLeft(s.fin)
    || (FinLeft(s'.fin) == FinLeft(s.fin) &&
        (|| MutexLeft(s') < MutexLeft(s)
         || (MutexLeft(s') == MutexLeft(s) && PushLeft(s', t) < PushLeft(s, t))))
  }

  lemma PopLetsGo(s: State, t: nat)
    requires Inv(s) && Threatened(s, t) && s.mutex.ByPop?
    ensures Can(s, PopGo) && Threatened(PopStep(s), t) && Nearer(PopStep(s), s, t)
  {
    PopFrame(s);
  }

  lemma SlaveLetsGo(s: State, t: nat, u: nat)
    requires Inv(s) && Threatened(s, t) && !Doomed(s) && s.mutex == BySlave(u)
    ensures Can(s, SlaveGo(u)) && Threatened(SlaveStep(s, u), t) && Nearer(SlaveStep(s, u), s, t)
  {
    SlaveFrame(s, u);
  }

  lemma FinComesNearer(s: State, t: nat)
    requires Inv(s) && Threatened(s, t) && (s.mutex.ByFin? || (s.mutex.Free? && !s.term))
    ensures Can(s, FinGo) && Threatened(FinStep(s), t) && Nearer(FinStep(s), s, t)
  {
    FinFrame(s);
  }

  /** With the mutex free and the queue terminated a slave goes on to its push. */
  lemma PushComesNearer(s: State, t: nat) returns (a: Act)
    requires Inv(s) && Threatened(s, t) && !Doomed(s) && s.mutex.Free? && s.term
    ensures Can(s, a) && Threatened(Do(s, a), t) && (Doomed(Do(s, a)) || Nearer(Do(s, a), s, t))
  {
    a := if s.slaves[t].SIdle? then Read(t) else SlaveGo(t);
  }

  lemma NextToDoom(s: State, t: nat) returns (a: Act)
    requires Inv(s) && Threatened(s, t) && !Doomed(s)
    ensures Can(s, a) && Threatened(Do(s, a), t) && (Doomed(Do(s, a)) || Nearer(Do(s, a), s, t))
  {
    match s.mutex
    case ByPop =>
      a := PopGo;
      PopLetsGo(s, t);
    case BySlave(u) =>
      a := SlaveGo(u);
      SlaveLetsGo(s, t, u);
    case ByFin =>
      a := FinGo;
      FinComesNearer(s, t);
    case Free =>
      if s.term {
        a := PushComesNearer(s, t);
      } else {
        a := FinGo;
        FinComesNearer(s, t);
      }
  }

  lemma {:induction false} DoomComes(start: State, acts: seq<Act>, t: nat) returns (more: seq<Act>)
    requires Init(start) && Runs(start, acts) && Threatened(After(start, acts), t)
    ensures acts <= more && Runs(start, more)
    ensures Doomed(After(start, more)) && !After(start, more).pop.PDone?
    decreases FinLeft(After(start, acts).fin), MutexLeft(After(start, acts)), PushLeft(After(start, acts), t)
  {
    var s := After(start, acts);
    Reachable(start, acts);
    if Doomed(s) {
      more := acts;
    } else {
      var a := NextToDoom(s, t);
      var longer, s' := Extend(start, acts, a);
      if Doomed(s') {
        more := longer;
      } else {
        more := DoomComes(start, longer, t);
      }
    }
  }

  /**
   * The shutdown is safe, whatever happens from here on, exactly when the push unlocks, no slave is
   * there to push late, or the broadcaster is at its end.
   */
  lemma SafeIff(start: State, acts: seq<Act>)
    requires Init(start) && Runs(start, acts)
    ensures AlwaysCanEnd(start, acts) <==> Safe(After(start, acts))
  {
    if Safe(After(start, acts)) {
      forall more | acts <= more && Runs(start, more)
        ensures CanEnd(start, more)
      {
        SafeForever(start, acts, more);
        Reachable(start, more);
        SafeIsHopeful(After(start, more));
        ShutdownCompletesIff(start, more);
      }
    } else {
      var t :| t in After(start, acts).slaves.Keys;
      var more := DoomComes(start, acts, t);
      ShutdownCompletesIff(start, more);
    }
  }

  // ----- A run of the code as written -----

  function OneSlave(unlocks: bool): State {
    State(unlocks, map[0 := SIdle], FStart, PWant, Free, [], false, [], [], [], 0, 0)
  }

  /** A slave is about to push. */
  lemma AboutToPush() returns (acts: seq<Act>)
    ensures Runs(OneSlave(false), acts)
    ensures After(OneSlave(false), acts) ==
            State(false, map[0 := SWant(0)], FStart, PWant, Free, [], false, [], [], [], 1, 0)
  {
    var s;
    acts, s := Extend(OneSlave(false), [], Read(0));
    acts, s := Extend(OneSlave(false), acts, SlaveGo(0));
  }

  /** Then the goodbye is pushed. */
  lemma ByePushed() returns (acts: seq<Act>)
    ensures Runs(OneSlave(false), acts)
    ensures After(OneSlave(false), acts) ==
            State(false, map[0 := SWant(0)], TWant, PWant, Free, [Goodbye], false, [Goodbye], [], [], 1, 0)
  {
    var s;
    acts := AboutToPush();
    acts, s := Extend(OneSlave(false), acts, FinGo);
    acts, s := Extend(OneSlave(false), acts, FinGo);
    acts, s := Extend(OneSlave(false), acts, FinGo);
    acts, s := Extend(OneSlave(false), acts, FinGo);
  }

  /** Then the queue is terminated. */
  lemma LatePush() returns (acts: seq<Act>)
    ensures Runs(OneSlave(false), acts)
    ensures After(OneSlave(false), acts) ==
            State(false, map[0 := SWant(0)], TSignal, PWant, Free, [Goodbye], true, [Goodbye], [], [], 1, 0)
  {
    var s;
    acts := ByePushed();
    acts, s := Extend(OneSlave(false), acts, FinGo);
    acts, s := Extend(OneSlave(false), acts, FinGo);
    acts, s := Extend(OneSlave(false), acts, FinGo);
  }

  /** A run of the code as written in which one late push leaves the goodbye in the queue for ever. */
  lemma GoodbyeStuck() returns (acts: seq<Act>)
    ensures Init(OneSlave(false)) && Runs(OneSlave(false), acts)
    ensures Leaked(After(OneSlave(false), acts)) && After(OneSlave(false), acts).q == [Goodbye]
    ensures !CanEnd(OneSlave(false), acts)
  {
    var start := OneSlave(false);
    var s;
    acts := LatePush();
    acts, s := Extend(start, acts, SlaveGo(0));
    acts, s := Extend(start, acts, SlaveGo(0));
    ShutdownCompletesIff(start, acts);
  }

  lemma Extend(start: State, acts: seq<Act>, a: Act) returns (longer: seq<Act>, s: State)
    requires Runs(start, acts) && Can(After(start, acts), a)
    ensures longer == acts + [a] && Runs(start, longer) && s == After(start, longer) == Do(After(start, acts), a)
  {
    longer := acts + [a];
    assert longer[..|acts|] == acts;
    s := After(start, longer);
  }
}
