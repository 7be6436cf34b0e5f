/**
 * The readers/writer lock of src/thread/rwlock.c: a mutex, a binary semaphore and a reader counter.
 * Any number of threads use it in bracketed sections; a thread's program counter says between which
 * two statements it stands.  A step is one statement of one thread.
 */
module RwLock {

  datatype Pc =
    | Idle
    // rw_lock_rlock
    | WantIn        // before pthread_mutex_lock
    | CountIn       // before n_readers++
    | TestIn        // before the test n_readers == 1
    | WaitIn        // before sem_wait, the mutex held
    | LeaveIn       // before pthread_mutex_unlock
    | Reading
    // rw_lock_runlock
    | WantOut       // before pthread_mutex_lock
    | CountOut      // before n_readers--
    | TestOut       // before the test n_readers == 0
    | PostOut       // before sem_post
    | LeaveOut      // before pthread_mutex_unlock
    // rw_lock_wlock, rw_lock_wunlock
    | WantWrite     // before sem_wait
    | Writing
    | WantPost      // before sem_post

  /** `mutex` names the thread that holds it; `sem` is the semaphore's value. */
  datatype Lock = Lock(pc: map<nat, Pc>, mutex: Holder, sem: nat, readers: int)
  datatype Holder = Free | HeldBy(tid: nat)

  predicate Init(l: Lock) {
    l.mutex.Free? && l.sem == 1 && l.readers == 0 && forall t :: t in l.pc ==> l.pc[t].Idle?
  }

  datatype Op = BeginRead | BeginWrite | EndSection | Advance

  /** Can thread `t` take this step?  Only mutex_lock and sem_wait block. */
  predicate Can(l: Lock, t: nat, op: Op) {
    && t in l.pc
    && match op
       case BeginRead => l.pc[t].Idle?
       case BeginWrite => l.pc[t].Idle?
       case EndSection => l.pc[t].Reading? || l.pc[t].Writing?
       case Advance =>
         match l.pc[t]
         case Idle | Reading | Writing => false
         case WantIn | WantOut => l.mutex.Free?
         case WaitIn | WantWrite => l.sem > 0
         case _ => true
  }

  function Do(l: Lock, t: nat, op: Op): Lock
    requires Can(l, t, op)
  {
    match op
    case BeginRead => l.(pc := l.pc[t := WantIn])
    case BeginWrite => l.(pc := l.pc[t := WantWrite])
    case EndSection => l.(pc := l.pc[t := if l.pc[t].Reading? then WantOut else WantPost])
    case Advance =>
      match l.pc[t]
      case WantIn => l.(pc := l.pc[t := CountIn], mutex := HeldBy(t))
      case CountIn => l.(pc := l.pc[t := TestIn], readers := l.readers + 1)
      case TestIn => l.(pc := l.pc[t := if l.readers == 1 then WaitIn else LeaveIn])
      case WaitIn => l.(pc := l.pc[t := LeaveIn], sem := l.sem - 1)
      case LeaveIn => l.(pc := l.pc[t := Reading], mutex := Free)
      case WantOut => l.(pc := l.pc[t := CountOut], mutex := HeldBy(t))
      case CountOut => l.(pc := l.pc[t := TestOut], readers := l.readers - 1)
      case TestOut => l.(pc := l.pc[t := if l.readers == 0 then PostOut else LeaveOut])
      case PostOut => l.(pc := l.pc[t := LeaveOut], sem := l.sem + 1)
      case LeaveOut => l.(pc := l.pc[t := Idle], mutex := Free)
      case WantWrite => l.(pc := l.pc[t := Writing], sem := l.sem - 1)
      case WantPost => l.(pc := l.pc[t := Idle], sem := l.sem + 1)
  }

  // ----- The invariant: counters against sets of threads -----

  predicate Counted(p: Pc) {
    p.TestIn? || p.WaitIn? || p.LeaveIn? || p.Reading? || p.WantOut? || p.CountOut?
  }

  predicate Writes(p: Pc) {
    p.Writing? || p.WantPost?
  }

  predicate HoldsMutex(p: Pc) {
    || p.CountIn? || p.TestIn? || p.WaitIn? || p.LeaveIn?
    || p.CountOut? || p.TestOut? || p.PostOut? || p.LeaveOut?
  }

  function CountedIn(l: Lock): set<nat> {
    set t | t in l.pc && Counted(l.pc[t])
  }

  function WritersIn(l: Lock): set<nat> {
    set t | t in l.pc && Writes(l.pc[t])
  }

  /** The readers as a group hold the semaphore's unit, except while their first or last is at it. */
  predicate GroupHolds(l: Lock) {
    match l.mutex
    case Free => l.readers > 0
    case HeldBy(h) =>
      if h in l.pc && (l.pc[h].WaitIn? || (l.pc[h].TestIn? && l.readers == 1)) then false
      else if h in l.pc && (l.pc[h].PostOut? || (l.pc[h].TestOut? && l.readers == 0)) then true
      else l.readers > 0
  }

  /** The semaphore's one unit is at the semaphore, with a writer, or with the readers. */
  predicate Unit(l: Lock) {
    l.sem + |WritersIn(l)| + (if GroupHolds(l) then 1 else 0) == 1
  }

  predicate MutexOwned(l: Lock) {
    forall t :: t in l.pc ==> (HoldsMutex(l.pc[t]) <==> l.mutex == HeldBy(t))
  }

  predicate AtPc(l: Lock, t: nat) {
    t in l.pc ==>
      && (l.pc[t].WaitIn? ==> l.readers == 1)
      && (l.pc[t].PostOut? ==> l.readers == 0)
  }

  ghost predicate Inv(l: Lock) {
    && MutexOwned(l)
    && (l.mutex.HeldBy? ==> l.mutex.tid in l.pc)
    && l.readers == |CountedIn(l)|
    && (forall t :: AtPc(l, t))
    && Unit(l)
  }

  lemma InitInv(l: Lock)
    requires Init(l)
    ensures Inv(l)
  {
    assert CountedIn(l) == {};
    assert WritersIn(l) == {};
  }

  /** How one thread's move changes the two sets. */
  lemma SetsMove(l: Lock, l': Lock, t: nat)
    requires t in l.pc && l'.pc.Keys == l.pc.Keys && l'.pc == l.pc[t := l'.pc[t]]
    ensures CountedIn(l') == if Counted(l'.pc[t]) then CountedIn(l) + {t} else CountedIn(l) - {t}
    ensures WritersIn(l') == if Writes(l'.pc[t]) then WritersIn(l) + {t} else WritersIn(l) - {t}
  {
  }

  lemma DoFrame(l: Lock, t: nat, op: Op)
    requires Can(l, t, op)
    ensures var l' := Do(l, t, op);
            l'.pc.Keys == l.pc.Keys && l'.pc == l.pc[t := l'.pc[t]]
  {
  }

  /** What any thread's step does to the mutex. */
  lemma MutexKept(l: Lock, t: nat, op: Op)
    requires Can(l, t, op) && MutexOwned(l)
    ensures MutexOwned(Do(l, t, op))
  {
    DoFrame(l, t, op);
  }

  lemma CountKept(l: Lock, t: nat, op: Op)
    requires Can(l, t, op) && Inv(l)
    ensures Do(l, t, op).readers == |CountedIn(Do(l, t, op))|
  {
    DoFrame(l, t, op);
    SetsMove(l, Do(l, t, op), t);
  }

  lemma AtPcKept(l: Lock, t: nat, op: Op)
    requires Can(l, t, op) && Inv(l)
    ensures forall u :: AtPc(Do(l, t, op), u)
  {
    DoFrame(l, t, op);
    forall u
      ensures AtPc(Do(l, t, op), u)
    {
      assert AtPc(l, u) && AtPc(l, t);
      assert u in l.pc ==> (HoldsMutex(l.pc[u]) <==> l.mutex == HeldBy(u));
    }
  }

  lemma OwnAtPc(l: Lock, t: nat)
    requires Inv(l) && t in l.pc
    ensures Counted(l.pc[t]) ==> l.readers > 0
    ensures l.pc[t].WaitIn? ==> CountedIn(l) == {t}
  {
    assert AtPc(l, t);
    if Counted(l.pc[t]) {
      assert t in CountedIn(l);
      if l.pc[t].WaitIn? && CountedIn(l) != {t} {
        OneOnly(CountedIn(l), t);
      }
    }
  }

  lemma OneOnly(s: set<nat>, t: nat)
    requires t in s && |s| == 1
    ensures s == {t}
  {
    assert |s - {t}| == 0;
  }

  /** Writers' steps pass the unit between the semaphore and the writer. */
  lemma UnitKeptByWriter(l: Lock, t: nat, op: Op)
    requires Can(l, t, op) && Inv(l)
    requires l.pc[t].WantWrite? || Writes(l.pc[t]) || op.BeginWrite?
    ensures Unit(Do(l, t, op))
  {
    DoFrame(l, t, op);
    SetsMove(l, Do(l, t, op), t);
    GroupStays(l, t, op);
    WritersMove(l, t, op);
  }

  lemma GroupStays(l: Lock, t: nat, op: Op)
    requires Can(l, t, op) && MutexOwned(l)
    requires l.pc[t].WantWrite? || Writes(l.pc[t]) || op.BeginWrite?
    ensures GroupHolds(Do(l, t, op)) == GroupHolds(l)
  {
    assert HoldsMutex(l.pc[t]) <==> l.mutex == HeldBy(t);
  }

  lemma WritersMove(l: Lock, t: nat, op: Op)
    requires Can(l, t, op)
    requires l.pc[t].WantWrite? || Writes(l.pc[t]) || op.BeginWrite?
    requires WritersIn(Do(l, t, op)) == if Writes(Do(l, t, op).pc[t]) then WritersIn(l) + {t} else WritersIn(l) - {t}
    ensures Do(l, t, op).sem + |WritersIn(Do(l, t, op))| == l.sem + |WritersIn(l)|
  {
    assert t in WritersIn(l) <==> Writes(l.pc[t]);
    if t in WritersIn(l) {
      assert |WritersIn(l) - {t}| == |WritersIn(l)| - 1 && WritersIn(l) + {t} == WritersIn(l);
    } else {
      assert WritersIn(l) - {t} == WritersIn(l);
    }
  }

  /** Readers' steps pass it between the semaphore and the group of readers. */
  lemma UnitKeptByReader(l: Lock, t: nat, op: Op)
    requires Can(l, t, op) && Inv(l)
    requires !l.pc[t].WantWrite? && !Writes(l.pc[t]) && !op.BeginWrite?
    ensures Unit(Do(l, t, op))
  {
    DoFrame(l, t, op);
    SetsMove(l, Do(l, t, op), t);
    assert WritersIn(Do(l, t, op)) == WritersIn(l);
    assert AtPc(l, t);
    OwnAtPc(l, t);
    assert HoldsMutex(l.pc[t]) <==> l.mutex == HeldBy(t);
    GroupMoves(l, t, op);
  }

  /** The group gains or gives up the unit only at its first reader's wait and its last reader's post. */
  lemma GroupMoves(l: Lock, t: nat, op: Op)
    requires Can(l, t, op) && !l.pc[t].WantWrite? && !Writes(l.pc[t]) && !op.BeginWrite?
    requires HoldsMutex(l.pc[t]) <==> l.mutex == HeldBy(t)
    requires Counted(l.pc[t]) ==> l.readers > 0
    requires l.readers >= 0 && AtPc(l, t)
    ensures op.Advance? && l.pc[t].WaitIn? ==> !GroupHolds(l) && GroupHolds(Do(l, t, op))
    ensures op.Advance? && l.pc[t].PostOut? ==> GroupHolds(l) && !GroupHolds(Do(l, t, op))
    ensures !(op.Advance? && (l.pc[t].WaitIn? || l.pc[t].PostOut?)) ==> GroupHolds(l) == GroupHolds(Do(l, t, op))
  {
  }

  lemma UnitKept(l: Lock, t: nat, op: Op)
    requires Can(l, t, op) && Inv(l)
    ensures Unit(Do(l, t, op))
  {
    if l.pc[t].WantWrite? || Writes(l.pc[t]) || op.BeginWrite? {
      UnitKeptByWriter(l, t, op);
    } else {
      UnitKeptByReader(l, t, op);
    }
  }

  lemma InvKept(l: Lock, t: nat, op: Op)
    requires Can(l, t, op) && Inv(l)
    ensures Inv(Do(l, t, op))
  {
    MutexKept(l, t, op);
    CountKept(l, t, op);
    AtPcKept(l, t, op);
    UnitKept(l, t, op);
    DoFrame(l, t, op);
  }

  // ----- Runs -----

  datatype Step = Step(tid: nat, op: Op)

  ghost predicate Runs(start: Lock, steps: seq<Step>)
    decreases |steps|, 0
  {
    steps == [] ||
    (var before, s := steps[..|steps| - 1], steps[|steps| - 1];
     Runs(start, before) && Can(After(start, before), s.tid, s.op))
  }

  ghost function After(start: Lock, steps: seq<Step>): Lock
    requires Runs(start, steps)
    decreases |steps|, 1
  {
    if steps == [] then start
    else Do(After(start, steps[..|steps| - 1]), steps[|steps| - 1].tid, steps[|steps| - 1].op)
  }

  lemma {:induction false} Reachable(start: Lock, steps: seq<Step>)
    requires Init(start) && Runs(start, steps)
    ensures Inv(After(start, steps))
  {
    if steps == [] {
      InitInv(start);
    } else {
      Reachable(start, steps[..|steps| - 1]);
      InvKept(After(start, steps[..|steps| - 1]), steps[|steps| - 1].tid, steps[|steps| - 1].op);
    }
  }

  // ----- Exclusion -----

  lemma TwoWriters(l: Lock, t: nat, u: nat)
    requires Inv(l) && t in l.pc && u in l.pc && Writes(l.pc[t]) && Writes(l.pc[u])
    ensures t == u
  {
    OneAtMost(WritersIn(l), t, u);
  }

  lemma OneAtMost(s: set<nat>, t: nat, u: nat)
    requires t in s && u in s && |s| <= 1
    ensures t == u
  {
    OneOnly(s, t);
  }

  lemma ReaderExcludes(l: Lock, t: nat)
    requires Inv(l) && t in l.pc && l.pc[t].Reading?
    ensures WritersIn(l) == {} && l.sem == 0
  {
    assert t in CountedIn(l);
    match l.mutex
    case Free =>
    case HeldBy(h) =>
      assert AtPc(l, h);
      assert HoldsMutex(l.pc[h]);
      OwnAtPc(l, h);
      if l.pc[h].TestIn? && l.readers == 1 {
        assert h in CountedIn(l);
        OneOnly(CountedIn(l), t);
      }
  }

  /** Readers exclude writers and writers exclude each other, in every reachable state. */
  lemma Exclusion(start: Lock, steps: seq<Step>, t: nat, u: nat)
    requires Init(start) && Runs(start, steps) && t in start.pc && u in start.pc && t != u
    ensures After(start, steps).pc.Keys == start.pc.Keys
    ensures After(start, steps).pc[t].Writing? ==>
              !After(start, steps).pc[u].Writing? && !After(start, steps).pc[u].Reading?
  {
    Reachable(start, steps);
    SameThreads(start, steps);
    var l := After(start, steps);
    if l.pc[t].Writing? {
      assert t in WritersIn(l);
      if l.pc[u].Writing? {
        TwoWriters(l, t, u);
      }
      if l.pc[u].Reading? {
        ReaderExcludes(l, u);
      }
    }
  }

  lemma {:induction false} SameThreads(start: Lock, steps: seq<Step>)
    requires Runs(start, steps)
    ensures After(start, steps).pc.Keys == start.pc.Keys
  {
    if steps != [] {
      SameThreads(start, steps[..|steps| - 1]);
    }
  }

  // ----- Progress -----

  /** A thread can go on with what it is doing: take its next statement, or end its section. */
  predicate Moves(l: Lock, t: nat) {
    Can(l, t, Advance) || Can(l, t, EndSection)
  }

  /** No deadlock: whenever some thread is not idle, some thread that is not idle can move. */
  lemma Progress(start: Lock, steps: seq<Step>, busy: nat) returns (mover: nat)
    requires Init(start) && Runs(start, steps)
    requires busy in After(start, steps).pc && !After(start, steps).pc[busy].Idle?
    ensures Moves(After(start, steps), mover)
  {
    Reachable(start, steps);
    mover := SomeoneMoves(After(start, steps), busy);
  }

  lemma SomeoneMoves(l: Lock, busy: nat) returns (mover: nat)
    requires Inv(l) && busy in l.pc && !l.pc[busy].Idle?
    ensures Moves(l, mover)
  {
    mover := busy;
    if !Moves(l, busy) {
      if l.mutex.HeldBy? {
        mover := HolderOrWriter(l);
      } else if l.pc[busy].WantWrite? {
        mover := UnitHolder(l);
      }
    }
  }

  /** The mutex's holder moves, unless it waits for a writer, and then the writer does. */
  lemma HolderOrWriter(l: Lock) returns (mover: nat)
    requires Inv(l) && l.mutex.HeldBy?
    ensures Moves(l, mover)
  {
    mover := l.mutex.tid;
    assert HoldsMutex(l.pc[mover]);
    if l.pc[mover].WaitIn? && l.sem == 0 {
      assert |WritersIn(l)| == 1;
      mover :| mover in WritersIn(l);
    }
  }

  /** The semaphore is taken and the mutex free: a writer has it, or some counted reader moves. */
  lemma UnitHolder(l: Lock) returns (mover: nat)
    requires Inv(l) && l.mutex.Free? && l.sem == 0
    ensures Moves(l, mover)
  {
    if WritersIn(l) != {} {
      mover :| mover in WritersIn(l);
    } else {
      assert CountedIn(l) != {};
      mover :| mover in CountedIn(l);
      assert !HoldsMutex(l.pc[mover]);
    }
  }

  /** When every thread is idle again the lock is as it was made. */
  lemma AllIdleResets(start: Lock, steps: seq<Step>)
    requires Init(start) && Runs(start, steps)
    requires forall t :: t in After(start, steps).pc ==> After(start, steps).pc[t].Idle?
    ensures Init(After(start, steps))
  {
    Reachable(start, steps);
    var l := After(start, steps);
    assert CountedIn(l) == {} && WritersIn(l) == {};
  }
}
