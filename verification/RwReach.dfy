/** What the lock of src/thread/rwlock.c lets threads do: finish, read together, and write. */
module RwReach {
  import opened RwLock
  import opened Sums

  lemma Extend(start: Lock, steps: seq<Step>, t: nat, op: Op) returns (longer: seq<Step>)
    requires Runs(start, steps) && Can(After(start, steps), t, op)
    ensures steps <= longer && |longer| == |steps| + 1
    ensures Runs(start, longer) && After(start, longer) == Do(After(start, steps), t, op)
  {
    longer := steps + [Step(t, op)];
    assert longer[..|steps|] == steps;
  }

  // ----- Every section can be finished -----

  /** The statements a thread has left until it is idle. */
  function ToIdle(p: Pc): nat {
    match p
    case Idle => 0
    case LeaveOut => 1
    case PostOut => 2
    case TestOut => 3
    case CountOut => 4
    case WantOut => 5
    case Reading => 6
    case LeaveIn => 7
    case WaitIn => 8
    case TestIn => 9
    case CountIn => 10
    case WantIn => 11
    case WantPost => 1
    case Writing => 2
    case WantWrite => 3
  }

  function Works(l: Lock): map<nat, nat> {
    map t | t in l.pc :: ToIdle(l.pc[t])
  }

  lemma WorkShrinks(l: Lock, t: nat, op: Op)
    requires Can(l, t, op) && (op.Advance? || op.EndSection?)
    ensures Sum(Works(Do(l, t, op)), Do(l, t, op).pc.Keys) < Sum(Works(l), l.pc.Keys)
  {
    var l' := Do(l, t, op);
    DoFrame(l, t, op);
    SumLess(Works(l), Works(l'), l.pc.Keys, t);
  }

  /** From every reachable state all threads can get out again. */
  lemma {:induction false} AllCanFinish(start: Lock, steps: seq<Step>) returns (more: seq<Step>)
    requires Init(start) && Runs(start, steps)
    ensures steps <= more && Runs(start, more)
    ensures forall t :: t in After(start, more).pc ==> After(start, more).pc[t].Idle?
    decreases Sum(Works(After(start, steps)), After(start, steps).pc.Keys)
  {
    var l := After(start, steps);
    if busy :| busy in l.pc && !l.pc[busy].Idle? {
      var t := Progress(start, steps, busy);
      var op := if Can(l, t, Advance) then Advance else EndSection;
      var longer := Extend(start, steps, t, op);
      WorkShrinks(l, t, op);
      more := AllCanFinish(start, longer);
    } else {
      more := steps;
    }
  }

  /** And when they are out, any of them can go on to write. */
  lemma WriterEnters(start: Lock, steps: seq<Step>, t: nat) returns (more: seq<Step>)
    requires Init(start) && Runs(start, steps) && t in After(start, steps).pc
    requires forall u :: u in After(start, steps).pc ==> After(start, steps).pc[u].Idle?
    ensures steps <= more && Runs(start, more)
    ensures After(start, more).pc == After(start, steps).pc[t := Writing]
  {
    AllIdleResets(start, steps);
    more := Extend(start, steps, t, BeginWrite);
    more := Extend(start, more, t, Advance);
  }

  // ----- Readers share -----

  /** Nobody holds the lock for writing or waits to. */
  predicate NoWriter(l: Lock) {
    forall t :: t in l.pc ==> !l.pc[t].WantWrite? && !l.pc[t].Writing? && !l.pc[t].WantPost?
  }

  /** The statements an entering reader has left until it reads. */
  function ToReading(p: Pc): nat {
    match p
    case Idle => 6
    case WantIn => 5
    case CountIn => 4
    case TestIn => 3
    case WaitIn => 2
    case LeaveIn => 1
    case _ => 0
  }

  function Entering(l: Lock, ts: set<nat>): map<nat, nat>
    requires ts <= l.pc.Keys
  {
    map t | t in ts :: ToReading(l.pc[t])
  }

  predicate Enters(p: Pc) {
    ToReading(p) > 0 || p.Reading?
  }

  /** The statements the mutex's holder has left until it unlocks. */
  function ToUnlock(l: Lock): nat {
    if l.mutex.Free? || l.mutex.tid !in l.pc then 0
    else
      match l.pc[l.mutex.tid]
      case CountIn => 4
      case TestIn => 3
      case WaitIn => 2
      case LeaveIn => 1
      case CountOut => 4
      case TestOut => 3
      case PostOut => 2
      case LeaveOut => 1
      case _ => 0
  }

  lemma NoWriterKept(l: Lock, t: nat, op: Op)
    requires Can(l, t, op) && NoWriter(l) && !op.BeginWrite?
    ensures NoWriter(Do(l, t, op))
  {
    DoFrame(l, t, op);
  }

  /** With no writer about, the mutex's holder always goes on. */
  lemma HolderGoes(l: Lock, h: nat)
    requires Inv(l) && NoWriter(l) && l.mutex == HeldBy(h)
    ensures Can(l, h, Advance) && ToUnlock(Do(l, h, Advance)) < ToUnlock(l)
    ensures Enters(l.pc[h]) ==>
              Enters(Do(l, h, Advance).pc[h]) && ToReading(Do(l, h, Advance).pc[h]) < ToReading(l.pc[h])
  {
    assert HoldsMutex(l.pc[h]) && WritersIn(l) == {};
  }

  predicate Nearer(l': Lock, l: Lock, ts: set<nat>, t: nat) {
    && ts <= l.pc.Keys && l'.pc.Keys == l.pc.Keys
    && (t in ts ==> Enters(l'.pc[t]))
    && (forall u :: u in ts && u != t ==> l'.pc[u] == l.pc[u])
    && (if t in ts then ToReading(l'.pc[t]) < ToReading(l.pc[t]) else ToUnlock(l') < ToUnlock(l))
  }

  lemma NextReader(l: Lock, ts: set<nat>) returns (t: nat, op: Op)
    requires Inv(l) && NoWriter(l) && ts <= l.pc.Keys && forall u :: u in ts ==> Enters(l.pc[u])
    requires exists u :: u in ts && !l.pc[u].Reading?
    ensures Can(l, t, op) && !op.BeginWrite? && Nearer(Do(l, t, op), l, ts, t)
  {
    if l.mutex.HeldBy? {
      t, op := l.mutex.tid, Advance;
      HolderGoes(l, t);
      DoFrame(l, t, op);
    } else {
      t :| t in ts && !l.pc[t].Reading?;
      assert !HoldsMutex(l.pc[t]);
      op := if l.pc[t].Idle? then BeginRead else Advance;
      DoFrame(l, t, op);
    }
  }

  lemma NearerSum(l': Lock, l: Lock, ts: set<nat>, t: nat)
    requires Nearer(l', l, ts, t)
    ensures var s', s := Sum(Entering(l', ts), ts), Sum(Entering(l, ts), ts);
            s' < s || (s' == s && ToUnlock(l') < ToUnlock(l))
  {
    if t in ts {
      SumLess(Entering(l, ts), Entering(l', ts), ts, t);
    } else {
      SumSame(Entering(l', ts), Entering(l, ts), ts);
    }
  }

  lemma {:induction false} AllRead(start: Lock, steps: seq<Step>, ts: set<nat>) returns (more: seq<Step>)
    requires Init(start) && Runs(start, steps) && NoWriter(After(start, steps))
    requires ts <= After(start, steps).pc.Keys
    requires forall t :: t in ts ==> Enters(After(start, steps).pc[t])
    ensures steps <= more && Runs(start, more) && ts <= After(start, more).pc.Keys
    ensures forall t :: t in ts ==> After(start, more).pc[t].Reading?
    decreases Sum(Entering(After(start, steps), ts), ts), ToUnlock(After(start, steps))
  {
    var l := After(start, steps);
    if exists u :: u in ts && !l.pc[u].Reading? {
      Reachable(start, steps);
      var t, op := NextReader(l, ts);
      NoWriterKept(l, t, op);
      NearerSum(Do(l, t, op), l, ts, t);
      var longer := Extend(start, steps, t, op);
      more := AllRead(start, longer, ts);
    } else {
      more := steps;
    }
  }

  /**
   * Readers share: from every reachable state in which nobody writes or waits to, all threads that are
   * idle can come to read together, beside all that are reading already.
   */
  lemma ReadersTogether(start: Lock, steps: seq<Step>) returns (more: seq<Step>)
    requires Init(start) && Runs(start, steps) && NoWriter(After(start, steps))
    ensures steps <= more && Runs(start, more)
    ensures forall t :: t in After(start, steps).pc
                        && (After(start, steps).pc[t].Idle? || After(start, steps).pc[t].Reading?) ==>
              t in After(start, more).pc && After(start, more).pc[t].Reading?
  {
    var l := After(start, steps);
    more := AllRead(start, steps, set t | t in l.pc && (l.pc[t].Idle? || l.pc[t].Reading?));
  }

  // ----- What a thread waits for -----

  /** An idle thread can begin either kind of section, one inside can end it, and any other goes on but for these. */
  lemma WaitsOnlyFor(l: Lock, t: nat)
    requires t in l.pc
    ensures l.pc[t].Idle? ==> Can(l, t, BeginRead) && Can(l, t, BeginWrite)
    ensures l.pc[t].Reading? || l.pc[t].Writing? ==> Can(l, t, EndSection)
    ensures !l.pc[t].Idle? && !l.pc[t].Reading? && !l.pc[t].Writing? && !Can(l, t, Advance) ==>
              || ((l.pc[t].WantIn? || l.pc[t].WantOut?) && !l.mutex.Free?)
              || ((l.pc[t].WaitIn? || l.pc[t].WantWrite?) && l.sem == 0)
  {
  }
}
