/** Calls of mem_get and mem_put can always be made, finish, and give back all they took. */
module RegionProgress {
  import opened Common
  import opened Clmem
  import opened RegionMachine
  import opened RegionLinear
  import opened Sums
  import RwLock

  lemma Extend(start: Region, steps: seq<Step>, t: nat, m: Move) returns (longer: seq<Step>)
    requires Runs(start, steps) && Can(After(start, steps), t, m)
    ensures steps <= longer && |longer| == |steps| + 1 && longer[|steps|] == Step(t, m)
    ensures Runs(start, longer) && After(start, longer) == Do(After(start, steps), t, m)
  {
    longer := steps + [Step(t, m)];
    assert longer[..|steps|] == steps;
  }

  predicate IsCall(m: Move) {
    m.CallGet? || m.CallPut?
  }

  // ----- Some call in progress can always go on -----

  /** What a thread does next inside its section. */
  function InsideMove(b: Body): Move {
    match b
    case Getting(_, _) => Measure
    case Copying(_, n, got, _, _) => if |got| < n then CopyByte else DoneGet
    case Putting(_, _, _, _) => Check
    case Taking(stage, _, _, _, _, _) => if stage.TakeDone? then DonePut else Assign
    case Refused(_, _, _, _, _) => DonePut
    case _ => Return
  }

  lemma InsideGoes(s: Region, t: nat)
    requires LockPart(s) && CopyPart(s) && t in s.body && t in s.lock.pc
    requires s.lock.pc[t].Reading? || s.lock.pc[t].Writing?
    ensures !s.body[t].Out? && Can(s, t, InsideMove(s.body[t])) && !IsCall(InsideMove(s.body[t]))
  {
    assert Fits(s, t);
    assert s.body[t].Copying? ==> CopyOk(s, s.body[t]);
  }

  lemma BusyBody(s: Region, t: nat)
    requires LockPart(s) && t in s.body && t in s.lock.pc && !s.lock.pc[t].Idle?
    ensures !s.body[t].Out?
  {
    assert Fits(s, t);
  }

  /** No deadlock: whenever a call is in progress, some call in progress has a move. */
  lemma SomeCallMoves(s: Region, busy: nat) returns (t: nat, m: Move)
    requires Inv(s) && busy in s.body && !s.body[busy].Out?
    ensures Can(s, t, m) && !IsCall(m) && !s.body[t].Out?
  {
    assert Fits(s, busy);
    if s.lock.pc[busy].Idle? {
      IdleReturns(s, busy);
      t, m := busy, Return;
    } else {
      t := RwLock.SomeoneMoves(s.lock, busy);
      if RwLock.Can(s.lock, t, RwLock.Advance) {
        m := LockStep;
        BusyBody(s, t);
      } else {
        InsideGoes(s, t);
        m := InsideMove(s.body[t]);
      }
    }
  }

  // ----- Every call in progress can be finished -----

  function LockLeft(p: RwLock.Pc): nat {
    match p
    case WantIn => 5
    case CountIn => 4
    case TestIn => 3
    case WaitIn => 2
    case LeaveIn => 1
    case WantOut => 5
    case CountOut => 4
    case TestOut => 3
    case PostOut => 2
    case LeaveOut => 1
    case WantWrite => 1
    case WantPost => 1
    case _ => 0
  }

  function StageLeft(stage: Stage): nat {
    match stage
    case FreeOld => 4
    case SetData => 3
    case SetSize => 2
    case SetStamp => 1
    case TakeDone => 0
  }

  /** At least as many moves as a call has left. */
  function Left(b: Body, p: RwLock.Pc): nat {
    match b
    case Out => 0
    case Leaving(_, _, _, _, _) => 1 + LockLeft(p)
    case Copying(_, n, got, _, _) => 10 + if |got| < n then n - |got| else 0
    case Getting(size, _) => 20 + size + LockLeft(p)
    case Refused(_, _, _, _, _) => 10
    case Taking(stage, _, _, _, _, _) => 10 + StageLeft(stage)
    case Putting(_, _, _, _) => 20 + LockLeft(p)
  }

  function Lefts(s: Region): map<nat, nat>
    requires s.body.Keys <= s.lock.pc.Keys
  {
    map t | t in s.body :: Left(s.body[t], s.lock.pc[t])
  }

  /** A move is its thread's own affair. */
  lemma OthersStay(s: Region, t: nat, m: Move)
    requires Can(s, t, m)
    ensures var s' := Do(s, t, m);
            && s'.body.Keys == s.body.Keys && s'.lock.pc.Keys == s.lock.pc.Keys
            && s'.body == s.body[t := s'.body[t]] && s'.lock.pc == s.lock.pc[t := s'.lock.pc[t]]
  {
    LockStays(s, t, m);
  }

  lemma LockStays(s: Region, t: nat, m: Move)
    requires Can(s, t, m)
    ensures var pc, pc' := s.lock.pc, Do(s, t, m).lock.pc; pc'.Keys == pc.Keys && pc' == pc[t := pc'[t]]
  {
    match m
    case CallGet(_) => RwLock.DoFrame(s.lock, t, RwLock.BeginRead);
    case CallPut(_, _) => RwLock.DoFrame(s.lock, t, RwLock.BeginWrite);
    case LockStep => RwLock.DoFrame(s.lock, t, RwLock.Advance);
    case DoneGet => RwLock.DoFrame(s.lock, t, RwLock.EndSection);
    case DonePut => RwLock.DoFrame(s.lock, t, RwLock.EndSection);
    case _ =>
  }

  lemma LockLess(s: Region, t: nat)
    requires LockPart(s) && Can(s, t, LockStep)
    ensures var s' := Do(s, t, LockStep); Left(s'.body[t], s'.lock.pc[t]) < Left(s.body[t], s.lock.pc[t])
  {
    assert Fits(s, t);
  }

  lemma InsideLess(s: Region, t: nat, m: Move)
    requires Fits(s, t) && Can(s, t, m) && !IsCall(m) && !m.LockStep?
    ensures var s' := Do(s, t, m); Left(s'.body[t], s'.lock.pc[t]) < Left(s.body[t], s.lock.pc[t])
  {
  }

  lemma OwnLess(s: Region, t: nat, m: Move)
    requires LockPart(s) && Can(s, t, m) && !IsCall(m)
    ensures var s' := Do(s, t, m); Left(s'.body[t], s'.lock.pc[t]) < Left(s.body[t], s.lock.pc[t])
  {
    assert Fits(s, t);
    if m.LockStep? {
      LockLess(s, t);
    } else {
      InsideLess(s, t, m);
    }
  }

  ghost function WorkLeft(s: Region): nat {
    if s.body.Keys <= s.lock.pc.Keys then Sum(Lefts(s), s.body.Keys) else 0
  }

  lemma WorkShrinks(s: Region, t: nat, m: Move)
    requires LockPart(s) && Can(s, t, m) && !IsCall(m)
    ensures WorkLeft(Do(s, t, m)) < WorkLeft(s)
  {
    OthersStay(s, t, m);
    OwnLess(s, t, m);
    SumLess(Lefts(s), Lefts(Do(s, t, m)), s.body.Keys, t);
  }

  /** A move of a call in progress, after which there is less left. */
  lemma NextOn(s: Region, busy: nat) returns (t: nat, m: Move)
    requires Inv(s) && busy in s.body && !s.body[busy].Out?
    ensures Can(s, t, m) && !IsCall(m) && !s.body[t].Out? && Fits(s, t)
    ensures WorkLeft(Do(s, t, m)) < WorkLeft(s)
  {
    t, m := SomeCallMoves(s, busy);
    assert LockPart(s);
    assert Fits(s, t);
    WorkShrinks(s, t, m);
  }

  /** A finished call of thread `t` in `done`, at or after entry `from`. */
  predicate Finishes(s: Region, from: nat, t: nat, c: Call, start: nat) {
    exists i :: from <= i < |s.done| && s.done[i].tid == t && s.done[i].call == c && s.done[i].start == start
  }

  /** Each call of the first state is still the thread's call in the second, or finished in between. */
  ghost predicate Accounted(s0: Region, s: Region) {
    && s.body.Keys == s0.body.Keys
    && |s0.done| <= |s.done|
    && forall t :: t in s0.body && !s0.body[t].Out? ==>
         || (!s.body[t].Out? && CallOf(s.body[t]) == CallOf(s0.body[t]) && s.body[t].start == s0.body[t].start)
         || Finishes(s, |s0.done|, t, CallOf(s0.body[t]), s0.body[t].start)
  }

  /** A move that is not a call goes on with the thread's call, or finishes it. */
  lemma CallGoesOn(s: Region, t: nat, m: Move)
    requires Fits(s, t) && Can(s, t, m) && !IsCall(m) && !s.body[t].Out?
    ensures var s' := Do(s, t, m);
            if m.Return? then
              && |s'.done| == |s.done| + 1 && s.done <= s'.done && s'.body[t].Out?
              && s'.done[|s.done|].tid == t && s'.done[|s.done|].call == CallOf(s.body[t])
              && s'.done[|s.done|].start == s.body[t].start
            else
              && s'.done == s.done && !s'.body[t].Out?
              && CallOf(s'.body[t]) == CallOf(s.body[t]) && s'.body[t].start == s.body[t].start
  {
  }

  lemma AccountedStep(s0: Region, s: Region, t: nat, m: Move)
    requires Fits(s, t) && Accounted(s0, s) && Can(s, t, m) && !IsCall(m) && !s.body[t].Out?
    ensures Accounted(s0, Do(s, t, m))
  {
    OthersStay(s, t, m);
    CallGoesOn(s, t, m);
    var s' := Do(s, t, m);
    forall u | u in s0.body && !s0.body[u].Out?
      ensures || (!s'.body[u].Out? && CallOf(s'.body[u]) == CallOf(s0.body[u]) && s'.body[u].start == s0.body[u].start)
              || Finishes(s', |s0.done|, u, CallOf(s0.body[u]), s0.body[u].start)
    {
      if Finishes(s, |s0.done|, u, CallOf(s0.body[u]), s0.body[u].start) {
        StillFinished(s, s', |s0.done|, u, CallOf(s0.body[u]), s0.body[u].start);
      } else if u == t && m.Return? {
        assert s'.done[|s.done|].tid == u;
      }
    }
  }

  lemma StillFinished(s: Region, s': Region, from: nat, t: nat, c: Call, start: nat)
    requires Finishes(s, from, t, c, start) && s.done <= s'.done
    ensures Finishes(s', from, t, c, start)
  {
    var i :| from <= i < |s.done| && s.done[i].tid == t && s.done[i].call == c && s.done[i].start == start;
    assert s'.done[i] == s.done[i];
  }

  /** From step `k` on there is no new call. */
  predicate NoCalls(steps: seq<Step>, k: nat) {
    forall i :: k <= i < |steps| ==> !IsCall(steps[i].move)
  }

  /** One move on by a call in progress. */
  lemma NextAfter(start: Region, steps: seq<Step>, busy: nat) returns (t: nat, m: Move)
    requires Init(start) && Runs(start, steps)
    requires busy in After(start, steps).body && !After(start, steps).body[busy].Out?
    ensures Can(After(start, steps), t, m) && !IsCall(m) && !After(start, steps).body[t].Out?
    ensures Fits(After(start, steps), t)
    ensures WorkLeft(Do(After(start, steps), t, m)) < WorkLeft(After(start, steps))
  {
    Reachable(start, steps);
    t, m := NextOn(After(start, steps), busy);
  }

  lemma OneOn(start: Region, steps: seq<Step>, busy: nat) returns (longer: seq<Step>, t: nat, m: Move)
    requires Init(start) && Runs(start, steps)
    requires busy in After(start, steps).body && !After(start, steps).body[busy].Out?
    ensures steps <= longer && |longer| == |steps| + 1 && Runs(start, longer) && NoCalls(longer, |steps|)
    ensures Can(After(start, steps), t, m) && !IsCall(m) && !After(start, steps).body[t].Out?
    ensures After(start, longer) == Do(After(start, steps), t, m)
    ensures Fits(After(start, steps), t)
    ensures WorkLeft(After(start, longer)) < WorkLeft(After(start, steps))
  {
    t, m := NextAfter(start, steps, busy);
    longer := Extend(start, steps, t, m);
  }

  predicate AllOut(s: Region) {
    forall t :: t in s.body ==> s.body[t].Out?
  }

  lemma AccountedOn(start: Region, steps: seq<Step>, s0: Region, busy: nat) returns (longer: seq<Step>)
    requires Init(start) && Runs(start, steps) && Accounted(s0, After(start, steps))
    requires busy in After(start, steps).body && !After(start, steps).body[busy].Out?
    ensures steps <= longer && |longer| == |steps| + 1 && Runs(start, longer) && NoCalls(longer, |steps|)
    ensures Accounted(s0, After(start, longer))
    ensures WorkLeft(After(start, longer)) < WorkLeft(After(start, steps))
  {
    var t, m;
    longer, t, m := OneOn(start, steps, busy);
    AccountedNext(s0, After(start, steps), After(start, longer), t, m);
  }

  lemma AccountedNext(s0: Region, s: Region, s': Region, t: nat, m: Move)
    requires Fits(s, t) && Accounted(s0, s) && Can(s, t, m) && !IsCall(m) && !s.body[t].Out? && s' == Do(s, t, m)
    ensures Accounted(s0, s')
  {
    AccountedStep(s0, s, t, m);
  }

  lemma NoCallsOn(steps: seq<Step>, longer: seq<Step>, more: seq<Step>)
    requires steps <= longer <= more && |longer| == |steps| + 1
    requires NoCalls(longer, |steps|) && NoCalls(more, |longer|)
    ensures NoCalls(more, |steps|)
  {
    assert more[|steps|] == longer[|steps|];
  }

  lemma {:induction false} FinishFrom(start: Region, steps: seq<Step>, s0: Region) returns (more: seq<Step>)
    requires Init(start) && Runs(start, steps) && Accounted(s0, After(start, steps))
    ensures steps <= more && Runs(start, more) && NoCalls(more, |steps|)
    ensures Accounted(s0, After(start, more)) && AllOut(After(start, more))
    decreases WorkLeft(After(start, steps))
  {
    if AllOut(After(start, steps)) {
      more := steps;
    } else {
      var busy :| busy in After(start, steps).body && !After(start, steps).body[busy].Out?;
      var longer := AccountedOn(start, steps, s0, busy);
      more := FinishFrom(start, longer, s0);
      NoCallsOn(steps, longer, more);
    }
  }

  /**
   * From every reachable state, without any new call, all calls in progress can be finished; each of
   * them has its entry among the finished calls then.
   */
  lemma AllCanFinish(start: Region, steps: seq<Step>) returns (more: seq<Step>)
    requires Init(start) && Runs(start, steps)
    ensures steps <= more && Runs(start, more)
    ensures NoCalls(more, |steps|) && AllOut(After(start, more))
    ensures forall t :: t in After(start, steps).body && !After(start, steps).body[t].Out? ==>
              Finishes(After(start, more), |After(start, steps).done|, t, CallOf(After(start, steps).body[t]),
                       After(start, steps).body[t].start)
  {
    Reachable(start, steps);
    more := FinishFrom(start, steps, After(start, steps));
  }

  // ----- Any call can be made -----

  /** Only thread `t` may be at work, and the log is `log` until its call takes effect. */
  ghost predicate Alone(s: Region, t: nat, log: seq<Event>, done: seq<Finished>, c: Call) {
    && t in s.body
    && (forall u :: u in s.body && u != t ==> s.body[u].Out?)
    && log <= s.log && done <= s.done
    && (if s.body[t].Out? then
          && |s.log| == |log| + 1 && |s.done| == |done| + 1
          && s.done[|done|].tid == t && s.done[|done|].call == c && s.done[|done|].start == |log|
        else
          && s.done == done && CallOf(s.body[t]) == c && s.body[t].start == |log|
          && |s.log| == |log| + if Logged(s.body[t]) then 1 else 0)
  }

  lemma LogSteps(s: Region, t: nat, m: Move)
    requires Fits(s, t) && Can(s, t, m) && !IsCall(m) && !s.body[t].Out?
    ensures s.log <= Do(s, t, m).log && s.done <= Do(s, t, m).done
    ensures var s' := Do(s, t, m);
            s'.body[t].Out? || |s'.log| - (if Logged(s'.body[t]) then 1 else 0)
                               == |s.log| - (if Logged(s.body[t]) then 1 else 0)
    ensures var s' := Do(s, t, m);
            s'.body[t].Out? ==> s'.log == s.log && Logged(s.body[t]) && |s'.done| == |s.done| + 1
  {
    LogFrame(s, t, m);
  }

  lemma AloneStep(s: Region, t: nat, m: Move, log: seq<Event>, done: seq<Finished>, c: Call)
    requires Fits(s, t) && Alone(s, t, log, done, c) && Can(s, t, m) && !IsCall(m) && !s.body[t].Out?
    ensures Alone(Do(s, t, m), t, log, done, c)
  {
    OthersStay(s, t, m);
    CallGoesOn(s, t, m);
    LogSteps(s, t, m);
  }

  lemma AloneNext(s: Region, s': Region, t: nat, u: nat, m: Move, log: seq<Event>, done: seq<Finished>, c: Call)
    requires Fits(s, u) && Alone(s, t, log, done, c) && Can(s, u, m) && !IsCall(m) && !s.body[u].Out?
    requires s' == Do(s, u, m)
    ensures Alone(s', t, log, done, c)
  {
    assert u == t;
    AloneStep(s, t, m, log, done, c);
  }

  lemma AloneOn(start: Region, steps: seq<Step>, t: nat, log: seq<Event>, done: seq<Finished>, c: Call)
    returns (longer: seq<Step>)
    requires Init(start) && Runs(start, steps) && Alone(After(start, steps), t, log, done, c)
    requires !After(start, steps).body[t].Out?
    ensures steps <= longer && |longer| == |steps| + 1 && Runs(start, longer) && NoCalls(longer, |steps|)
    ensures Alone(After(start, longer), t, log, done, c)
    ensures WorkLeft(After(start, longer)) < WorkLeft(After(start, steps))
  {
    var u, m;
    longer, u, m := OneOn(start, steps, t);
    AloneNext(After(start, steps), After(start, longer), t, u, m, log, done, c);
  }

  lemma {:induction false} FinishAlone(
    start: Region, steps: seq<Step>, t: nat, log: seq<Event>, done: seq<Finished>, c: Call) returns (more: seq<Step>)
    requires Init(start) && Runs(start, steps) && Alone(After(start, steps), t, log, done, c)
    ensures steps <= more && Runs(start, more) && NoCalls(more, |steps|)
    ensures Alone(After(start, more), t, log, done, c) && After(start, more).body[t].Out?
    decreases WorkLeft(After(start, steps))
  {
    if After(start, steps).body[t].Out? {
      more := steps;
    } else {
      var longer := AloneOn(start, steps, t, log, done, c);
      more := FinishAlone(start, longer, t, log, done, c);
      NoCallsOn(steps, longer, more);
    }
  }

  predicate Proper(c: Call) {
    c.Put? ==> c.data != []
  }

  function CallMove(c: Call): Move {
    match c
    case Get(size) => CallGet(size)
    case Put(data, stamp) => CallPut(data, stamp)
  }

  lemma CallBegins(s: Region, t: nat, c: Call)
    requires LockPart(s) && t in s.body && Proper(c) && AllOut(s)
    ensures Can(s, t, CallMove(c)) && Alone(Do(s, t, CallMove(c)), t, s.log, s.done, c)
  {
    assert Fits(s, t);
  }

  /** The one entry that was added is the call's. */
  lemma OnlyEntry(s: Region, s': Region, t: nat, c: Call)
    requires LogPart(s') && Alone(s', t, s.log, s.done, c) && s'.body[t].Out?
    ensures s'.done[|s.done|].result == Answer(Replay(s.log), c)
    ensures Replay(s'.log) == Effect(Replay(s.log), c)
  {
    var f, n := s'.done[|s.done|], |s.log|;
    assert FinishedOk(s', f);
    assert f.at == n && s'.log[n] == Event(t, c, f.result);
    assert s'.log[..n] == s.log;
    assert s'.log == s.log + [s'.log[n]];
    ReplayAppend(s.log, s'.log[n]);
  }

  /**
   * When no call is in progress any thread can get any number of bytes, or put any bytes but none,
   * and be answered as the register answers.
   */
  lemma CallCompletes(start: Region, steps: seq<Step>, t: nat, c: Call) returns (more: seq<Step>)
    requires Init(start) && Runs(start, steps) && t in After(start, steps).body && Proper(c)
    requires AllOut(After(start, steps))
    ensures steps <= more && Runs(start, more) && AllOut(After(start, more))
    ensures var s, s' := After(start, steps), After(start, more);
            && |s'.done| == |s.done| + 1 && s.done <= s'.done
            && s'.done[|s.done|].tid == t && s'.done[|s.done|].call == c
            && s'.done[|s.done|].result == Answer(Replay(s.log), c)
            && Replay(s'.log) == Effect(Replay(s.log), c)
  {
    Reachable(start, steps);
    var s := After(start, steps);
    CallBegins(s, t, c);
    var begun := Extend(start, steps, t, CallMove(c));
    Reachable(start, begun);
    more := FinishAlone(start, begun, t, s.log, s.done, c);
    Reachable(start, more);
    OnlyEntry(s, After(start, more), t, c);
  }

  // ----- What a call waits for -----

  /**
   * In every reachable state a thread that makes no call can make any, and a call in progress has a
   * move unless the lock's mutex or semaphore keeps it waiting.
   */
  lemma WaitsOnlyFor(start: Region, steps: seq<Step>, t: nat, c: Call)
    requires Init(start) && Runs(start, steps) && t in After(start, steps).body && Proper(c)
    ensures var s := After(start, steps);
            && t in s.lock.pc
            && (s.body[t].Out? ==> Can(s, t, CallMove(c)))
            && (!s.body[t].Out? ==>
                  || (exists m :: Can(s, t, m) && !IsCall(m))
                  || ((s.lock.pc[t].WantIn? || s.lock.pc[t].WantOut?) && !s.lock.mutex.Free?)
                  || ((s.lock.pc[t].WaitIn? || s.lock.pc[t].WantWrite?) && s.lock.sem == 0))
  {
    Reachable(start, steps);
    var s := After(start, steps);
    if s.body[t].Out? {
      assert Fits(s, t);
    } else {
      var m := NextMove(s, t);
    }
  }

  lemma NextMove(s: Region, t: nat) returns (m: Move)
    requires LockPart(s) && CopyPart(s) && t in s.body && t in s.lock.pc && !s.body[t].Out?
    ensures !IsCall(m)
    ensures Can(s, t, m)
            || ((s.lock.pc[t].WantIn? || s.lock.pc[t].WantOut?) && !s.lock.mutex.Free?)
            || ((s.lock.pc[t].WaitIn? || s.lock.pc[t].WantWrite?) && s.lock.sem == 0)
  {
    if s.lock.pc[t].Idle? {
      IdleReturns(s, t);
      m := Return;
    } else if s.lock.pc[t].Reading? || s.lock.pc[t].Writing? {
      InsideGoes(s, t);
      m := InsideMove(s.body[t]);
    } else {
      m := LockStep;
    }
  }

  lemma IdleReturns(s: Region, t: nat)
    requires LockPart(s) && t in s.body && t in s.lock.pc && !s.body[t].Out? && s.lock.pc[t].Idle?
    ensures Can(s, t, Return)
  {
    assert Fits(s, t);
  }
}
