/** What the broadcast queue lets threads do: work off every packet, reject it, and free it. */
module BroadcastReach {
  import opened BroadcastMachine
  import opened BroadcastDrain
  import opened Sums

  /** A slave whose packet mem_put refuses can always free it. */
  lemma RejectFrees(start: State, acts: seq<Act>, t: nat)
    requires Init(start) && Runs(start, acts) && t in After(start, acts).slaves && After(start, acts).slaves[t].SHas?
    ensures var s := After(start, acts);
            && Can(s, Reject(t)) && Do(s, Reject(t)).slaves[t].SIdle?
            && Do(s, Reject(t)).freed == s.freed + [s.slaves[t].pid] && s.slaves[t].pid !in s.freed
  {
    Reachable(start, acts);
    var s := After(start, acts);
    var pid := s.slaves[t].pid;
    assert At(s, pid, WithSlave(t));
    if i :| 0 <= i < |s.freed| && s.freed[i] == pid {
      assert At(s, pid, Freed(i));
    }
  }

  /** An idle slave can always read another packet. */
  lemma ReadsAgain(start: State, acts: seq<Act>, t: nat)
    requires Init(start) && Runs(start, acts) && t in After(start, acts).slaves && After(start, acts).slaves[t].SIdle?
    ensures Can(After(start, acts), Read(t))
    ensures var s := After(start, acts); Do(s, Read(t)).slaves == s.slaves[t := SHas(s.made)]
  {
  }

  // ----- All slaves can finish -----

  function SlaveLeft(p: Slave): nat {
    match p
    case SHas(_) => 7
    case SWant(_) => 6
    case SIn(_) => 5
    case SAdded => 4
    case SSignal => 3
    case SRefused(_) => 1
    case SIdle => 0
  }

  function Lefts(s: State): map<nat, nat> {
    map t | t in s.slaves :: SlaveLeft(s.slaves[t])
  }

  /** Steps until the broadcaster or the shutdown gives the mutex back. */
  function HeldFor(s: State): nat {
    match s.mutex
    case ByPop => if s.pop.PIn? then 2 else 1
    case ByFin => if s.fin.FIn? || s.fin.TIn? then 2 else 1
    case _ => 0
  }

  /** The push unlocks, or the shutdown has not begun, so that no push is refused. */
  predicate Unharmed(s: State) {
    s.unlocks || s.fin.FStart?
  }

  ghost predicate LessLeft(s': State, s: State) {
    && s'.slaves.Keys == s.slaves.Keys
    && (|| (s'.slaves == s.slaves && HeldFor(s') < HeldFor(s))
        || exists t :: LessAt(s', s, t))
  }

  predicate LessAt(s': State, s: State, t: nat) {
    && t in s.slaves && t in s'.slaves && SlaveLeft(s'.slaves[t]) < SlaveLeft(s.slaves[t])
    && s'.slaves == s.slaves[t := s'.slaves[t]]
  }

  lemma SlaveLess(s: State, t: nat)
    requires Inv(s) && Unharmed(s) && Can(s, SlaveGo(t)) && (s.mutex.Free? || s.mutex == BySlave(t))
    ensures LessAt(SlaveStep(s, t), s, t) && Unharmed(SlaveStep(s, t)) && SlaveStep(s, t).made == s.made
  {
    SlaveFrame(s, t);
  }

  lemma NextFinished(s: State) returns (a: Act)
    requires Inv(s) && Unharmed(s) && !AllIdle(s)
    ensures Can(s, a) && LessLeft(Do(s, a), s) && Unharmed(Do(s, a)) && Do(s, a).made == s.made
  {
    match s.mutex
    case ByPop =>
      a := PopGo;
      PopFrame(s);
    case ByFin =>
      a := FinGo;
      FinFrame(s);
    case BySlave(u) =>
      assert SlaveHolds(s.slaves[u]);
      a := SlaveGo(u);
      SlaveLess(s, u);
    case Free =>
      var t :| t in s.slaves && !s.slaves[t].SIdle?;
      a := SlaveGo(t);
      SlaveLess(s, t);
  }

  lemma LessSum(s': State, s: State)
    requires LessLeft(s', s)
    ensures var n', n := Sum(Lefts(s'), s'.slaves.Keys), Sum(Lefts(s), s.slaves.Keys);
            n' < n || (n' == n && HeldFor(s') < HeldFor(s))
  {
    if t :| LessAt(s', s, t) {
      SumLess(Lefts(s), Lefts(s'), s.slaves.Keys, t);
    }
  }

  lemma {:induction false} SlavesFinish(start: State, acts: seq<Act>) returns (more: seq<Act>)
    requires Init(start) && Runs(start, acts) && Unharmed(After(start, acts))
    ensures acts <= more && Runs(start, more) && AllIdle(After(start, more)) && Unharmed(After(start, more))
    ensures After(start, more).made == After(start, acts).made
    decreases Sum(Lefts(After(start, acts)), After(start, acts).slaves.Keys), HeldFor(After(start, acts))
  {
    var s := After(start, acts);
    if AllIdle(s) {
      more := acts;
    } else {
      Reachable(start, acts);
      var a := NextFinished(s);
      LessSum(Do(s, a), s);
      var longer, s' := Extend(start, acts, a);
      more := SlavesFinish(start, longer);
    }
  }

  /**
   * With the unlock in place at any time, and in the code as written until the shutdown begins, all
   * packets read so far can be worked off: every slave comes to rest, the shutdown completes, and
   * every packet has been freed.
   */
  lemma AllCanBeFreed(start: State, acts: seq<Act>) returns (more: seq<Act>)
    requires Init(start) && Runs(start, acts) && Unharmed(After(start, acts))
    ensures acts <= more && Runs(start, more) && After(start, more).fin.FDone? && AllIdle(After(start, more))
    ensures After(start, more).made == After(start, acts).made
    ensures forall pid: nat :: pid < After(start, acts).made ==> pid in After(start, more).freed
  {
    var idle := SlavesFinish(start, acts);
    Reachable(start, idle);
    more := EndsFrom(start, idle);
    Reachable(start, more);
    forall pid: nat | pid < After(start, acts).made
      ensures pid in After(start, more).freed
    {
      var i := AllFreed(start, more, pid);
    }
  }

  // ----- What a thread waits for -----

  /**
   * A slave waits only for the mutex, before its push; the shutdown for the mutex and, at its end, for
   * the broadcaster; the broadcaster for the mutex and for a signal, which need not be meant for it.
   */
  lemma WaitsOnlyFor(s: State, t: nat)
    ensures t in s.slaves && !s.slaves[t].SIdle? && !Can(s, SlaveGo(t)) ==> s.slaves[t].SWant? && !s.mutex.Free?
    ensures !s.fin.FDone? && !Can(s, FinGo) ==>
              ((s.fin.FStart? || s.fin.TWant?) && !s.mutex.Free?) || (s.fin.FJoin? && !s.pop.PDone?)
    ensures !s.pop.PDone? && !Can(s, PopGo) ==> s.pop.PAsleep? || (s.pop.PWant? && !s.mutex.Free?)
    ensures s.pop.PAsleep? ==> Can(s, Spurious)
  {
  }
}
