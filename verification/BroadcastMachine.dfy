/**
 * The broadcast queue among threads: slaves that push the copy packets they got accepted, the one
 * broadcaster that pops them, and the thread that says goodbye and terminates the queue
 * (src/thread/queue.c:27-131, src/interfaces/clipif.c:111-152, 234-276, 504-540).
 *
 * `unlocks` chooses between queue_push as it is written (false), which keeps the mutex when it
 * refuses an element (src/thread/queue.c:76-79), and as it is meant (true).
 *
 * The last five fields are logs that no step reads.
 */
module BroadcastMachine {
  /** A packet on the heap, told apart by its number, or the goodbye. */
  datatype Msg = Packet(pid: nat) | Goodbye

  datatype Slave =
    | SIdle
    | SHas(pid: nat)      // the packet is read, mem_put is next
    | SWant(pid: nat)     // accepted; before pthread_mutex_lock in queue_push
    | SIn(pid: nat)       // the mutex held, before the terminate test
    | SAdded              // linked, before pthread_mutex_unlock
    | SSignal             // before pthread_cond_signal
    | SRefused(pid: nat)  // the push failed, the packet is still to be freed

  datatype Fin =
    | FStart | FIn | FAdded | FSignal    // queue_push of the goodbye
    | TWant | TIn | TSet | TSignal       // queue_terminate
    | FJoin | FDone                      // pthread_join of the broadcaster

  datatype Pop =
    | PWant               // before pthread_mutex_lock, or woken and wanting the mutex back
    | PIn                 // at the wait loop's test
    | PAsleep             // in pthread_cond_wait
    | PTook(msg: Msg)     // unlinked, before pthread_mutex_unlock
    | PSending(msg: Msg)  // the send loop, then free
    | PNull               // before pthread_mutex_unlock and return NULL
    | PDone

  datatype Mutex = Free | BySlave(tid: nat) | ByFin | ByPop

  datatype State = State(
    unlocks: bool,
    slaves: map<nat, Slave>,
    fin: Fin,
    pop: Pop,
    mutex: Mutex,
    q: seq<Msg>,
    term: bool,
    accepted: seq<Msg>,
    popped: seq<Msg>,
    freed: seq<nat>,
    made: nat,
    refused: nat)

  predicate Init(s: State) {
    && (forall t :: t in s.slaves ==> s.slaves[t].SIdle?)
    && s.fin.FStart? && s.pop.PWant? && s.mutex.Free?
    && s.q == [] && !s.term
    && s.accepted == [] && s.popped == [] && s.freed == [] && s.made == 0 && s.refused == 0
  }

  datatype Act =
    | Read(t: nat)      // a slave has read a whole copy packet
    | Reject(t: nat)    // mem_put said no
    | SlaveGo(t: nat)
    | FinGo
    | PopGo
    | Spurious          // pthread_cond_wait may return without a signal

  predicate Can(s: State, a: Act) {
    match a
    case Read(t) => t in s.slaves && s.slaves[t].SIdle?
    case Reject(t) => t in s.slaves && s.slaves[t].SHas?
    case SlaveGo(t) =>
      t in s.slaves && !s.slaves[t].SIdle? && (s.slaves[t].SWant? ==> s.mutex.Free?)
    case FinGo =>
      !s.fin.FDone? && (s.fin.FStart? || s.fin.TWant? ==> s.mutex.Free?) && (s.fin.FJoin? ==> s.pop.PDone?)
    case PopGo => !s.pop.PDone? && !s.pop.PAsleep? && (s.pop.PWant? ==> s.mutex.Free?)
    case Spurious => s.pop.PAsleep?
  }

  /** pthread_cond_signal */
  function Signalled(s: State): State {
    if s.pop.PAsleep? then s.(pop := PWant) else s
  }

  function Linked(s: State, m: Msg): State {
    s.(q := s.q + [m], accepted := s.accepted + [m])
  }

  function SlaveStep(s: State, t: nat): State
    requires Can(s, SlaveGo(t))
  {
    match s.slaves[t]
    case SHas(pid) => s.(slaves := s.slaves[t := SWant(pid)])
    case SWant(pid) => s.(slaves := s.slaves[t := SIn(pid)], mutex := BySlave(t))
    case SIn(pid) =>
      if s.term then
        s.(slaves := s.slaves[t := SRefused(pid)], refused := s.refused + 1,
           mutex := if s.unlocks then Free else s.mutex)
      else Linked(s, Packet(pid)).(slaves := s.slaves[t := SAdded])
    case SAdded => s.(slaves := s.slaves[t := SSignal], mutex := Free)
    case SSignal => Signalled(s.(slaves := s.slaves[t := SIdle]))
    case SRefused(pid) => s.(slaves := s.slaves[t := SIdle], freed := s.freed + [pid])
  }

  function FinStep(s: State): State
    requires Can(s, FinGo)
  {
    match s.fin
    case FStart => s.(fin := FIn, mutex := ByFin)
    case FIn => Linked(s, Goodbye).(fin := FAdded)
    case FAdded => s.(fin := FSignal, mutex := Free)
    case FSignal => Signalled(s.(fin := TWant))
    case TWant => s.(fin := TIn, mutex := ByFin)
    case TIn => s.(fin := TSet, term := true)
    case TSet => s.(fin := TSignal, mutex := Free)
    case TSignal => Signalled(s.(fin := FJoin))
    case FJoin => s.(fin := FDone)
  }

  function PopStep(s: State): State
    requires Can(s, PopGo)
  {
    match s.pop
    case PWant => s.(pop := PIn, mutex := ByPop)
    case PIn =>
      if s.q == [] && !s.term then s.(pop := PAsleep, mutex := Free)
      else if s.q == [] then s.(pop := PNull)
      else s.(pop := PTook(s.q[0]), q := s.q[1..], popped := s.popped + [s.q[0]])
    case PTook(m) => s.(pop := PSending(m), mutex := Free)
    case PSending(m) => s.(pop := PWant, freed := if m.Packet? then s.freed + [m.pid] else s.freed)
    case PNull => s.(pop := PDone, mutex := Free)
  }

  function Do(s: State, a: Act): State
    requires Can(s, a)
  {
    match a
    case Read(t) => s.(slaves := s.slaves[t := SHas(s.made)], made := s.made + 1)
    case Reject(t) => s.(slaves := s.slaves[t := SIdle], freed := s.freed + [s.slaves[t].pid])
    case SlaveGo(t) => SlaveStep(s, t)
    case FinGo => FinStep(s)
    case PopGo => PopStep(s)
    case Spurious => s.(pop := PWant)
  }

  ghost predicate Runs(start: State, acts: seq<Act>)
    decreases |acts|, 0
  {
    acts == [] ||
    (var before, a := acts[..|acts| - 1], acts[|acts| - 1];
     Runs(start, before) && Can(After(start, before), a))
  }

  ghost function After(start: State, acts: seq<Act>): State
    requires Runs(start, acts)
    decreases |acts|, 1
  {
    if acts == [] then start else Do(After(start, acts[..|acts| - 1]), acts[|acts| - 1])
  }
}
