/**
 * One clipboard region under concurrent mem_get and mem_put (src/mem/clmem.c:68-116), before
 * mem_finish: any number of threads, each statement of the critical sections and each copied byte a
 * step of its own, the readers/writer lock of module RwLock around them.  Buffers live on a heap, so
 * that a free too early would show.
 *
 * `log` and `done` are read by no step.  `log` gets an entry when a call takes effect; `done` gets
 * one when a call returns.
 */
module RegionMachine {
  import opened Common
  import opened Clmem
  import RwLock

  datatype Call = Get(size: nat) | Put(data: seq<byte>, stamp: u32)
  datatype Result = Bytes(bytes: seq<byte>) | Placed(size: nat)
  datatype Event = Event(tid: nat, call: Call, result: Result)

  /** A finished call: the length of the log when it began and when it returned, and its entry. */
  datatype Finished = Finished(tid: nat, call: Call, result: Result, start: nat, at: nat, end: nat)

  datatype Stage = FreeOld | SetData | SetSize | SetStamp | TakeDone

  /** What a thread is doing besides locking. */
  datatype Body =
    | Out
    | Getting(size: nat, start: nat)
    | Copying(size: nat, n: nat, got: seq<byte>, start: nat, at: nat)
    | Putting(buf: nat, data: seq<byte>, stamp: u32, start: nat)
    | Refused(buf: nat, data: seq<byte>, stamp: u32, start: nat, at: nat)
    | Taking(stage: Stage, buf: nat, data: seq<byte>, stamp: u32, start: nat, at: nat)
    | Leaving(call: Call, result: Result, trash: Option<nat>, start: nat, at: nat)

  /** `data` is the zone's pointer, the number of a buffer; `heap` holds the live buffers. */
  datatype Region = Region(
    lock: RwLock.Lock,
    body: map<nat, Body>,
    data: Option<nat>,
    size: nat,
    stamp: u32,
    heap: map<nat, seq<byte>>,
    next: nat,
    log: seq<Event>,
    done: seq<Finished>)

  predicate Init(s: Region) {
    && RwLock.Init(s.lock)
    && s.body.Keys == s.lock.pc.Keys
    && (forall t :: t in s.body ==> s.body[t].Out?)
    && s.data.None? && s.size == 0 && s.stamp == 0
    && s.heap == map[] && s.next == 0 && s.log == [] && s.done == []
  }

  // ----- The register the region should behave like -----

  function Effect(z: Zone, c: Call): Zone {
    match c
    case Get(_) => z
    case Put(data, stamp) => if ZoneTakes(z, stamp) then PutZone(data, stamp) else z
  }

  function Answer(z: Zone, c: Call): Result {
    match c
    case Get(size) => Bytes(GetZone(z, size))
    case Put(data, stamp) => Placed(if ZoneTakes(z, stamp) then |data| else 0)
  }

  /** The register after the calls of the log, one after the other. */
  function Replay(log: seq<Event>): Zone {
    if log == [] then EMPTY_ZONE else Effect(Replay(log[..|log| - 1]), log[|log| - 1].call)
  }

  /** Every entry answers as the register does when the calls before it have been made. */
  predicate Sequential(log: seq<Event>) {
    forall i :: 0 <= i < |log| ==> log[i].result == Answer(Replay(log[..i]), log[i].call)
  }

  function Record(s: Region, t: nat, c: Call): Region {
    s.(log := s.log + [Event(t, c, Answer(Replay(s.log), c))])
  }

  // ----- Steps -----

  datatype Move =
    | CallGet(size: nat)
    | CallPut(data: seq<byte>, stamp: u32)
    | LockStep
    | Measure
    | CopyByte
    | DoneGet
    | Check
    | Assign
    | DonePut
    | Return

  predicate Can(s: Region, t: nat, m: Move) {
    && t in s.body && t in s.lock.pc
    && match m
       case CallGet(_) => s.body[t].Out? && RwLock.Can(s.lock, t, RwLock.BeginRead)
       case CallPut(data, _) => |data| > 0 && s.body[t].Out? && RwLock.Can(s.lock, t, RwLock.BeginWrite)
       case LockStep => RwLock.Can(s.lock, t, RwLock.Advance)
       case Measure => s.body[t].Getting? && s.lock.pc[t].Reading?
       case CopyByte => s.body[t].Copying? && |s.body[t].got| < s.body[t].n
       case DoneGet => s.body[t].Copying? && |s.body[t].got| == s.body[t].n && s.lock.pc[t].Reading?
       case Check => s.body[t].Putting? && s.lock.pc[t].Writing?
       case Assign => s.body[t].Taking? && !s.body[t].stage.TakeDone?
       case DonePut => (s.body[t].Refused? || (s.body[t].Taking? && s.body[t].stage.TakeDone?)) && s.lock.pc[t].Writing?
       case Return => s.body[t].Leaving? && s.lock.pc[t].Idle?
  }

  /** A byte read through the zone's pointer; what a dangling or short buffer gives is not known. */
  function ByteAt(s: Region, i: nat): byte {
    if s.data.Some? && s.data.value in s.heap && i < |s.heap[s.data.value]| then s.heap[s.data.value][i] else 0
  }

  function To(s: Region, t: nat, b: Body): Region {
    s.(body := s.body[t := b])
  }

  function Locked(s: Region, t: nat, op: RwLock.Op): Region
    requires RwLock.Can(s.lock, t, op)
  {
    s.(lock := RwLock.Do(s.lock, t, op))
  }

  /** The test under the write lock: the zone keeps its data if its stamp is larger. */
  predicate Keeps(s: Region, stamp: u32) {
    s.data.Some? && s.stamp > stamp
  }

  function AssignStage(s: Region, t: nat): Region
    requires Can(s, t, Assign)
  {
    var b := s.body[t];
    match b.stage
    case FreeOld =>
      To(s.(heap := if s.data.Some? then s.heap - {s.data.value} else s.heap), t, b.(stage := SetData))
    case SetData => To(s.(data := Some(b.buf)), t, b.(stage := SetSize))
    case SetSize => To(s.(size := |b.data|), t, b.(stage := SetStamp))
    case SetStamp => To(s.(stamp := b.stamp), t, b.(stage := TakeDone))
  }

  function Do(s: Region, t: nat, m: Move): Region
    requires Can(s, t, m)
  {
    var b := s.body[t];
    match m
    case CallGet(size) => To(Locked(s, t, RwLock.BeginRead), t, Getting(size, |s.log|))
    case CallPut(data, stamp) =>
      To(Locked(s, t, RwLock.BeginWrite).(heap := s.heap[s.next := data], next := s.next + 1),
         t, Putting(s.next, data, stamp, |s.log|))
    case LockStep => Locked(s, t, RwLock.Advance)
    case Measure =>
      To(Record(s, t, Get(b.size)), t, Copying(b.size, Min(b.size, s.size), [], b.start, |s.log|))
    case CopyByte => To(s, t, b.(got := b.got + [ByteAt(s, |b.got|)]))
    case DoneGet =>
      To(Locked(s, t, RwLock.EndSection), t, Leaving(Get(b.size), Bytes(b.got), None, b.start, b.at))
    case Check =>
      To(Record(s, t, Put(b.data, b.stamp)), t,
         if Keeps(s, b.stamp) then Refused(b.buf, b.data, b.stamp, b.start, |s.log|)
         else Taking(FreeOld, b.buf, b.data, b.stamp, b.start, |s.log|))
    case Assign => AssignStage(s, t)
    case DonePut =>
      To(Locked(s, t, RwLock.EndSection), t,
         if b.Refused? then Leaving(Put(b.data, b.stamp), Placed(0), Some(b.buf), b.start, b.at)
         else Leaving(Put(b.data, b.stamp), Placed(|b.data|), None, b.start, b.at))
    case Return =>
      To(s.(heap := if b.trash.Some? then s.heap - {b.trash.value} else s.heap,
            done := s.done + [Finished(t, b.call, b.result, b.start, b.at, |s.log|)]), t, Out)
  }

  datatype Step = Step(tid: nat, move: Move)

  ghost predicate Runs(start: Region, steps: seq<Step>)
    decreases |steps|, 0
  {
    steps == [] ||
    (var before, x := steps[..|steps| - 1], steps[|steps| - 1];
     Runs(start, before) && Can(After(start, before), x.tid, x.move))
  }

  ghost function After(start: Region, steps: seq<Step>): Region
    requires Runs(start, steps)
    decreases |steps|, 1
  {
    if steps == [] then start
    else Do(After(start, steps[..|steps| - 1]), steps[|steps| - 1].tid, steps[|steps| - 1].move)
  }
}
