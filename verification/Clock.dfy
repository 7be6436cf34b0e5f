/**
 * The network clock of src/utils/time.c: the local clock minus an offset, modulo 2^32, and how far
 * the clocks of a chain of clipboards can be apart after one wave of clock syncs.
 */
module Clock {
  import opened Common

  function Wrap(x: int): u32 {
    x % U32_LIMIT
  }

  /** The global `time_started` with its two calls; `reading` is what time(NULL) returns. */
  class NetworkClock {
    var timeStarted: u32

    constructor ()
      ensures timeStarted == 0
    {
      timeStarted := 0;
    }

    method Sync(reading: int, now: u32)
      modifies this
      ensures timeStarted == Offset(reading, now)
      ensures forall later :: NetTime(later, timeStarted) == Wrap(now + (later - reading))
    {
      var realNow := Wrap(reading);
      timeStarted := Wrap(realNow - now);
      forall later
        ensures NetTime(later, timeStarted) == Wrap(now + (later - reading))
      {
        NowAfterSync(reading, now, later);
      }
    }

    /** After a sync to `now` at the local reading `synced`, the time it goes on to from there. */
    method Now(reading: int) returns (t: u32)
      ensures forall synced, now: u32 ::
                timeStarted == Offset(synced, now) ==> t == Wrap(now + (reading - synced))
    {
      t := Wrap(Wrap(reading) - timeStarted);
      forall synced, now: u32 | timeStarted == Offset(synced, now)
        ensures t == Wrap(now + (reading - synced))
      {
        NowAfterSync(synced, now, reading);
      }
    }
  }

  /** The offset time_m_sync stores. */
  function Offset(reading: int, now: u32): u32 {
    Wrap(Wrap(reading) - now)
  }

  /** What time_m_now returns at a local reading. */
  function NetTime(reading: int, offset: u32): u32 {
    Wrap(Wrap(reading) - offset)
  }

  // ----- Congruence modulo 2^32 -----

  ghost predicate Same(x: int, y: int) {
    exists k: int :: x == y + k * U32_LIMIT
  }

  lemma WrapSame(x: int)
    ensures Same(Wrap(x), x) && Same(x, Wrap(x))
  {
    assert Wrap(x) == x + (-(x / U32_LIMIT)) * U32_LIMIT;
    assert x == Wrap(x) + (x / U32_LIMIT) * U32_LIMIT;
  }

  lemma SameShift(x: int, y: int, d: int, e: int)
    requires Same(x, y) && Same(d, e)
    ensures Same(x + d, y + e) && Same(x - d, y - e)
  {
    var k: int :| x == y + k * U32_LIMIT;
    var j: int :| d == e + j * U32_LIMIT;
    assert x + d == y + e + (k + j) * U32_LIMIT;
    assert x - d == y - e + (k - j) * U32_LIMIT;
  }

  lemma SameSame(x: int)
    ensures Same(x, x)
  {
    assert x == x + 0 * U32_LIMIT;
  }

  lemma SameTrans(x: int, y: int, z: int)
    requires Same(x, y) && Same(y, z)
    ensures Same(x, z)
  {
    var k: int :| x == y + k * U32_LIMIT;
    var j: int :| y == z + j * U32_LIMIT;
    assert x == z + (k + j) * U32_LIMIT;
  }

  lemma NetTimeSame(reading: int, offset: u32)
    ensures Same(NetTime(reading, offset), reading - offset)
  {
    WrapSame(reading);
    SameSame(offset);
    SameShift(Wrap(reading), reading, offset, offset);
    WrapSame(Wrap(reading) - offset);
    SameTrans(NetTime(reading, offset), Wrap(reading) - offset, reading - offset);
  }

  /** After a sync the network clock goes on from the value synced to, also when the offset wraps. */
  lemma NowAfterSync(reading: int, now: u32, later: int)
    ensures NetTime(later, Offset(reading, now)) == Wrap(now + (later - reading))
  {
  }

  // ----- Clocks apart -----

  /** Two network times are within `w` seconds of each other, the shorter way round. */
  ghost predicate Within(x: int, y: int, w: int) {
    exists e: int :: -w <= e <= w && Ahead(x, y, e)
  }

  ghost predicate Ahead(x: int, y: int, e: int) {
    Same(x, y + e)
  }

  lemma WithinTrans(x: int, y: int, z: int, v: int, w: int)
    requires Within(x, y, v) && Within(y, z, w)
    ensures Within(x, z, v + w)
  {
    var e: int :| -v <= e <= v && Ahead(x, y, e);
    var f: int :| -w <= f <= w && Ahead(y, z, f);
    SameSame(e);
    SameShift(y, z + f, e, e);
    SameTrans(x, y + e, z + f + e);
    assert z + f + e == z + (e + f) && Ahead(x, z, e + f);
  }

  /** What time(NULL) returns at real time `at` on a machine whose clock is `phase` ahead. */
  function Reading(phase: real, at: real): int {
    (at + phase).Floor
  }

  /** A clipboard and how it was last synced: its parent's time read at `sent`, applied at `got`. */
  datatype Node = Node(phase: real, offset: u32, sent: real, got: real, delay: nat)

  function NetAt(n: Node, at: real): u32 {
    NetTime(Reading(n.phase, at), n.offset)
  }

  /** The sync of `child` by `parent` took at most `l` seconds and was credited with at most `d`. */
  ghost predicate SyncedBy(parent: Node, child: Node, l: nat, d: nat) {
    && parent.got <= child.sent <= child.got <= child.sent + l as real
    && child.delay <= d
    && child.offset == Offset(Reading(child.phase, child.got), Wrap(NetAt(parent, child.sent) + child.delay))
  }

  /** The whole seconds that cover a difference, whichever way round. */
  function Cover(x: real): (n: nat)
    ensures n as real - 1.0 < (if x < 0.0 then -x else x) <= n as real
  {
    var a := if x < 0.0 then -x else x;
    if a == a.Floor as real then a.Floor else a.Floor + 1
  }

  /** The sync took longer, or less long, than it was credited for. */
  function Miscredit(child: Node): real {
    (child.got - child.sent) - child.delay as real
  }

  /** How far a child can be from its parent after a sync. */
  function HopError(child: Node): nat {
    Cover(Miscredit(child)) + 1
  }

  function Max(a: nat, b: nat): nat {
    if a > b then a else b
  }

  /**
   * After a sync the child's clock is within the miscredited time, rounded up, plus one second of its
   * parent's: the two machines may count one second more or less each.
   */
  lemma OneHop(parent: Node, child: Node, l: nat, d: nat, at: real)
    requires SyncedBy(parent, child, l, d) && at >= child.got
    ensures Within(NetAt(child, at), NetAt(parent, at), HopError(child))
    ensures HopError(child) <= Max(l, d) + 1
  {
    var cNow, cThen := Reading(child.phase, at), Reading(child.phase, child.got);
    var pNow, pSent := Reading(parent.phase, at), Reading(parent.phase, child.sent);
    var e := (cNow - cThen) - (pNow - pSent) + child.delay;
    Counted(child.phase, child.got, at);
    Counted(parent.phase, child.sent, at);
    assert -2.0 < e as real + Miscredit(child) < 2.0;
    Covered(e, Miscredit(child));
    HopSame(parent, child, at, e);
    assert Ahead(NetAt(child, at), NetAt(parent, at), e);
  }

  /** A clock counts the seconds that pass, less than one more or less. */
  lemma Counted(phase: real, from: real, to: real)
    ensures -1.0 < (Reading(phase, to) - Reading(phase, from)) as real - (to - from) < 1.0
  {
  }

  lemma Covered(e: int, x: real)
    requires -2.0 < e as real + x < 2.0
    ensures -(Cover(x) + 1) <= e <= Cover(x) + 1
  {
    var n := Cover(x);
    assert -(n as real) - 2.0 < e as real < n as real + 2.0;
  }

  lemma HopSame(parent: Node, child: Node, at: real, e: int)
    requires child.offset == Offset(Reading(child.phase, child.got), Wrap(NetAt(parent, child.sent) + child.delay))
    requires e == (Reading(child.phase, at) - Reading(child.phase, child.got))
                  - (Reading(parent.phase, at) - Reading(parent.phase, child.sent)) + child.delay
    ensures Same(NetAt(child, at), NetAt(parent, at) + e)
  {
    var c := Reading(child.phase, at) - Reading(child.phase, child.got);
    var told := Wrap(NetAt(parent, child.sent) + child.delay);
    NowAfterSync(Reading(child.phase, child.got), told, Reading(child.phase, at));
    WrapSame(told + c);
    WrapSame(NetAt(parent, child.sent) + child.delay);
    SameSame(c);
    SameShift(told, NetAt(parent, child.sent) + child.delay, c, c);
    SameTrans(NetAt(child, at), told + c, NetAt(parent, child.sent) + child.delay + c);
    // both readings of the parent's clock, without the offset
    NetTimeSame(Reading(parent.phase, child.sent), parent.offset);
    NetTimeSame(Reading(parent.phase, at), parent.offset);
    var p := Reading(parent.phase, at) - Reading(parent.phase, child.sent);
    SentThenNow(parent, child.sent, at);
    SameSame(child.delay + c - p);
    SameShift(NetAt(parent, child.sent) + p, NetAt(parent, at), child.delay + c - p, child.delay + c - p);
    SameTrans(NetAt(child, at), NetAt(parent, child.sent) + child.delay + c, NetAt(parent, at) + e);
  }

  lemma SentThenNow(n: Node, sent: real, at: real)
    ensures Same(NetAt(n, sent) + (Reading(n.phase, at) - Reading(n.phase, sent)), NetAt(n, at))
  {
    var r, r' := Reading(n.phase, sent), Reading(n.phase, at);
    NetTimeSame(r, n.offset);
    NetTimeSame(r', n.offset);
    SameSame(r' - r);
    SameShift(NetAt(n, sent), r - n.offset, r' - r, r' - r);
    SameBack(NetAt(n, at), r' - n.offset);
    SameTrans(NetAt(n, sent) + (r' - r), r' - n.offset, NetAt(n, at));
  }

  lemma SameBack(x: int, y: int)
    requires Same(x, y)
    ensures Same(y, x)
  {
    var k: int :| x == y + k * U32_LIMIT;
    assert y == x + (-k) * U32_LIMIT;
  }

  lemma WithinSelf(x: int)
    ensures Within(x, x, 0)
  {
    SameSame(x);
    assert Ahead(x, x, 0);
  }

  /** The hops' errors, summed from the root down. */
  function ErrorSum(chain: seq<Node>, k: nat): nat
    requires k < |chain|
  {
    if k == 0 then 0 else HopError(chain[k]) + ErrorSum(chain, k - 1)
  }

  lemma Distribute(k: nat, w: int)
    ensures w + (k - 1) * w == k * w
  {
  }

  lemma {:induction false} ErrorsAtMost(chain: seq<Node>, k: nat, l: nat, d: nat)
    requires k < |chain| && forall i :: 0 < i <= k ==> SyncedBy(chain[i - 1], chain[i], l, d)
    ensures ErrorSum(chain, k) <= k * (Max(l, d) + 1)
  {
    if k > 0 {
      ErrorsAtMost(chain, k - 1, l, d);
      OneHop(chain[k - 1], chain[k], l, d, chain[k].got);
      Distribute(k, Max(l, d) + 1);
    }
  }

  lemma WithinMore(x: int, y: int, v: int, w: int)
    requires Within(x, y, v) && v <= w
    ensures Within(x, y, w)
  {
    var e: int :| -v <= e <= v && Ahead(x, y, e);
  }

  /** After one wave of syncs down a chain, its clocks are within the sum of the hops' errors. */
  lemma {:induction false} ChainError(chain: seq<Node>, k: nat, l: nat, d: nat, at: real)
    requires k < |chain| && at >= chain[k].got
    requires forall i :: 0 < i <= k ==> SyncedBy(chain[i - 1], chain[i], l, d)
    ensures Within(NetAt(chain[k], at), NetAt(chain[0], at), ErrorSum(chain, k))
  {
    if k == 0 {
      WithinSelf(NetAt(chain[0], at));
    } else {
      OneHop(chain[k - 1], chain[k], l, d, at);
      ChainError(chain, k - 1, l, d, at);
      WithinTrans(NetAt(chain[k], at), NetAt(chain[k - 1], at), NetAt(chain[0], at),
                  HopError(chain[k]), ErrorSum(chain, k - 1));
    }
  }

  /**
   * Clock bound: after one wave of syncs down a chain, from the root at 0, a clipboard k hops below
   * the root is within k * (max(l, d) + 1) seconds of the root, at any later time.
   */
  lemma ChainBound(chain: seq<Node>, k: nat, l: nat, d: nat, at: real)
    requires k < |chain| && at >= chain[k].got
    requires forall i :: 0 < i <= k ==> SyncedBy(chain[i - 1], chain[i], l, d)
    ensures Within(NetAt(chain[k], at), NetAt(chain[0], at), k * (Max(l, d) + 1))
  {
    ChainError(chain, k, l, d, at);
    ErrorsAtMost(chain, k, l, d);
    WithinMore(NetAt(chain[k], at), NetAt(chain[0], at), ErrorSum(chain, k), k * (Max(l, d) + 1));
  }
}
