/**
 * The connection tables of src/interfaces/appif.c and src/interfaces/clipif.c: an array of slots, a
 * counter, and the interface lock around both.  The methods are what one thread does while it holds
 * the interface lock; `locked` says whether it still holds it afterwards.  The program's tables have
 * MAX_APPS and MAX_CLIPBOARDS slots; here they have any number.
 */
module Slots {
  /** The number of slots with a positive socket. */
  function Occupied(fds: seq<int>): nat {
    if fds == [] then 0 else Occupied(fds[..|fds| - 1]) + if fds[|fds| - 1] > 0 then 1 else 0
  }

  lemma {:induction false} OccupiedAfter(fds: seq<int>, i: nat, fd: int)
    requires i < |fds|
    ensures Occupied(fds[i := fd]) ==
            Occupied(fds) - (if fds[i] > 0 then 1 else 0) + (if fd > 0 then 1 else 0)
  {
    var m := fds[..|fds| - 1];
    if i == |fds| - 1 {
      assert fds[i := fd][..i] == m;
    } else {
      assert fds[i := fd][..|fds| - 1] == m[i := fd];
      OccupiedAfter(m, i, fd);
    }
  }

  lemma {:induction false} OccupiedRange(fds: seq<int>)
    ensures Occupied(fds) <= |fds|
    ensures Occupied(fds) == |fds| <==> forall i :: 0 <= i < |fds| ==> fds[i] > 0
    ensures Occupied(fds) == 0 <==> forall i :: 0 <= i < |fds| ==> fds[i] <= 0
  {
    if fds != [] {
      OccupiedRange(fds[..|fds| - 1]);
    }
  }

  /** One slave thread for each occupied slot, and none for any other. */
  ghost predicate OneSlaveEach(fds: seq<int>, slaves: multiset<nat>) {
    forall i: nat :: slaves[i] == if i < |fds| && fds[i] > 0 then 1 else 0
  }

  /** The counter, the slots and the slaves agree. */
  ghost predicate Consistent(fds: seq<int>, n: int, slaves: multiset<nat>) {
    n == Occupied(fds) && OneSlaveEach(fds, slaves)
  }

  lemma Occupy(fds: seq<int>, n: int, slaves: multiset<nat>, i: nat, fd: int)
    requires Consistent(fds, n, slaves) && i < |fds| && fds[i] <= 0 && fd > 0
    ensures Consistent(fds[i := fd], n + 1, slaves + multiset{i})
  {
    OccupiedAfter(fds, i, fd);
  }

  lemma Vacate(fds: seq<int>, n: int, slaves: multiset<nat>, i: nat)
    requires Consistent(fds, n, slaves) && i in slaves
    ensures i < |fds| && fds[i] > 0 && Consistent(fds[i := 0], n - 1, slaves - multiset{i})
  {
    OccupiedAfter(fds, i, 0);
  }

  /** What lets appif_finalize and clipif_finalize leave their wait: no connection, hence no slave. */
  lemma NothingLeft(fds: seq<int>, n: int, slaves: multiset<nat>)
    requires Consistent(fds, n, slaves)
    ensures 0 <= n <= |fds|
    ensures n <= 0 <==> slaves == multiset{}
    ensures n <= 0 <==> forall i :: 0 <= i < |fds| ==> fds[i] <= 0
  {
    OccupiedRange(fds);
    if n <= 0 {
      assert forall i: nat :: slaves[i] == 0;
    }
    if i :| 0 <= i < |fds| && fds[i] > 0 {
      assert slaves[i] == 1;
    }
  }

  datatype Outcome = BadSocket | Full | HelloFailed | Zombie | Connected(slot: nat)

  /** The application interface. */
  class AppTable {
    const fds: array<int>
    var nConnections: int
    var slaves: multiset<nat>

    /** What holds whenever the interface lock is free. */
    ghost predicate Valid()
      reads this, fds
    {
      Consistent(fds[..], nConnections, slaves)
    }

    constructor (capacity: nat)
      ensures Valid() && fresh(fds) && fds.Length == capacity && nConnections == 0
    {
      fds := new int[capacity](_ => 0);
      nConnections, slaves := 0, multiset{};
      new;
      OccupiedRange(fds[..]);
    }

    /**
     * One turn of appif_listen after accept.  The assertion against zombie connections holds: the
     * search always finds a slot, the first free one.  A connection on descriptor 0 (when standard
     * input is closed) is counted while its slot still looks free: nothing else breaks the table.
     */
    method Accept(fd: int) returns (r: Outcome)
      requires Valid()
      modifies this, fds
      ensures Valid() <==> !(r.Connected? && fd == 0)
      ensures r.BadSocket? <==> fd < 0
      ensures r.Full? <==> fd >= 0 && old(nConnections) >= fds.Length
      ensures !r.BadSocket? && !r.Full? ==>
                && r.Connected? && r.slot < fds.Length && old(fds[r.slot]) <= 0
                && (forall i :: 0 <= i < r.slot ==> old(fds[i]) > 0)
                && fds[..] == old(fds[..])[r.slot := fd]
                && nConnections == old(nConnections) + 1 && slaves == old(slaves) + multiset{r.slot}
      ensures !r.Connected? ==> fds[..] == old(fds[..]) && nConnections == old(nConnections) && slaves == old(slaves)
    {
      OccupiedRange(fds[..]);
      if fd < 0 {
        return BadSocket;
      }
      if nConnections >= fds.Length {
        return Full;
      }
      var i := 0;
      while i < fds.Length && fds[i] > 0
        invariant 0 <= i <= fds.Length
        invariant forall j :: 0 <= j < i ==> fds[j] > 0
      {
        i := i + 1;
      }
      assert i != fds.Length;
      if fd > 0 {
        Occupy(fds[..], nConnections, slaves, i, fd);
      }
      nConnections := nConnections + 1;
      fds[i] := fd;
      slaves := slaves + multiset{i};
      assert fds[..] == old(fds[..])[i := fd];
      assert fd == 0 ==> slaves[i] > 0;
      return Connected(i);
    }

    /** appif_close_conn by the slave of slot `index`. */
    method CloseConn(index: nat)
      requires Valid() && index in slaves
      modifies this, fds
      ensures Valid() && index < fds.Length && old(fds[index]) > 0
      ensures fds[..] == old(fds[..])[index := 0]
      ensures nConnections == old(nConnections) - 1 && slaves == old(slaves) - multiset{index}
    {
      Vacate(fds[..], nConnections, slaves, index);
      nConnections := nConnections - 1;
      fds[index] := 0;
      slaves := slaves - multiset{index};
      assert fds[..] == old(fds[..])[index := 0];
    }
  }

  /** The clipboard interface; `locked` says that its lock was not given back. */
  class ClipTable {
    const fds: array<int>
    var nConnections: int
    var slaves: multiset<nat>
    var parentSock: int
    var clocks: nat
    var locked: bool

    /** What holds whenever the interface lock is free. */
    ghost predicate Valid()
      reads this, fds
    {
      !locked && Consistent(fds[..], nConnections, slaves)
    }

    /** clipif_init: with a parent in slot 0, or as the root of a tree with a clock of its own. */
    constructor (capacity: nat, socket: int)
      requires capacity > 0 && socket >= 0
      ensures Valid() && fresh(fds) && fds.Length == capacity
      ensures if socket == 0 then nConnections == 0 && parentSock == -1 && clocks == 1
              else nConnections == 1 && fds[0] == socket == parentSock && clocks == 0
    {
      fds := new int[capacity](_ => 0);
      nConnections, slaves, parentSock, clocks, locked := 0, multiset{}, -1, 1, false;
      new;
      OccupiedRange(fds[..]);
      if socket != 0 {
        Occupy(fds[..], 0, multiset{}, 0, socket);
        ghost var before := fds[..];
        fds[0] := socket;
        nConnections, slaves, parentSock, clocks := 1, multiset{0}, socket, 0;
        assert fds[..] == before[0 := socket] && multiset{} + multiset{0} == multiset{0};
      }
    }

    /**
     * One turn of clipif_listen after accept.  `held[i]` says that the broadcaster held slot `i`
     * when its trylock was tried.  A newcomer is turned away for want of a slot exactly when every
     * free slot was held at that moment, and then the interface lock is not given back.  As for
     * applications, only a connection on descriptor 0 breaks the table.
     */
    method Accept(fd: int, helloSent: bool, held: seq<bool>) returns (r: Outcome)
      requires Valid() && |held| == fds.Length
      modifies this, fds
      ensures r.BadSocket? <==> fd < 0
      ensures r.Full? <==> fd >= 0 && old(nConnections) >= fds.Length
      ensures r.HelloFailed? <==> fd >= 0 && old(nConnections) < fds.Length && !helloSent
      ensures r.Zombie? <==> fd >= 0 && old(nConnections) < fds.Length && helloSent
                             && forall i :: 0 <= i < fds.Length && old(fds[i]) <= 0 ==> held[i]
      ensures locked <==> r.Zombie?
      ensures Consistent(fds[..], nConnections, slaves) <==> !(r.Connected? && fd == 0)
      ensures r.Connected? ==>
                && r.slot < fds.Length && old(fds[r.slot]) <= 0 && !held[r.slot]
                && (forall i :: 0 <= i < r.slot ==> old(fds[i]) > 0 || held[i])
                && fds[..] == old(fds[..])[r.slot := fd]
                && nConnections == old(nConnections) + 1 && slaves == old(slaves) + multiset{r.slot}
      ensures !r.Connected? ==> fds[..] == old(fds[..]) && nConnections == old(nConnections) && slaves == old(slaves)
      ensures parentSock == old(parentSock) && clocks == old(clocks)
    {
      if fd < 0 {
        return BadSocket;
      }
      if nConnections >= fds.Length {
        return Full;
      }
      if !helloSent {
        return HelloFailed;
      }
      var i := 0;
      while i < fds.Length && (held[i] || fds[i] > 0)
        invariant 0 <= i <= fds.Length
        invariant forall j :: 0 <= j < i ==> held[j] || fds[j] > 0
      {
        i := i + 1;
      }
      if i == fds.Length {
        locked := true;
        return Zombie;
      }
      if fd > 0 {
        Occupy(fds[..], nConnections, slaves, i, fd);
      }
      nConnections := nConnections + 1;
      fds[i] := fd;
      slaves := slaves + multiset{i};
      assert fds[..] == old(fds[..])[i := fd];
      assert fd == 0 ==> slaves[i] > 0;
      return Connected(i);
    }

    /** clipif_close_conn by the slave of slot `index`; losing the parent makes the clipboard a root. */
    method CloseConn(index: nat)
      requires Valid() && index in slaves
      modifies this, fds
      ensures Valid() && index < fds.Length && old(fds[index]) > 0
      ensures fds[..] == old(fds[..])[index := 0]
      ensures nConnections == old(nConnections) - 1 && slaves == old(slaves) - multiset{index}
      ensures if old(parentSock) == old(fds[index]) then parentSock == -1 && clocks == old(clocks) + 1
              else parentSock == old(parentSock) && clocks == old(clocks)
    {
      Vacate(fds[..], nConnections, slaves, index);
      var sock := fds[index];
      fds[index] := 0;
      if parentSock == sock {
        parentSock := -1;
        clocks := clocks + 1;
      }
      nConnections := nConnections - 1;
      slaves := slaves - multiset{index};
      assert fds[..] == old(fds[..])[index := 0];
    }
  }
}
