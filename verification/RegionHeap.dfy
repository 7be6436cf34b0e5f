/** Memory safety the other way: mem_put loses no buffer (src/mem/clmem.c:92-111). */
module RegionHeap {
  import opened Common
  import opened RegionMachine
  import opened RegionLinear
  import RwLock

  /** The buffer is the region's, or some call in progress still has it to place or to free. */
  ghost predicate Owned(s: Region, k: nat) {
    s.data == Some(k) || exists t :: t in s.body && Private(s.body[t]) == Some(k)
  }

  ghost predicate NoLeak(s: Region) {
    forall k :: k in s.heap ==> Owned(s, k)
  }

  /** Between the free and the assignment the region's pointer dangles. */
  ghost predicate Dangles(s: Region) {
    forall t :: t in s.body && s.body[t].Taking? && s.body[t].stage.SetData? ==>
                  s.data.Some? ==> s.data.value !in s.heap
  }

  lemma OthersStay(s: Region, t: nat, m: Move)
    requires Can(s, t, m)
    ensures Do(s, t, m).body.Keys == s.body.Keys && Do(s, t, m).body == s.body[t := Do(s, t, m).body[t]]
  {
  }

  /** What is on the heap after a move was there before, or is the mover's new copy. */
  lemma HeapMoves(s: Region, t: nat, m: Move, k: nat)
    requires Can(s, t, m) && k in Do(s, t, m).heap
    ensures k in s.heap || (m.CallPut? && k == s.next && Private(Do(s, t, m).body[t]) == Some(k))
  {
  }

  /** The mover gives its buffer up only to the region, or frees it. */
  lemma OwnMoves(s: Region, t: nat, m: Move, k: nat)
    requires Can(s, t, m) && LockPart(s) && k in Do(s, t, m).heap && Private(s.body[t]) == Some(k)
    ensures Private(Do(s, t, m).body[t]) == Some(k) || Do(s, t, m).data == Some(k)
  {
    assert Fits(s, t);
  }

  /** The region gives its buffer up only once it is freed. */
  lemma DataMoves(s: Region, t: nat, m: Move, k: nat)
    requires Can(s, t, m) && Dangles(s) && k in Do(s, t, m).heap && k in s.heap && s.data == Some(k)
    ensures Do(s, t, m).data == Some(k)
  {
  }

  lemma OwnedKept(s: Region, t: nat, m: Move, k: nat)
    requires Can(s, t, m) && LockPart(s) && Dangles(s) && NoLeak(s) && k in Do(s, t, m).heap
    ensures Owned(Do(s, t, m), k)
  {
    OthersStay(s, t, m);
    HeapMoves(s, t, m, k);
    if k in s.heap {
      if s.data == Some(k) {
        DataMoves(s, t, m, k);
      } else {
        var u :| u in s.body && Private(s.body[u]) == Some(k);
        if u == t {
          OwnMoves(s, t, m, k);
        } else {
          assert Private(Do(s, t, m).body[u]) == Some(k);
        }
      }
    }
  }

  lemma DanglesKept(s: Region, t: nat, m: Move)
    requires Can(s, t, m) && LockPart(s) && HeapPart(s) && Dangles(s) && (forall u :: u in s.body ==> AloneTaking(s, u))
    ensures Dangles(Do(s, t, m))
  {
    OthersStay(s, t, m);
    var s' := Do(s, t, m);
    forall u | u in s'.body && s'.body[u].Taking? && s'.body[u].stage.SetData?
      ensures s'.data.Some? ==> s'.data.value !in s'.heap
    {
      if u != t {
        assert AloneTaking(s, u);
      }
    }
  }

  /** While one thread replaces the contents no other does. */
  ghost predicate AloneTaking(s: Region, u: nat)
    requires u in s.body
  {
    s.body[u].Taking? ==> forall t :: t in s.body && s.body[t].Taking? ==> t == u
  }

  lemma TakingIsAlone(s: Region, u: nat)
    requires LockPart(s) && u in s.body
    ensures AloneTaking(s, u)
  {
    if s.body[u].Taking? {
      forall t | t in s.body && s.body[t].Taking?
        ensures t == u
      {
        assert Fits(s, t) && Fits(s, u);
        RwLock.TwoWriters(s.lock, t, u);
      }
    }
  }

  lemma HeapKept(s: Region, t: nat, m: Move)
    requires Can(s, t, m) && Inv(s) && Dangles(s) && NoLeak(s)
    ensures Dangles(Do(s, t, m)) && NoLeak(Do(s, t, m))
  {
    forall u | u in s.body
      ensures AloneTaking(s, u)
    {
      TakingIsAlone(s, u);
    }
    DanglesKept(s, t, m);
    forall k | k in Do(s, t, m).heap
      ensures Owned(Do(s, t, m), k)
    {
      OwnedKept(s, t, m, k);
    }
  }

  /** No buffer is ever lost. */
  lemma {:induction false} NothingLeaks(start: Region, steps: seq<Step>)
    requires Init(start) && Runs(start, steps)
    ensures Dangles(After(start, steps)) && NoLeak(After(start, steps))
  {
    if steps != [] {
      var before, x := steps[..|steps| - 1], steps[|steps| - 1];
      NothingLeaks(start, before);
      Reachable(start, before);
      HeapKept(After(start, before), x.tid, x.move);
    }
  }

  /** When no call is in progress the heap holds the region's buffer and nothing else. */
  lemma OnlyTheRegions(start: Region, steps: seq<Step>)
    requires Init(start) && Runs(start, steps)
    requires forall t :: t in After(start, steps).body ==> After(start, steps).body[t].Out?
    ensures var s := After(start, steps);
            s.heap.Keys == if s.data.Some? then {s.data.value} else {}
  {
    NothingLeaks(start, steps);
    Reachable(start, steps);
    var s := After(start, steps);
    RegionHolds(s);
    forall k | k in s.heap
      ensures s.data == Some(k)
    {
      assert Owned(s, k);
    }
  }

  lemma RegionHolds(s: Region)
    requires ZonePart(s) && forall t :: t in s.body ==> s.body[t].Out?
    ensures s.data.Some? ==> s.data.value in s.heap
  {
    assert Matches(s, Replay(s.log));
  }
}
