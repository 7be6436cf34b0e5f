/** What a tree of clipboards agrees on once nothing is in flight any more. */
module Convergence {
  import opened Common
  import opened Topology
  import opened Clmem
  import opened Replication
  import opened FloodInvariant
  import opened FloodSteps

  // ----- Runs and the copies made in them -----

  /** An application at its origin made this copy in the run. */
  predicate Made(run: seq<Label>, c: Copy) {
    Copying(c.org, c) in run
  }

  ghost predicate Entered(s: State, c: Copy) {
    c.org < |s.nodes| && Item(c, App(c.slave)) in s.nodes[c.org].offered
  }

  lemma EnteredByStep(t: Tree, s: State, l: Label, c: Copy)
    requires Inv(t, s) && Enabled(t, s, l)
    ensures Entered(Apply(t, s, l), c) <==> Entered(s, c) || l == Copying(c.org, c)
  {
    StepFrame(t, s, l);
    StepOffers(t, s, l);
  }

  /** The logs at the origins hold exactly the copies the run made. */
  lemma {:induction false} MadeIffEntered(t: Tree, allowed: iset<Copy>, run: seq<Label>, c: Copy)
    requires WellFormed(t) && Legal(t, allowed, run)
    ensures Entered(After(t, allowed, run), c) <==> Made(run, c)
    ensures Made(run, c) ==> c in allowed
  {
    if run != [] {
      var before, l := run[..|run| - 1], run[|run| - 1];
      assert run == before + [l];
      MadeIffEntered(t, allowed, before, c);
      Reachable(t, allowed, before);
      EnteredByStep(t, After(t, allowed, before), l, c);
    }
  }

  /** A copy offered anywhere entered at its origin. */
  lemma OfferedEntered(t: Tree, s: State, u: nat, it: Item)
    requires Inv(t, s) && u < |s.nodes| && it in s.nodes[u].offered
    ensures Entered(s, it.c)
  {
    assert Directed(t, u, it) && Caused(s, it);
    if it.from.Link? {
      AcceptedSubset(s.nodes[it.c.org].offered, Item(it.c, App(it.c.slave)));
    }
  }

  // ----- Winners -----

  ghost predicate Concerns(c: Copy, r: nat) {
    c.region == r && 0 <= r < 10 && c.data != []
  }

  lemma {:induction false} AdmittedIsAccepted(s: seq<Item>, i: nat)
    requires i < |s| && Admits(Fold(Offers(s[..i])), ToOffer(s[i].c))
    ensures s[i] in Accepted(s)
  {
    var m, last := s[..|s| - 1], s[|s| - 1];
    assert s == m + [last];
    AcceptedAppend(m, last);
    if i < |m| {
      assert m[..i] == s[..i];
      AdmittedIsAccepted(m, i);
    } else {
      assert s[..i] == m;
    }
  }

  /** A region of a memory holds some offered copy, which dominates all offers and was accepted. */
  lemma HeldCopy(s: seq<Item>, r: nat) returns (it: Item)
    requires r < N_REGIONS && Fold(Offers(s))[r].data.Some?
    ensures it in s && it in Accepted(s) && Concerns(it.c, r)
    ensures Fold(Offers(s))[r] == PutZone(it.c.data, it.c.stamp)
    ensures forall x :: x in s && Concerns(x.c, r) ==> x.c.stamp <= it.c.stamp
  {
    var os := Offers(s);
    var w := FoldHoldsWinner(os, r);
    it := s[w];
    assert At(os, r, w);
    assert os[..w] == Offers(s[..w]);
    AdmittedIff(os[..w], os[w]);
    forall j | At(os[..w], r, j)
      ensures os[j].stamp <= os[w].stamp
    {
      assert At(os, r, j);
    }
    AdmittedIsAccepted(s, w);
    forall x | x in s && Concerns(x.c, r)
      ensures x.c.stamp <= it.c.stamp
    {
      var j :| 0 <= j < |s| && s[j] == x;
      assert At(os, r, j);
    }
  }

  lemma EmptyMeansNone(s: seq<Item>, r: nat, x: Item)
    requires r < N_REGIONS && x in s && Concerns(x.c, r)
    ensures Fold(Offers(s))[r].data.Some?
  {
    var w := FoldHoldsWinner(Offers(s), r);
    var j :| 0 <= j < |s| && s[j] == x;
    assert At(Offers(s), r, j);
  }

  // ----- Agreement across one link at rest -----

  lemma RestEdge(t: Tree, s: State, u: nat, v: nat)
    requires Inv(t, s) && Quiescent(t, s) && Adj(t, u, v)
    ensures Sent(s, u, v) == Got(s, u, v)
  {
    assert EdgeConserved(s, u, v);
    assert Chan(s, u, v) == [] && s.nodes[u].queue == [] && s.nodes[u].bc.Idle?;
  }

  lemma RestSlave(t: Tree, s: State, u: nat, f: Source)
    requires Inv(t, s) && Quiescent(t, s) && u < |s.nodes|
    ensures Sel(From(f), Accepted(s.nodes[u].offered)) == Sel(From(f), s.nodes[u].pushed)
  {
    assert SlaveInStep(s.nodes[u], f);
    assert s.nodes[u].pend == map[];
  }

  /** At rest, what one clipboard accepted was offered to each of its neighbours. */
  lemma RestSpreads(t: Tree, s: State, u: nat, v: nat, it: Item) returns (there: Item)
    requires Inv(t, s) && Quiescent(t, s) && Adj(t, u, v) && it in Accepted(s.nodes[u].offered)
    ensures there in s.nodes[v].offered && there.c == it.c
  {
    var n := s.nodes[u];
    AcceptedSubset(n.offered, it);
    if it.from == Link(v) {
      SelMember(From(Link(v)), n.offered, it.c);
      RestEdge(t, s, v, u);
      there := SentWasPushed(t, s, v, u, it.c);
      PushedWasAccepted(t, s, v, there);
    } else {
      RestSlave(t, s, u, it.from);
      SelMember(From(it.from), Accepted(n.offered), it.c);
      SelMember(From(it.from), n.pushed, it.c);
      SelMember(NotFrom(v), n.pushed, it.c);
      RestEdge(t, s, u, v);
      SelMember(From(Link(u)), s.nodes[v].offered, it.c);
      there :| there in s.nodes[v].offered && there.c == it.c && Picks(From(Link(u)), there);
    }
  }

  /** An empty zone is below every stamp. */
  ghost predicate AtMost(a: Zone, b: Zone) {
    a.data.Some? ==> b.data.Some? && a.stamp <= b.stamp
  }

  lemma RestAtMost(t: Tree, s: State, u: nat, v: nat, r: nat)
    requires Inv(t, s) && Quiescent(t, s) && Adj(t, u, v) && r < N_REGIONS
    ensures AtMost(s.nodes[u].mem[r], s.nodes[v].mem[r])
  {
    assert NodeShape(t, u, s.nodes[u]) && NodeShape(t, v, s.nodes[v]);
    if s.nodes[u].mem[r].data.Some? {
      var it := HeldCopy(s.nodes[u].offered, r);
      var there := RestSpreads(t, s, u, v, it);
      EmptyMeansNone(s.nodes[v].offered, r, there);
      var top := HeldCopy(s.nodes[v].offered, r);
    }
  }

  lemma {:induction false} RestAtMostRoot(t: Tree, s: State, u: nat, r: nat)
    requires Inv(t, s) && Quiescent(t, s) && u < |s.nodes| && r < N_REGIONS
    ensures AtMost(s.nodes[u].mem[r], s.nodes[0].mem[r]) && AtMost(s.nodes[0].mem[r], s.nodes[u].mem[r])
  {
    if u != 0 {
      var p := t.parent[u];
      RestAtMostRoot(t, s, p, r);
      assert Adj(t, u, p) && Adj(t, p, u);
      RestAtMost(t, s, u, p, r);
      RestAtMost(t, s, p, u, r);
    }
  }

  /** The stamp the region must end with: the largest of the valid copies made to it. */
  ghost predicate Latest(run: seq<Label>, r: nat, c: Copy) {
    Made(run, c) && Concerns(c, r) && forall d :: Made(run, d) && Concerns(d, r) ==> d.stamp <= c.stamp
  }

  /**
   * Stamp convergence: whenever nothing is in flight, every clipboard's region holds some copy made
   * to it whose stamp is the largest made there, and no clipboard holds anything if none was made.
   */
  lemma StampsConverge(t: Tree, allowed: iset<Copy>, run: seq<Label>, u: nat, r: nat)
    requires WellFormed(t) && Legal(t, allowed, run) && IsNode(t, u) && r < 10
    requires Quiescent(t, After(t, allowed, run))
    ensures var z := After(t, allowed, run).nodes[u].mem[r];
            && (z == Zone(None, 0, 0) <==> forall c :: Made(run, c) ==> !Concerns(c, r))
            && (z != Zone(None, 0, 0) ==>
                  exists c :: Latest(run, r, c) && z == Zone(Some(c.data), |c.data|, c.stamp))
  {
    Reachable(t, allowed, run);
    var s := After(t, allowed, run);
    forall d | Made(run, d) && Concerns(d, r)
      ensures AtMost(PutZone(d.data, d.stamp), s.nodes[u].mem[r])
    {
      MadeIsBelow(t, allowed, run, d, u, r);
    }
    if s.nodes[u].mem[r] != EMPTY_ZONE {
      var c := HeldWasMade(t, allowed, run, u, r);
    }
  }

  lemma MadeIsBelow(t: Tree, allowed: iset<Copy>, run: seq<Label>, d: Copy, u: nat, r: nat)
    requires WellFormed(t) && Legal(t, allowed, run) && IsNode(t, u) && r < N_REGIONS
    requires Quiescent(t, After(t, allowed, run)) && Made(run, d) && Concerns(d, r)
    ensures AtMost(PutZone(d.data, d.stamp), After(t, allowed, run).nodes[u].mem[r])
  {
    Reachable(t, allowed, run);
    MadeIffEntered(t, allowed, run, d);
    MadeBelowRoot(t, After(t, allowed, run), d, r);
    RestAtMostRoot(t, After(t, allowed, run), u, r);
  }

  lemma HeldWasMade(t: Tree, allowed: iset<Copy>, run: seq<Label>, u: nat, r: nat) returns (c: Copy)
    requires WellFormed(t) && Legal(t, allowed, run) && IsNode(t, u) && r < N_REGIONS
    requires |After(t, allowed, run).nodes| == |t.parent|
    requires After(t, allowed, run).nodes[u].mem[r] != EMPTY_ZONE
    ensures Made(run, c) && Concerns(c, r)
    ensures After(t, allowed, run).nodes[u].mem[r] == PutZone(c.data, c.stamp)
  {
    Reachable(t, allowed, run);
    var s := After(t, allowed, run);
    assert NodeShape(t, u, s.nodes[u]);
    var w := FoldHoldsWinner(Offers(s.nodes[u].offered), r);
    var it := HeldCopy(s.nodes[u].offered, r);
    c := it.c;
    OfferedEntered(t, s, u, it);
    MadeIffEntered(t, allowed, run, c);
  }

  lemma MadeBelowRoot(t: Tree, s: State, d: Copy, r: nat)
    requires Inv(t, s) && Quiescent(t, s) && Entered(s, d) && Concerns(d, r)
    ensures AtMost(PutZone(d.data, d.stamp), s.nodes[0].mem[r])
  {
    var n := s.nodes[d.org];
    assert NodeShape(t, d.org, n);
    EmptyMeansNone(n.offered, r, Item(d, App(d.slave)));
    var top := HeldCopy(n.offered, r);
    RestAtMostRoot(t, s, d.org, r);
  }
}
