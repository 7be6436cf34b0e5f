/** What the flood lets applications do: make any copies they like, one after the other or crossing. */
module FloodReach {
  import opened Topology
  import opened Replication
  import opened FloodInvariant
  import opened FloodSteps
  import opened Convergence
  import opened FloodBound

  /**
   * At any time an application at any clipboard can make any copy it has not made yet, unless its
   * slave still has the one before to push.
   */
  lemma CopyCanEnter(t: Tree, allowed: iset<Copy>, run: seq<Label>, c: Copy)
    requires WellFormed(t) && Legal(t, allowed, run) && IsNode(t, c.org) && c in allowed && !Made(run, c)
    requires |After(t, allowed, run).nodes| == |t.parent|
    requires App(c.slave) !in After(t, allowed, run).nodes[c.org].pend
    ensures Legal(t, allowed, run + [Copying(c.org, c)])
  {
    MadeIffEntered(t, allowed, run, c);
    ExtendLegal(t, allowed, run, Copying(c.org, c));
  }

  /** The copies made in a run, in order. */
  function CopiesMade(run: seq<Label>): seq<Copy> {
    if run == [] then []
    else CopiesMade(run[..|run| - 1]) + if run[|run| - 1].Copying? then [run[|run| - 1].c] else []
  }

  lemma {:induction false} MadeAmong(t: Tree, allowed: iset<Copy>, run: seq<Label>, c: Copy)
    requires Legal(t, allowed, run)
    ensures Made(run, c) <==> c in CopiesMade(run)
  {
    if run != [] {
      var before, l := run[..|run| - 1], run[|run| - 1];
      assert run == before + [l];
      MadeAmong(t, allowed, before, c);
    }
  }

  lemma {:induction false} NoMoreMade(run: seq<Label>, longer: seq<Label>)
    requires run <= longer && forall i :: |run| <= i < |longer| ==> !longer[i].Copying?
    ensures CopiesMade(longer) == CopiesMade(run)
    decreases |longer|
  {
    if longer != run {
      NoMoreMade(run, longer[..|longer| - 1]);
    }
  }

  /** Any series of different copies can be made, in that order, and worked off. */
  lemma {:induction false} AnyCopies(t: Tree, allowed: iset<Copy>, cs: seq<Copy>) returns (run: seq<Label>)
    requires WellFormed(t) && forall i :: 0 <= i < |cs| ==> cs[i] in allowed && IsNode(t, cs[i].org)
    requires forall i, j :: 0 <= i < j < |cs| ==> cs[i] != cs[j]
    ensures Legal(t, allowed, run) && CopiesMade(run) == cs && Quiescent(t, After(t, allowed, run))
  {
    var start: seq<Label> := [];
    if cs != [] {
      var k := |cs| - 1;
      var before := AnyCopies(t, allowed, cs[..k]);
      MadeAmong(t, allowed, before, cs[k]);
      CopyCanEnter(t, allowed, before, cs[k]);
      start := before + [Copying(cs[k].org, cs[k])];
      assert start[..|before|] == before;
    }
    run := ComesToRest(t, allowed, start, 1);
    NoMoreMade(start, run);
  }

  /**
   * Slaves and broadcasters wait for nothing but their next packet: a slave pushes what it got accepted,
   * the broadcaster takes and sends what is queued, and a slave takes what has arrived once it is free.
   */
  lemma NeverWaits(t: Tree, s: State, u: nat)
    requires |s.nodes| == |t.parent| && u < |s.nodes|
    ensures forall f :: f in s.nodes[u].pend ==> Enabled(t, s, Push(u, f))
    ensures s.nodes[u].bc.Idle? && s.nodes[u].queue != [] ==> Enabled(t, s, Pop(u))
    ensures s.nodes[u].bc.Busy? ==> forall v :: v in s.nodes[u].bc.todo ==> Enabled(t, s, Send(u, v))
    ensures s.nodes[u].bc.Busy? && s.nodes[u].bc.todo == {} ==> Enabled(t, s, Done(u))
    ensures forall v: nat :: Adj(t, v, u) && Chan(s, v, u) != [] && Link(v) !in s.nodes[u].pend ==>
                               Enabled(t, s, Deliver(v, u))
  {
  }
}
