/**
 * When do all clipboards end up with the same bytes?  mem_put accepts an equal stamp
 * (src/mem/clmem.c:98), so two slaves whose copies share a stamp can leave the clipboards divided.
 * This happens exactly when the applications' copies allow such a tie.
 */
module Ties {
  import opened Common
  import opened Topology
  import opened Clmem
  import opened Replication
  import opened FloodInvariant
  import opened FloodSteps
  import opened Convergence
  import opened WriterOrder
  import opened FloodBound

  /** A valid copy to `r` made at one of the clipboards. */
  ghost predicate Possible(t: Tree, r: nat, c: Copy) {
    IsNode(t, c.org) && Concerns(c, r)
  }

  ghost predicate Tied(t: Tree, r: nat, a: Copy, b: Copy) {
    Possible(t, r, a) && Possible(t, r, b) && a.stamp == b.stamp && a.data != b.data
  }

  /** No two slaves may make copies to `r` with the same stamp and different bytes. */
  ghost predicate TieFree(t: Tree, allowed: iset<Copy>, r: nat) {
    forall a, b :: a in allowed && b in allowed && Tied(t, r, a, b) ==> a.org == b.org && a.slave == b.slave
  }

  /** Every run that has come to rest leaves the same bytes in region `r` everywhere. */
  ghost predicate BytesConverge(t: Tree, allowed: iset<Copy>, r: nat)
    requires WellFormed(t) && r < N_REGIONS
  {
    forall run :: Legal(t, allowed, run) && AtRest(t, allowed, run) ==> SameBytes(t, allowed, run, r)
  }

  ghost predicate AtRest(t: Tree, allowed: iset<Copy>, run: seq<Label>)
    requires Legal(t, allowed, run)
  {
    Quiescent(t, After(t, allowed, run))
  }

  ghost predicate SameBytes(t: Tree, allowed: iset<Copy>, run: seq<Label>, r: nat)
    requires Legal(t, allowed, run) && AtRest(t, allowed, run) && r < N_REGIONS
  {
    forall u: nat, v: nat :: IsNode(t, u) && IsNode(t, v) ==>
                     After(t, allowed, run).nodes[u].mem[r].data == After(t, allowed, run).nodes[v].mem[r].data
  }

  // ----- Tie-free copies converge -----

  lemma {:induction false} NarrowerPolicy(t: Tree, allowed: iset<Copy>, fewer: iset<Copy>, run: seq<Label>)
    requires Legal(t, allowed, run) && forall l :: l in run && l.Copying? ==> l.c in fewer
    ensures Legal(t, fewer, run) && After(t, fewer, run) == After(t, allowed, run)
  {
    if run != [] {
      NarrowerPolicy(t, allowed, fewer, run[..|run| - 1]);
      assert run[|run| - 1] in run;
    }
  }

  lemma {:induction false} CopiesAtOrigin(t: Tree, allowed: iset<Copy>, run: seq<Label>)
    requires Legal(t, allowed, run)
    ensures forall l :: l in run && l.Copying? ==> l.c in MadeIn(run)
  {
    if run != [] {
      var before, last := run[..|run| - 1], run[|run| - 1];
      assert run == before + [last];
      CopiesAtOrigin(t, allowed, before);
      forall l | l in run && l.Copying?
        ensures l.c in MadeIn(run)
      {
        assert l in before ==> l.c in MadeIn(before);
      }
    }
  }

  /** At rest the region holds the last entry of the (non-empty) strong history. */
  lemma HeldIsLast(w: Writer, n: Node)
    requires w.r < N_REGIONS && n.mem == Fold(Offers(n.offered)) && History(w, n) != []
    ensures n.mem[w.r].data == Some(History(w, n)[|History(w, n)| - 1].data)
  {
    HistoryShape(w, n.offered);
    assert History(w, n) == History(w, LogNode(n.offered));
  }

  lemma HeldInHistory(w: Writer, n: Node)
    requires w.r < N_REGIONS && n.mem == Fold(Offers(n.offered))
    requires n.mem[w.r].data.Some? && n.mem[w.r].stamp >= w.lo
    ensures History(w, n) != []
  {
    var it := HeldCopy(n.offered, w.r);
    HistoryHas(w, n, it);
  }

  ghost function MadeIn(run: seq<Label>): iset<Copy> {
    iset c | Made(run, c)
  }

  /** All the newest copies come from one slave: its order decides, and it is the same everywhere. */
  lemma OneSlaveAgrees(t: Tree, w: Writer, run: seq<Label>, u: nat)
    requires WellFormed(t) && Legal(t, MadeIn(run), run) && AtRest(t, MadeIn(run), run)
    requires SoleWriter(w, MadeIn(run)) && IsNode(t, w.o) && w.r < N_REGIONS && IsNode(t, u)
    requires exists c :: Latest(run, w.r, c) && c.stamp == w.lo
    ensures var s := After(t, MadeIn(run), run);
            s.nodes[u].mem[w.r].data == s.nodes[w.o].mem[w.r].data
  {
    var s := After(t, MadeIn(run), run);
    Reachable(t, MadeIn(run), run);
    HistoriesAgree(t, w, MadeIn(run), run, u);
    StampsConverge(t, MadeIn(run), run, u, w.r);
    assert NodeShape(t, u, s.nodes[u]) && NodeShape(t, w.o, s.nodes[w.o]);
    HeldInHistory(w, s.nodes[u]);
    HeldIsLast(w, s.nodes[u]);
    HeldIsLast(w, s.nodes[w.o]);
  }

  lemma NewestHeld(t: Tree, allowed: iset<Copy>, run: seq<Label>, r: nat, u: nat) returns (c: Copy)
    requires WellFormed(t) && Legal(t, allowed, run) && AtRest(t, allowed, run) && r < N_REGIONS && IsNode(t, u)
    requires After(t, allowed, run).nodes[u].mem[r] != EMPTY_ZONE
    ensures Latest(run, r, c) && After(t, allowed, run).nodes[u].mem[r] == PutZone(c.data, c.stamp)
  {
    StampsConverge(t, allowed, run, u, r);
    c :| Latest(run, r, c) && After(t, allowed, run).nodes[u].mem[r] == PutZone(c.data, c.stamp);
  }

  /** A region is empty at one clipboard exactly when it is empty at another. */
  lemma EmptyTogether(t: Tree, allowed: iset<Copy>, run: seq<Label>, r: nat, u: nat, v: nat)
    requires WellFormed(t) && Legal(t, allowed, run) && AtRest(t, allowed, run) && r < N_REGIONS
    requires IsNode(t, u) && IsNode(t, v)
    ensures After(t, allowed, run).nodes[u].mem[r] == EMPTY_ZONE ==>
              After(t, allowed, run).nodes[v].mem[r] == EMPTY_ZONE
  {
    StampsConverge(t, allowed, run, u, r);
    StampsConverge(t, allowed, run, v, r);
  }

  lemma TieFreeRunAgrees(t: Tree, allowed: iset<Copy>, run: seq<Label>, r: nat, u: nat, v: nat)
    requires WellFormed(t) && Legal(t, allowed, run) && AtRest(t, allowed, run) && r < N_REGIONS
    requires TieFree(t, allowed, r) && IsNode(t, u) && IsNode(t, v)
    ensures After(t, allowed, run).nodes[u].mem[r].data == After(t, allowed, run).nodes[v].mem[r].data
  {
    EmptyTogether(t, allowed, run, r, u, v);
    EmptyTogether(t, allowed, run, r, v, u);
    if After(t, allowed, run).nodes[u].mem[r] != EMPTY_ZONE {
      var a := NewestHeld(t, allowed, run, r, u);
      var b := NewestHeld(t, allowed, run, r, v);
      if a.data != b.data {
        TieDecided(t, allowed, run, r, a, b, u);
        TieDecided(t, allowed, run, r, a, b, v);
      }
    }
  }

  lemma TieDecided(t: Tree, allowed: iset<Copy>, run: seq<Label>, r: nat, a: Copy, b: Copy, u: nat)
    requires WellFormed(t) && Legal(t, allowed, run) && AtRest(t, allowed, run) && r < N_REGIONS
    requires TieFree(t, allowed, r) && IsNode(t, u)
    requires Latest(run, r, a) && Latest(run, r, b) && a.data != b.data
    ensures IsNode(t, a.org)
    ensures After(t, allowed, run).nodes[u].mem[r].data == After(t, allowed, run).nodes[a.org].mem[r].data
  {
    MadePossible(t, allowed, run, r, a);
    TieIsOneSlaves(t, allowed, run, r, a, b);
    CopiesAtOrigin(t, allowed, run);
    NarrowerPolicy(t, allowed, MadeIn(run), run);
    OneSlaveAgrees(t, Writer(r, a.stamp, a.org, a.slave), run, u);
  }

  lemma MadePossible(t: Tree, allowed: iset<Copy>, run: seq<Label>, r: nat, c: Copy)
    requires WellFormed(t) && Legal(t, allowed, run) && Made(run, c) && Concerns(c, r)
    ensures Possible(t, r, c) && c in allowed
  {
    MadeIffEntered(t, allowed, run, c);
    Reachable(t, allowed, run);
  }

  /** If two newest copies differ in their bytes, one slave made all the newest ones. */
  lemma TieIsOneSlaves(t: Tree, allowed: iset<Copy>, run: seq<Label>, r: nat, a: Copy, b: Copy)
    requires WellFormed(t) && Legal(t, allowed, run) && TieFree(t, allowed, r)
    requires Latest(run, r, a) && Latest(run, r, b) && a.data != b.data
    ensures SoleWriter(Writer(r, a.stamp, a.org, a.slave), MadeIn(run))
  {
    MadePossible(t, allowed, run, r, a);
    MadePossible(t, allowed, run, r, b);
    forall c | c in MadeIn(run) && Strong(Writer(r, a.stamp, a.org, a.slave), c)
      ensures c.org == a.org && c.slave == a.slave
    {
      MadePossible(t, allowed, run, r, c);
      assert c.stamp == a.stamp == b.stamp;
      if c.data == a.data {
        assert c.data != b.data;
      }
    }
  }

  // ----- Two slaves that may tie divide the clipboards -----

  lemma OnlyThese(run: seq<Label>, longer: seq<Label>, c: Copy)
    requires run <= longer && forall i :: |run| <= i < |longer| ==> !longer[i].Copying?
    ensures Made(longer, c) <==> Made(run, c)
  {
    if Made(longer, c) {
      var i :| 0 <= i < |longer| && longer[i] == Copying(c.org, c);
      assert longer[i] == run[i];
    }
    if Made(run, c) {
      var i :| 0 <= i < |run| && run[i] == Copying(c.org, c);
      assert longer[i] == run[i];
    }
  }

  /** The only copies in the run are `a` and `b`, which tie. */
  ghost predicate OnlyTie(t: Tree, run: seq<Label>, r: nat, a: Copy, b: Copy) {
    && Tied(t, r, a, b)
    && Made(run, a) && Made(run, b)
    && forall c :: Made(run, c) ==> c == a || c == b
  }

  /** A memory that holds nothing above the stamp takes the copy. */
  lemma TieTakenStep(zs: Zones, c: Copy)
    requires ValidOffer(ToOffer(c)) && ZoneTakes(zs[c.region], c.stamp)
    ensures Admits(zs, ToOffer(c))
    ensures PutAll(zs, ToOffer(c))[c.region] == PutZone(c.data, c.stamp)
  {
  }

  /** The copies tie, so each offer of one of them is taken whatever came before. */
  lemma {:induction false} TieTaken(s: seq<Item>, a: Copy, b: Copy)
    requires a.region == b.region && a.stamp == b.stamp
    requires ValidOffer(ToOffer(a)) && ValidOffer(ToOffer(b))
    requires forall it :: it in s ==> it.c == a || it.c == b
    ensures Accepted(s) == s
    ensures Fold(Offers(s))[a.region] == if s == [] then EMPTY_ZONE else PutZone(s[|s| - 1].c.data, a.stamp)
  {
    if s != [] {
      var m, last := s[..|s| - 1], s[|s| - 1];
      assert s == m + [last];
      TieTaken(m, a, b);
      TieAppend(m, last);
    }
  }

  lemma TieAppend(m: seq<Item>, last: Item)
    requires ValidOffer(ToOffer(last.c)) && Accepted(m) == m
    requires ZoneTakes(Fold(Offers(m))[last.c.region], last.c.stamp)
    ensures Accepted(m + [last]) == m + [last]
    ensures Fold(Offers(m + [last]))[last.c.region] == PutZone(last.c.data, last.c.stamp)
  {
    TieTakenStep(Fold(Offers(m)), last.c);
    AcceptedAppend(m, last);
  }

  lemma OnlyTieOffered(t: Tree, allowed: iset<Copy>, run: seq<Label>, r: nat, a: Copy, b: Copy, u: nat)
    requires WellFormed(t) && Legal(t, allowed, run) && OnlyTie(t, run, r, a, b) && IsNode(t, u)
    ensures |After(t, allowed, run).nodes| == |t.parent|
    ensures var n := After(t, allowed, run).nodes[u];
            && (forall it :: it in n.offered ==> it.c == a || it.c == b)
            && n.mem == Fold(Offers(n.offered)) && Accepted(n.offered) == n.offered
            && |n.offered| <= 2
            && (n.offered != [] ==> n.mem[r].data == Some(n.offered[|n.offered| - 1].c.data))
  {
    Reachable(t, allowed, run);
    var s := After(t, allowed, run);
    var n := s.nodes[u];
    forall it | it in n.offered
      ensures it.c == a || it.c == b
    {
      OfferedEntered(t, s, u, it);
      MadeIffEntered(t, allowed, run, it.c);
    }
    TieTaken(n.offered, a, b);
    assert NodeShape(t, u, n) && OfferedOnce(n);
    TwoAtMost(n.offered, a, b);
  }

  lemma TwoAtMost(s: seq<Item>, a: Copy, b: Copy)
    requires forall it :: it in s ==> it.c == a || it.c == b
    requires forall i, j :: 0 <= i < j < |s| ==> s[i].c != s[j].c
    ensures |s| <= 2
  {
    assert forall i :: 0 <= i < |s| ==> s[i] in s;
    assert |s| > 2 ==> var x, y, z := s[0].c, s[1].c, s[2].c; x == y || x == z || y == z;
  }

  ghost predicate WasOffered(s: State, u: nat, c: Copy)
    requires u < |s.nodes|
  {
    exists it :: it in s.nodes[u].offered && it.c == c
  }

  /** At rest both tied copies have been offered everywhere. */
  lemma {:induction false} TieEverywhere(t: Tree, s: State, c: Copy, u: nat)
    requires Inv(t, s) && Quiescent(t, s) && u < |s.nodes|
    requires forall v :: 0 <= v < |s.nodes| ==> Accepted(s.nodes[v].offered) == s.nodes[v].offered
    ensures WasOffered(s, u, c) <==> WasOffered(s, 0, c)
  {
    if u != 0 {
      var p := t.parent[u];
      TieEverywhere(t, s, c, p);
      assert Adj(t, u, p) && Adj(t, p, u);
      if it :| it in s.nodes[u].offered && it.c == c {
        var there := RestSpreads(t, s, u, p, it);
      }
      if it :| it in s.nodes[p].offered && it.c == c {
        var there := RestSpreads(t, s, p, u, it);
      }
    }
  }

  /** At rest a clipboard that was offered `first` first holds the other one. */
  lemma SecondStays(t: Tree, allowed: iset<Copy>, run: seq<Label>, r: nat, first: Copy, second: Copy, u: nat)
    requires WellFormed(t) && Legal(t, allowed, run) && AtRest(t, allowed, run) && IsNode(t, u)
    requires r < N_REGIONS && OnlyTie(t, run, r, first, second)
    requires After(t, allowed, run).nodes[u].offered != [] && After(t, allowed, run).nodes[u].offered[0].c == first
    ensures After(t, allowed, run).nodes[u].mem[r].data == Some(second.data)
  {
    var s := After(t, allowed, run);
    Reachable(t, allowed, run);
    forall v | 0 <= v < |s.nodes|
      ensures Accepted(s.nodes[v].offered) == s.nodes[v].offered
    {
      OnlyTieOffered(t, allowed, run, r, first, second, v);
    }
    OnlyTieOffered(t, allowed, run, r, first, second, u);
    MadeIffEntered(t, allowed, run, second);
    assert WasOffered(s, second.org, second);
    TieEverywhere(t, s, second, second.org);
    TieEverywhere(t, s, second, u);
    var it :| it in s.nodes[u].offered && it.c == second;
    var n := s.nodes[u];
    var i :| 0 <= i < |n.offered| && n.offered[i] == it;
    assert OfferedOnce(n);
  }

  // ----- The dividing runs -----

  lemma FirstMade(t: Tree, allowed: iset<Copy>, a: Copy) returns (run: seq<Label>)
    requires WellFormed(t) && IsNode(t, a.org) && a in allowed
    ensures run == [Copying(a.org, a)] && Legal(t, allowed, run)
    ensures After(t, allowed, run).nodes == Init(t).nodes[a.org := OfferTo(EMPTY_NODE, a, App(a.slave))]
  {
    run := [] + [Copying(a.org, a)];
    ExtendLegal(t, allowed, [], Copying(a.org, a));
  }

  /** Both tied copies are made before anything else happens. */
  lemma BothMade(t: Tree, allowed: iset<Copy>, r: nat, a: Copy, b: Copy) returns (run: seq<Label>)
    requires WellFormed(t) && a in allowed && b in allowed && Tied(t, r, a, b)
    requires a.org != b.org || a.slave != b.slave
    ensures run == [Copying(a.org, a), Copying(b.org, b)] && Legal(t, allowed, run)
    ensures |After(t, allowed, run).nodes| == |t.parent|
    ensures After(t, allowed, run).nodes[a.org] ==
            if a.org == b.org
            then OfferTo(OfferTo(EMPTY_NODE, a, App(a.slave)), b, App(b.slave))
            else OfferTo(EMPTY_NODE, a, App(a.slave))
    ensures a.org != b.org ==> After(t, allowed, run).nodes[b.org] == OfferTo(EMPTY_NODE, b, App(b.slave))
  {
    var first := FirstMade(t, allowed, a);
    run := first + [Copying(b.org, b)];
    ExtendLegal(t, allowed, first, Copying(b.org, b));
  }

  lemma MadeByBoth(t: Tree, r: nat, a: Copy, b: Copy, run: seq<Label>, longer: seq<Label>)
    requires Tied(t, r, a, b) && [Copying(a.org, a), Copying(b.org, b)] <= run <= longer
    requires forall i :: 2 <= i < |longer| ==> !longer[i].Copying?
    ensures OnlyTie(t, longer, r, a, b) && OnlyTie(t, longer, r, b, a)
  {
    var both := [Copying(a.org, a), Copying(b.org, b)];
    forall c
      ensures Made(longer, c) <==> Made(both, c)
    {
      OnlyThese(both, longer, c);
    }
    assert both[0] in both && both[1] in both;
  }

  /** From different clipboards: each ends up with the other's copy. */
  lemma DivideAcross(t: Tree, allowed: iset<Copy>, r: nat, a: Copy, b: Copy) returns (run: seq<Label>)
    requires WellFormed(t) && r < N_REGIONS && a in allowed && b in allowed && Tied(t, r, a, b)
    requires a.org != b.org
    ensures Legal(t, allowed, run) && AtRest(t, allowed, run) && !SameBytes(t, allowed, run, r)
  {
    var both := BothMade(t, allowed, r, a, b);
    run := ComesToRest(t, allowed, both, 1);
    assert run[..2] == both;
    MadeByBoth(t, r, a, b, both, run);
    LogsGrow(t, allowed, run, 2, a.org);
    LogsGrow(t, allowed, run, 2, b.org);
    SecondStays(t, allowed, run, r, a, b, a.org);
    SecondStays(t, allowed, run, r, b, a, b.org);
    assert IsNode(t, a.org) && IsNode(t, b.org);
  }

  /** At one clipboard: both are put, and then pushed the other way round. */
  lemma CrossedPushes(t: Tree, allowed: iset<Copy>, r: nat, a: Copy, b: Copy) returns (run: seq<Label>)
    requires WellFormed(t) && r < N_REGIONS && a in allowed && b in allowed && Tied(t, r, a, b)
    requires a.org == b.org && a.slave != b.slave
    ensures Legal(t, allowed, run) && |run| == 4 && run[2].Push? && run[3].Push?
    ensures [Copying(a.org, a), Copying(b.org, b)] <= run
    ensures |After(t, allowed, run).nodes| == |t.parent|
    ensures After(t, allowed, run).nodes[a.org].offered == [Item(a, App(a.slave)), Item(b, App(b.slave))]
    ensures After(t, allowed, run).nodes[a.org].pushed == [Item(b, App(b.slave)), Item(a, App(a.slave))]
  {
    var u := a.org;
    var both := BothMade(t, allowed, r, a, b);
    var n := After(t, allowed, both).nodes[u];
    assert n.pend == map[App(a.slave) := a, App(b.slave) := b];
    ExtendLegal(t, allowed, both, Push(u, App(b.slave)));
    var three := both + [Push(u, App(b.slave))];
    ExtendLegal(t, allowed, three, Push(u, App(a.slave)));
    run := three + [Push(u, App(a.slave))];
  }

  /** A neighbour of the copies' clipboard is offered them in the order in which they were pushed. */
  lemma OfferedAsPushed(t: Tree, s: State, u: nat, w: nat, first: Item)
    requires Inv(t, s) && Quiescent(t, s) && Adj(t, u, w)
    requires forall it :: it in s.nodes[w].offered ==> it.c.org == u
    requires [first] <= s.nodes[u].pushed && first.from != Link(w)
    ensures s.nodes[w].offered != [] && s.nodes[w].offered[0].c == first.c
  {
    AwayLeadsBack(t, u, w, u);
    forall it | it in s.nodes[w].offered
      ensures it.from == Link(u)
    {
      assert Directed(t, w, it);
    }
    RestEdge(t, s, u, w);
    SelHead(NotFrom(w), s.nodes[u].pushed);
    if s.nodes[w].offered != [] {
      SelHead(From(Link(u)), s.nodes[w].offered);
      assert s.nodes[w].offered[0] in s.nodes[w].offered;
      assert Got(s, u, w)[0] == s.nodes[w].offered[0].c;
    }
    assert s.nodes[u].pushed[0] == first && Sent(s, u, w)[0] == first.c;
  }

  lemma SomeNeighbour(t: Tree, u: nat) returns (w: nat)
    requires WellFormed(t) && |t.parent| > 1 && IsNode(t, u)
    ensures Adj(t, u, w)
  {
    w := if u == 0 then 1 else t.parent[u];
  }

  /** At rest the neighbour holds the copy pushed last, the clipboard itself the one put last. */
  lemma DividedInside(t: Tree, allowed: iset<Copy>, r: nat, a: Copy, b: Copy, run: seq<Label>, w: nat)
    requires WellFormed(t) && r < N_REGIONS && Tied(t, r, a, b) && a.org == b.org && Adj(t, a.org, w)
    requires Legal(t, allowed, run) && AtRest(t, allowed, run)
    requires OnlyTie(t, run, r, a, b) && OnlyTie(t, run, r, b, a)
    requires [Item(a, App(a.slave)), Item(b, App(b.slave))] <= After(t, allowed, run).nodes[a.org].offered
    requires [Item(b, App(b.slave)), Item(a, App(a.slave))] <= After(t, allowed, run).nodes[a.org].pushed
    ensures After(t, allowed, run).nodes[a.org].mem[r].data == Some(b.data)
    ensures After(t, allowed, run).nodes[w].mem[r].data == Some(a.data)
  {
    SecondStays(t, allowed, run, r, a, b, a.org);
    Reachable(t, allowed, run);
    OnlyTieOffered(t, allowed, run, r, a, b, w);
    OfferedAsPushed(t, After(t, allowed, run), a.org, w, Item(b, App(b.slave)));
    SecondStays(t, allowed, run, r, b, a, w);
  }

  lemma DivideInside(t: Tree, allowed: iset<Copy>, r: nat, a: Copy, b: Copy) returns (run: seq<Label>)
    requires WellFormed(t) && |t.parent| > 1 && r < N_REGIONS && a in allowed && b in allowed && Tied(t, r, a, b)
    requires a.org == b.org && a.slave != b.slave
    ensures Legal(t, allowed, run) && AtRest(t, allowed, run) && !SameBytes(t, allowed, run, r)
  {
    var start := CrossedPushes(t, allowed, r, a, b);
    run := ComesToRest(t, allowed, start, 1);
    assert run[..4] == start;
    MadeByBoth(t, r, a, b, start, run);
    LogsGrow(t, allowed, run, 4, a.org);
    var w := SomeNeighbour(t, a.org);
    DividedInside(t, allowed, r, a, b, run, w);
    assert IsNode(t, a.org) && IsNode(t, w);
  }

  /**
   * On a tree of at least two clipboards the bytes of a region converge in every run if and only if
   * the copies the applications may make are tie-free there.
   */
  lemma BytesConvergeIffTieFree(t: Tree, allowed: iset<Copy>, r: nat)
    requires WellFormed(t) && |t.parent| > 1 && r < N_REGIONS
    ensures BytesConverge(t, allowed, r) <==> TieFree(t, allowed, r)
  {
    if TieFree(t, allowed, r) {
      forall run | Legal(t, allowed, run) && AtRest(t, allowed, run)
        ensures SameBytes(t, allowed, run, r)
      {
        forall u: nat, v: nat | IsNode(t, u) && IsNode(t, v)
          ensures After(t, allowed, run).nodes[u].mem[r].data == After(t, allowed, run).nodes[v].mem[r].data
        {
          TieFreeRunAgrees(t, allowed, run, r, u, v);
        }
      }
    } else {
      var a, b :| a in allowed && b in allowed && Tied(t, r, a, b) && !(a.org == b.org && a.slave == b.slave);
      var run: seq<Label>;
      if a.org != b.org {
        run := DivideAcross(t, allowed, r, a, b);
      } else {
        run := DivideInside(t, allowed, r, a, b);
      }
      assert !SameBytes(t, allowed, run, r);
    }
  }
}
