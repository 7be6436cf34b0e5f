/**
 * Order: the copies of one slave reach every memory in the order in which that slave made them, as
 * long as nobody else's copies to the region carry a stamp as large as theirs.
 */
module WriterOrder {
  import opened Topology
  import opened Clmem
  import opened Replication
  import opened FloodInvariant
  import opened FloodSteps
  import opened Convergence

  /** The copies to region `r` with a stamp of at least `lo`; slave `a` of clipboard `o` writes them all. */
  datatype Writer = Writer(r: nat, lo: nat, o: nat, a: nat)

  ghost predicate Strong(w: Writer, c: Copy) {
    Concerns(c, w.r) && c.stamp >= w.lo
  }

  ghost predicate SoleWriter(w: Writer, allowed: iset<Copy>) {
    forall c :: c in allowed && Strong(w, c) ==> c.org == w.o && c.slave == w.a
  }

  ghost function StrongOnly(w: Writer, cs: seq<Copy>): seq<Copy> {
    if cs == [] then []
    else StrongOnly(w, cs[..|cs| - 1]) + if Strong(w, cs[|cs| - 1]) then [cs[|cs| - 1]] else []
  }

  lemma StrongAppend(w: Writer, cs: seq<Copy>, c: Copy)
    ensures StrongOnly(w, cs + [c]) == StrongOnly(w, cs) + if Strong(w, c) then [c] else []
  {
    assert (cs + [c])[..|cs|] == cs;
  }

  lemma {:induction false} StrongConcat(w: Writer, a: seq<Copy>, b: seq<Copy>)
    ensures StrongOnly(w, a + b) == StrongOnly(w, a) + StrongOnly(w, b)
  {
    if b == [] {
      assert a + b == a;
    } else {
      var m, last := b[..|b| - 1], b[|b| - 1];
      StrongConcat(w, a, m);
      assert a + b == (a + m) + [last];
      StrongAppend(w, a + m, last);
    }
  }

  lemma StrongPrefix(w: Writer, a: seq<Copy>, b: seq<Copy>)
    requires a <= b
    ensures StrongOnly(w, a) <= StrongOnly(w, b)
  {
    assert b == a + b[|a|..];
    StrongConcat(w, a, b[|a|..]);
  }

  ghost function Copies(s: seq<Item>): seq<Copy> {
    seq(|s|, i requires 0 <= i < |s| => s[i].c)
  }

  /** The strong copies a memory accepted, in order. */
  ghost function History(w: Writer, n: Node): seq<Copy> {
    StrongOnly(w, Copies(Accepted(n.offered)))
  }

  /** Selecting first changes nothing when every strong item is selected. */
  lemma {:induction false} SelKeepsStrong(w: Writer, k: Pick, s: seq<Item>)
    requires forall it :: it in s && Strong(w, it.c) ==> Picks(k, it)
    ensures StrongOnly(w, Sel(k, s)) == StrongOnly(w, Copies(s))
  {
    if s != [] {
      var m, last := s[..|s| - 1], s[|s| - 1];
      SelKeepsStrong(w, k, m);
      assert Copies(s) == Copies(m) + [last.c];
      StrongAppend(w, Copies(m), last.c);
      if Picks(k, last) {
        assert Sel(k, s) == Sel(k, m) + [last.c];
        StrongAppend(w, Sel(k, m), last.c);
      } else {
        assert Sel(k, s) == Sel(k, m);
      }
    }
  }

  // ----- Histories carry ascending stamps and end with the copy the region holds -----

  ghost predicate Ascending(cs: seq<Copy>) {
    forall i, j :: 0 <= i <= j < |cs| ==> cs[i].stamp <= cs[j].stamp
  }

  lemma HistoryAppend(w: Writer, n: Node, it: Item)
    requires n.mem == Fold(Offers(n.offered))
    ensures History(w, OfferTo(n, it.c, it.from)) ==
            History(w, n) + if Admits(n.mem, ToOffer(it.c)) && Strong(w, it.c) then [it.c] else []
  {
    AcceptedAppend(n.offered, it);
    var acc := Accepted(n.offered);
    if Admits(n.mem, ToOffer(it.c)) {
      assert Copies(acc + [it]) == Copies(acc) + [it.c];
      StrongAppend(w, Copies(acc), it.c);
    } else {
      assert Accepted(n.offered + [it]) == acc;
    }
  }

  /** The region holds the last strong copy accepted, if there is one. */
  ghost predicate HoldsLast(w: Writer, h: seq<Copy>, z: Zone) {
    h != [] ==> z == PutZone(h[|h| - 1].data, h[|h| - 1].stamp) && z.stamp >= w.lo
  }

  ghost function LogNode(s: seq<Item>): Node {
    EMPTY_NODE.(mem := Fold(Offers(s)), offered := s)
  }

  lemma {:induction false} HistoryShape(w: Writer, s: seq<Item>)
    requires w.r < N_REGIONS
    ensures Ascending(History(w, LogNode(s))) && HoldsLast(w, History(w, LogNode(s)), Fold(Offers(s))[w.r])
  {
    if s != [] {
      var m, it := s[..|s| - 1], s[|s| - 1];
      assert s == m + [it];
      HistoryShape(w, m);
      var n := LogNode(m);
      AcceptedAppend(m, it);
      HistoryAppend(w, n, it);
      assert OfferTo(n, it.c, it.from).offered == s;
      assert History(w, OfferTo(n, it.c, it.from)) == History(w, LogNode(s));
      HistoryShapeStep(w, History(w, n), n.mem, it.c);
    }
  }

  lemma HistoryShapeStep(w: Writer, h: seq<Copy>, zs: Zones, c: Copy)
    requires w.r < N_REGIONS && Ascending(h) && HoldsLast(w, h, zs[w.r])
    ensures var h' := h + if Admits(zs, ToOffer(c)) && Strong(w, c) then [c] else [];
            Ascending(h') && HoldsLast(w, h', PutAll(zs, ToOffer(c))[w.r])
  {
  }

  // ----- The order invariant -----

  /** The slave through which strong copies come in at `u`. */
  ghost function Inlet(t: Tree, w: Writer, u: nat): Source
    requires WellFormed(t) && IsNode(t, u) && IsNode(t, w.o)
  {
    if u == w.o then App(w.a) else Link(Toward(t, u, w.o))
  }

  ghost predicate InletOnly(t: Tree, w: Writer, u: nat, n: Node)
    requires WellFormed(t) && IsNode(t, u) && IsNode(t, w.o)
  {
    forall it :: it in n.offered && Strong(w, it.c) ==> it.from == Inlet(t, w, u)
  }

  /** Away from the writer no strong copy is ever refused. */
  ghost predicate AllTaken(w: Writer, n: Node) {
    StrongOnly(w, Copies(n.offered)) == History(w, n)
  }

  ghost predicate Ordered(t: Tree, w: Writer, s: State)
    requires IsNode(t, w.o) && |s.nodes| == |t.parent|
  {
    forall u :: 0 <= u < |s.nodes| ==>
      && History(w, s.nodes[u]) <= History(w, s.nodes[w.o])
      && (u != w.o ==> AllTaken(w, s.nodes[u]))
  }

  ghost predicate StrongFromWriter(w: Writer, s: State) {
    forall u, it :: 0 <= u < |s.nodes| && it in s.nodes[u].offered && Strong(w, it.c) ==>
                      it.c.org == w.o && it.c.slave == w.a
  }

  lemma InletFromDirection(t: Tree, w: Writer, s: State, u: nat)
    requires Inv(t, s) && IsNode(t, w.o) && StrongFromWriter(w, s) && u < |s.nodes|
    ensures InletOnly(t, w, u, s.nodes[u])
  {
    forall it | it in s.nodes[u].offered && Strong(w, it.c)
      ensures it.from == Inlet(t, w, u)
    {
      assert Directed(t, u, it);
    }
  }

  lemma StrongStaysFromWriter(t: Tree, w: Writer, allowed: iset<Copy>, run: seq<Label>)
    requires WellFormed(t) && Legal(t, allowed, run) && SoleWriter(w, allowed)
    ensures StrongFromWriter(w, After(t, allowed, run))
  {
    var s := After(t, allowed, run);
    Reachable(t, allowed, run);
    forall u, it | 0 <= u < |s.nodes| && it in s.nodes[u].offered && Strong(w, it.c)
      ensures it.c.org == w.o && it.c.slave == w.a
    {
      OfferedEntered(t, s, u, it);
      MadeIffEntered(t, allowed, run, it.c);
    }
  }

  lemma AcceptedInlet(t: Tree, w: Writer, s: State, u: nat)
    requires Inv(t, s) && IsNode(t, w.o) && u < |s.nodes| && InletOnly(t, w, u, s.nodes[u])
    ensures StrongOnly(w, Sel(From(Inlet(t, w, u)), Accepted(s.nodes[u].offered))) == History(w, s.nodes[u])
  {
    var n := s.nodes[u];
    forall it | it in Accepted(n.offered) && Strong(w, it.c)
      ensures it.from == Inlet(t, w, u)
    {
      AcceptedSubset(n.offered, it);
    }
    SelKeepsStrong(w, From(Inlet(t, w, u)), Accepted(n.offered));
  }

  /** Going away from the writer, the strong copies sent on are the ones pushed by the inlet's slave. */
  lemma SentIsInletPushed(t: Tree, w: Writer, s: State, u: nat, v: nat)
    requires Inv(t, s) && IsNode(t, w.o) && Adj(t, u, v) && InletOnly(t, w, u, s.nodes[u])
    requires v != w.o && Toward(t, v, w.o) == u
    ensures StrongOnly(w, Sent(s, u, v)) == StrongOnly(w, Sel(From(Inlet(t, w, u)), s.nodes[u].pushed))
  {
    var n := s.nodes[u];
    forall it | it in n.pushed && Strong(w, it.c)
      ensures it.from == Inlet(t, w, u) && it.from != Link(v)
    {
      PushedWasAccepted(t, s, u, it);
      if u != w.o {
        NotBothWays(t, u, v, w.o);
      }
    }
    SelKeepsStrong(w, NotFrom(v), n.pushed);
    SelKeepsStrong(w, From(Inlet(t, w, u)), n.pushed);
  }

  lemma GotIsHistory(t: Tree, w: Writer, s: State, u: nat, v: nat)
    requires Inv(t, s) && IsNode(t, w.o) && Adj(t, u, v) && InletOnly(t, w, v, s.nodes[v])
    requires v != w.o && Toward(t, v, w.o) == u && AllTaken(w, s.nodes[v])
    ensures StrongOnly(w, Got(s, u, v)) == History(w, s.nodes[v])
  {
    SelKeepsStrong(w, From(Link(u)), s.nodes[v].offered);
  }

  /** What was sent on towards `v` is never ahead of the sender's own history. */
  lemma SentBehindHistory(t: Tree, w: Writer, s: State, u: nat, v: nat)
    requires Inv(t, s) && IsNode(t, w.o) && Adj(t, u, v) && InletOnly(t, w, u, s.nodes[u])
    requires v != w.o && Toward(t, v, w.o) == u
    ensures StrongOnly(w, Sent(s, u, v)) <= History(w, s.nodes[u])
  {
    SentIsInletPushed(t, w, s, u, v);
    AcceptedInlet(t, w, s, u);
    var f := Inlet(t, w, u);
    assert SlaveInStep(s.nodes[u], f);
    StrongPrefix(w, Sel(From(f), s.nodes[u].pushed), Sel(From(f), Accepted(s.nodes[u].offered)));
  }

  lemma StrongNext(w: Writer, got: seq<Copy>, chan: seq<Copy>, rest: seq<Copy>)
    requires chan != [] && Strong(w, chan[0])
    ensures StrongOnly(w, got) + [chan[0]] <= StrongOnly(w, got + chan + rest)
  {
    assert got + [chan[0]] <= got + chan + rest;
    StrongPrefix(w, got + [chan[0]], got + chan + rest);
    StrongAppend(w, got, chan[0]);
  }

  lemma StrongHeadNext(t: Tree, w: Writer, s: State, u: nat, v: nat)
    requires Inv(t, s) && Adj(t, u, v) && Chan(s, u, v) != [] && Strong(w, Chan(s, u, v)[0])
    ensures StrongOnly(w, Got(s, u, v)) + [Chan(s, u, v)[0]] <= StrongOnly(w, Sent(s, u, v))
  {
    assert EdgeConserved(s, u, v);
    var rest := InHand(s.nodes[u].bc, v) + Sel(NotFrom(v), s.nodes[u].queue);
    assert Sent(s, u, v) == Got(s, u, v) + Chan(s, u, v) + rest;
    StrongNext(w, Got(s, u, v), Chan(s, u, v), rest);
  }

  lemma StrongHeadDirection(t: Tree, w: Writer, s: State, u: nat, v: nat)
    requires Inv(t, s) && StrongFromWriter(w, s)
    requires Adj(t, u, v) && Chan(s, u, v) != [] && Strong(w, Chan(s, u, v)[0])
    ensures IsNode(t, w.o) && v != w.o && Toward(t, v, w.o) == u
  {
    var c := Chan(s, u, v)[0];
    ChanWasSent(t, s, u, v, c);
    var at := SentWasPushed(t, s, u, v, c);
    PushedWasAccepted(t, s, u, at);
  }

  /** The next strong copy a clipboard is offered is the next one of the writer's history. */
  lemma NextIsNext(t: Tree, w: Writer, s: State, u: nat, v: nat)
    requires Inv(t, s) && IsNode(t, w.o) && StrongFromWriter(w, s) && Ordered(t, w, s)
    requires Adj(t, u, v) && Chan(s, u, v) != [] && Strong(w, Chan(s, u, v)[0])
    ensures v != w.o && History(w, s.nodes[v]) + [Chan(s, u, v)[0]] <= History(w, s.nodes[w.o])
  {
    StrongHeadDirection(t, w, s, u, v);
    InletFromDirection(t, w, s, u);
    InletFromDirection(t, w, s, v);
    SentBehindHistory(t, w, s, u, v);
    GotIsHistory(t, w, s, u, v);
    StrongHeadNext(t, w, s, u, v);
  }

  /** A copy that continues an ascending history is taken. */
  lemma NextIsTaken(w: Writer, n: Node, h: seq<Copy>, c: Copy)
    requires w.r < N_REGIONS && n.mem == Fold(Offers(n.offered))
    requires Strong(w, c) && History(w, n) + [c] <= h && Ascending(h)
    ensures Admits(n.mem, ToOffer(c))
  {
    HistoryShape(w, n.offered);
    var mine := History(w, n);
    assert mine == History(w, LogNode(n.offered));
    if n.mem[w.r].data.Some? && n.mem[w.r].stamp > c.stamp {
      var it := HeldCopy(n.offered, w.r);
      assert Strong(w, it.c);
      HistoryHas(w, n, it);
      AheadIsLarger(mine, c, h, it.c);
    }
  }

  lemma AheadIsLarger(mine: seq<Copy>, c: Copy, h: seq<Copy>, d: Copy)
    requires mine + [c] <= h && Ascending(h) && d in mine
    ensures d.stamp <= c.stamp
  {
    var i :| 0 <= i < |mine| && mine[i] == d;
    assert h[i] == d && h[|mine|] == c;
  }

  lemma {:induction false} StrongMember(w: Writer, cs: seq<Copy>, c: Copy)
    ensures c in StrongOnly(w, cs) <==> c in cs && Strong(w, c)
  {
    if cs != [] {
      StrongMember(w, cs[..|cs| - 1], c);
      assert cs == cs[..|cs| - 1] + [cs[|cs| - 1]];
    }
  }

  lemma HistoryHas(w: Writer, n: Node, it: Item)
    requires it in Accepted(n.offered) && Strong(w, it.c)
    ensures it.c in History(w, n)
  {
    var acc := Accepted(n.offered);
    var i :| 0 <= i < |acc| && acc[i] == it;
    assert Copies(acc)[i] == it.c;
    StrongMember(w, Copies(acc), it.c);
  }

  // ----- Every step keeps the order -----

  lemma OfferHistory(w: Writer, n: Node, it: Item)
    requires n.mem == Fold(Offers(n.offered)) && it.from !in n.pend
    requires Strong(w, it.c) ==> Admits(n.mem, ToOffer(it.c))
    ensures var n' := OfferTo(n, it.c, it.from);
            && History(w, n') == History(w, n) + (if Strong(w, it.c) then [it.c] else [])
            && (AllTaken(w, n) ==> AllTaken(w, n'))
  {
    HistoryAppend(w, n, it);
    assert Copies(n.offered + [it]) == Copies(n.offered) + [it.c];
    StrongAppend(w, Copies(n.offered), it.c);
  }

  lemma HistoryGrows(w: Writer, n: Node, it: Item)
    requires n.mem == Fold(Offers(n.offered))
    ensures History(w, n) <= History(w, OfferTo(n, it.c, it.from))
  {
    HistoryAppend(w, n, it);
  }

  /** An offer at the writer's own clipboard extends the history everyone else follows. */
  lemma OrderedAfterWriter(t: Tree, w: Writer, s: State, l: Label)
    requires Shape(t, s) && Enabled(t, s, l) && IsOffer(l) && Actor(l) == w.o
    requires IsNode(t, w.o) && Ordered(t, w, s)
    ensures Ordered(t, w, Apply(t, s, l))
  {
    StepFrame(t, s, l);
    StepOffers(t, s, l);
    assert NodeShape(t, w.o, s.nodes[w.o]);
    HistoryGrows(w, s.nodes[w.o], OfferedItem(s, l));
    var s' := Apply(t, s, l);
    forall u | 0 <= u < |s'.nodes| && u != w.o
      ensures History(w, s'.nodes[u]) <= History(w, s'.nodes[w.o]) && AllTaken(w, s'.nodes[u])
    {
      assert History(w, s.nodes[u]) <= History(w, s.nodes[w.o]);
    }
  }

  /** An offer elsewhere extends that clipboard's history by the writer's next copy, or not at all. */
  lemma OrderedAfterOther(t: Tree, w: Writer, s: State, l: Label)
    requires Shape(t, s) && Enabled(t, s, l) && IsOffer(l) && Actor(l) != w.o
    requires IsNode(t, w.o) && Ordered(t, w, s)
    requires var n, c := s.nodes[Actor(l)], OfferedItem(s, l).c;
             Strong(w, c) ==> Admits(n.mem, ToOffer(c)) && History(w, n) + [c] <= History(w, s.nodes[w.o])
    ensures Ordered(t, w, Apply(t, s, l))
  {
    StepFrame(t, s, l);
    StepOffers(t, s, l);
    var a := Actor(l);
    assert NodeShape(t, a, s.nodes[a]);
    assert History(w, s.nodes[a]) <= History(w, s.nodes[w.o]) && AllTaken(w, s.nodes[a]);
    OfferHistory(w, s.nodes[a], OfferedItem(s, l));
  }

  lemma OrderedKept(t: Tree, w: Writer, s: State, l: Label)
    requires Inv(t, s) && Enabled(t, s, l) && IsNode(t, w.o) && w.r < N_REGIONS
    requires StrongFromWriter(w, s) && StrongFromWriter(w, Apply(t, s, l)) && Ordered(t, w, s)
    ensures Ordered(t, w, Apply(t, s, l))
  {
    StepFrame(t, s, l);
    StepOffers(t, s, l);
    if !IsOffer(l) {
      SameOffersOrdered(t, w, s, Apply(t, s, l));
    } else if Actor(l) == w.o {
      OrderedAfterWriter(t, w, s, l);
    } else {
      StrongArrives(t, w, s, l);
      OrderedAfterOther(t, w, s, l);
    }
  }

  lemma SameOffersOrdered(t: Tree, w: Writer, s: State, s': State)
    requires IsNode(t, w.o) && |s.nodes| == |s'.nodes| == |t.parent| && Ordered(t, w, s)
    requires forall u :: 0 <= u < |s.nodes| ==> s'.nodes[u].offered == s.nodes[u].offered
    ensures Ordered(t, w, s')
  {
    forall u | 0 <= u < |s'.nodes|
      ensures History(w, s'.nodes[u]) <= History(w, s'.nodes[w.o])
      ensures u != w.o ==> AllTaken(w, s'.nodes[u])
    {
      assert History(w, s.nodes[u]) <= History(w, s.nodes[w.o]);
    }
  }

  lemma StrongArrives(t: Tree, w: Writer, s: State, l: Label)
    requires Inv(t, s) && Enabled(t, s, l) && IsOffer(l) && Actor(l) != w.o
    requires IsNode(t, w.o) && w.r < N_REGIONS
    requires StrongFromWriter(w, s) && StrongFromWriter(w, Apply(t, s, l)) && Ordered(t, w, s)
    ensures var n, c := s.nodes[Actor(l)], OfferedItem(s, l).c;
            Strong(w, c) ==> Admits(n.mem, ToOffer(c)) && History(w, n) + [c] <= History(w, s.nodes[w.o])
  {
    var it := OfferedItem(s, l);
    if Strong(w, it.c) {
      StepOffers(t, s, l);
      assert it in Apply(t, s, l).nodes[Actor(l)].offered;
      assert it.c.org == w.o;
      StrongDelivered(t, w, s, l.u, l.v);
    }
  }

  lemma StrongDelivered(t: Tree, w: Writer, s: State, u: nat, v: nat)
    requires Inv(t, s) && IsNode(t, w.o) && w.r < N_REGIONS && StrongFromWriter(w, s) && Ordered(t, w, s)
    requires Adj(t, u, v) && Chan(s, u, v) != [] && Strong(w, Chan(s, u, v)[0])
    ensures Admits(s.nodes[v].mem, ToOffer(Chan(s, u, v)[0]))
    ensures History(w, s.nodes[v]) + [Chan(s, u, v)[0]] <= History(w, s.nodes[w.o])
  {
    NextIsNext(t, w, s, u, v);
    var o := s.nodes[w.o];
    HistoryShape(w, o.offered);
    assert History(w, o) == History(w, LogNode(o.offered));
    assert NodeShape(t, v, s.nodes[v]);
    NextIsTaken(w, s.nodes[v], History(w, o), Chan(s, u, v)[0]);
  }

  lemma {:induction false} AlwaysOrdered(t: Tree, w: Writer, allowed: iset<Copy>, run: seq<Label>)
    requires WellFormed(t) && Legal(t, allowed, run) && SoleWriter(w, allowed)
    requires IsNode(t, w.o) && w.r < N_REGIONS
    ensures |After(t, allowed, run).nodes| == |t.parent| && Ordered(t, w, After(t, allowed, run))
  {
    Reachable(t, allowed, run);
    if run == [] {
      InitOrdered(t, w);
    } else {
      var before := run[..|run| - 1];
      AlwaysOrdered(t, w, allowed, before);
      Reachable(t, allowed, before);
      StrongStaysFromWriter(t, w, allowed, before);
      StrongStaysFromWriter(t, w, allowed, run);
      OrderedKept(t, w, After(t, allowed, before), run[|run| - 1]);
    }
  }

  lemma InitOrdered(t: Tree, w: Writer)
    requires IsNode(t, w.o)
    ensures Ordered(t, w, Init(t))
  {
    assert Copies([]) == [];
  }

  // ----- At rest -----

  lemma RestHistoryEdge(t: Tree, w: Writer, s: State, u: nat, v: nat)
    requires Inv(t, s) && Quiescent(t, s) && IsNode(t, w.o) && StrongFromWriter(w, s) && Ordered(t, w, s)
    requires Adj(t, u, v) && v != w.o && Toward(t, v, w.o) == u
    ensures History(w, s.nodes[u]) == History(w, s.nodes[v])
  {
    InletFromDirection(t, w, s, u);
    InletFromDirection(t, w, s, v);
    GotIsHistory(t, w, s, u, v);
    RestEdge(t, s, u, v);
    SentIsInletPushed(t, w, s, u, v);
    RestSlave(t, s, u, Inlet(t, w, u));
    AcceptedInlet(t, w, s, u);
  }

  lemma {:induction false} RestHistoryRoot(t: Tree, w: Writer, s: State, u: nat)
    requires Inv(t, s) && Quiescent(t, s) && IsNode(t, w.o) && StrongFromWriter(w, s) && Ordered(t, w, s)
    requires u < |s.nodes|
    ensures History(w, s.nodes[u]) == History(w, s.nodes[0])
  {
    if u != 0 {
      var p := t.parent[u];
      RestHistoryRoot(t, w, s, p);
      assert Adj(t, u, p) && Adj(t, p, u);
      if u != w.o && Toward(t, u, w.o) == p {
        RestHistoryEdge(t, w, s, p, u);
      } else {
        AwayLeadsBack(t, u, p, w.o);
        RestHistoryEdge(t, w, s, u, p);
      }
    }
  }

  /**
   * Single-writer order: in every reachable state each clipboard has accepted a prefix of what the
   * writer's own clipboard accepted, in the same order however many stamps are equal, and all of it
   * once nothing is in flight.  With `lo` = 0 this is about all copies to the region.
   */
  lemma HistoriesAgree(t: Tree, w: Writer, allowed: iset<Copy>, run: seq<Label>, u: nat)
    requires WellFormed(t) && Legal(t, allowed, run) && SoleWriter(w, allowed)
    requires IsNode(t, w.o) && IsNode(t, u) && w.r < N_REGIONS
    ensures var s := After(t, allowed, run);
            && |s.nodes| == |t.parent|
            && History(w, s.nodes[u]) <= History(w, s.nodes[w.o])
            && (Quiescent(t, s) ==> History(w, s.nodes[u]) == History(w, s.nodes[w.o]))
  {
    var s := After(t, allowed, run);
    AlwaysOrdered(t, w, allowed, run);
    assert History(w, s.nodes[u]) <= History(w, s.nodes[w.o]);
    if Quiescent(t, s) {
      Reachable(t, allowed, run);
      StrongStaysFromWriter(t, w, allowed, run);
      RestHistoryRoot(t, w, s, u);
      RestHistoryRoot(t, w, s, w.o);
    }
  }
}
