/** Every step of the flood protocol keeps the invariant: one lemma for each of its conjuncts. */
module FloodSteps {
  import opened Topology
  import opened Clmem
  import opened Replication
  import opened FloodInvariant

  lemma InitInv(t: Tree)
    requires WellFormed(t)
    ensures Inv(t, Init(t))
  {
    assert Offers([]) == [];
  }

  /** The node whose state a step changes. */
  function Actor(l: Label): nat {
    if l.Deliver? then l.v else l.u
  }

  /** A step changes one node, and the links only when it sends or delivers. */
  lemma StepFrame(t: Tree, s: State, l: Label)
    requires Enabled(t, s, l)
    ensures var s' := Apply(t, s, l);
            && Actor(l) < |s.nodes| == |s'.nodes|
            && s'.nodes == s.nodes[Actor(l) := s'.nodes[Actor(l)]]
            && (!l.Send? && !l.Deliver? ==> s'.chan == s.chan)
  {
  }

  // ----- The packet an offer step offers -----

  predicate IsOffer(l: Label) {
    l.Copying? || l.Deliver?
  }

  ghost function OfferedItem(s: State, l: Label): Item
    requires IsOffer(l) && (l.Deliver? ==> Chan(s, l.u, l.v) != [])
  {
    if l.Copying? then Item(l.c, App(l.c.slave)) else Item(Chan(s, l.u, l.v)[0], Link(l.u))
  }

  lemma StepOffers(t: Tree, s: State, l: Label)
    requires Enabled(t, s, l)
    ensures var n, n' := s.nodes[Actor(l)], Apply(t, s, l).nodes[Actor(l)];
            if IsOffer(l) then
              && OfferedItem(s, l).from !in n.pend
              && n' == OfferTo(n, OfferedItem(s, l).c, OfferedItem(s, l).from)
            else n'.offered == n.offered && n'.mem == n.mem
  {
  }

  /** What an offer step offers is new to the node, well directed, and caused by its origin. */
  ghost predicate OfferIsNew(t: Tree, s: State, l: Label)
    requires WellFormed(t) && Enabled(t, s, l) && IsOffer(l)
  {
    && Directed(t, Actor(l), OfferedItem(s, l))
    && Caused(s, OfferedItem(s, l))
    && forall it :: it in s.nodes[Actor(l)].offered ==> it.c != OfferedItem(s, l).c
  }

  lemma RepeatedHead(sent: seq<Copy>, got: seq<Copy>, chan: seq<Copy>, rest: seq<Copy>)
    requires sent == got + chan + rest && chan != [] && chan[0] in got
    ensures !NoRepeat(sent)
  {
    var i :| 0 <= i < |got| && got[i] == chan[0];
    assert sent[i] == sent[|got|];
  }

  /** The head of a link has not been got yet. */
  lemma HeadIsNew(t: Tree, s: State, u: nat, v: nat)
    requires Inv(t, s) && Adj(t, u, v) && Chan(s, u, v) != []
    ensures Chan(s, u, v)[0] !in Got(s, u, v)
  {
    SentNoRepeat(t, s, u, v);
    assert EdgeConserved(s, u, v);
    Regroup(Got(s, u, v) + Chan(s, u, v), InHand(s.nodes[u].bc, v), Sel(NotFrom(v), s.nodes[u].queue));
    if Chan(s, u, v)[0] in Got(s, u, v) {
      RepeatedHead(Sent(s, u, v), Got(s, u, v), Chan(s, u, v),
                   InHand(s.nodes[u].bc, v) + Sel(NotFrom(v), s.nodes[u].queue));
    }
  }

  /** A copy at the head of a link was not offered at the link's end before. */
  lemma HeadNotGot(t: Tree, s: State, u: nat, v: nat, it: Item)
    requires Inv(t, s) && Adj(t, u, v) && Chan(s, u, v) != []
    requires it in s.nodes[v].offered && it.c == Chan(s, u, v)[0]
    ensures it.from != Link(u)
  {
    HeadIsNew(t, s, u, v);
    SelMember(From(Link(u)), s.nodes[v].offered, it.c);
  }

  lemma DeliverIsNew(t: Tree, s: State, l: Label)
    requires Inv(t, s) && Enabled(t, s, l) && l.Deliver?
    ensures OfferIsNew(t, s, l)
  {
    var Deliver(u, v) := l;
    var c := Chan(s, u, v)[0];
    ChanWasSent(t, s, u, v, c);
    var at := SentWasPushed(t, s, u, v, c);
    PushedWasAccepted(t, s, u, at);
    assert Directed(t, u, at) && Caused(s, at);
    forall it | it in s.nodes[v].offered
      ensures it.c != c
    {
      assert Directed(t, v, it);
      if it.c == c {
        HeadNotGot(t, s, u, v, it);
      }
    }
  }

  lemma CopyingIsNew(t: Tree, s: State, l: Label)
    requires Inv(t, s) && Enabled(t, s, l) && l.Copying?
    ensures OfferIsNew(t, s, l)
  {
    forall it | it in s.nodes[l.u].offered
      ensures it.c != l.c
    {
      assert Directed(t, l.u, it);
    }
  }

  // ----- Conjunct by conjunct -----

  lemma OfferShape(t: Tree, u: nat, n: Node, it: Item)
    requires NodeShape(t, u, n) && (it.from.Link? ==> Adj(t, u, it.from.peer))
    ensures NodeShape(t, u, OfferTo(n, it.c, it.from))
  {
    AcceptedAppend(n.offered, it);
  }

  lemma ShapeKept(t: Tree, s: State, l: Label)
    requires Shape(t, s) && Enabled(t, s, l)
    ensures Shape(t, Apply(t, s, l))
  {
    var s' := Apply(t, s, l);
    StepFrame(t, s, l);
    var a := Actor(l);
    assert NodeShape(t, a, s.nodes[a]);
    assert NodeShape(t, a, s'.nodes[a]) by {
      if IsOffer(l) {
        StepOffers(t, s, l);
        OfferShape(t, a, s.nodes[a], OfferedItem(s, l));
      }
    }
    forall u | 0 <= u < |s'.nodes| && u != a
      ensures NodeShape(t, u, s'.nodes[u])
    {
      assert NodeShape(t, u, s.nodes[u]);
    }
  }

  lemma OfferSel(n: Node, it: Item, g: Source)
    requires n.mem == Fold(Offers(n.offered))
    ensures Sel(From(g), Accepted(n.offered + [it])) ==
            Sel(From(g), Accepted(n.offered)) +
            if Admits(n.mem, ToOffer(it.c)) && it.from == g then [it.c] else []
  {
    AcceptedAppend(n.offered, it);
    if Admits(n.mem, ToOffer(it.c)) {
      SelAppend(From(g), Accepted(n.offered), it);
    } else {
      assert Accepted(n.offered + [it]) == Accepted(n.offered);
    }
  }

  lemma OfferHeld(n: Node, it: Item, g: Source)
    requires it.from !in n.pend
    ensures Held(OfferTo(n, it.c, it.from), g) ==
            Held(n, g) + if Admits(n.mem, ToOffer(it.c)) && it.from == g then [it.c] else []
  {
    var n' := OfferTo(n, it.c, it.from);
    if Admits(n.mem, ToOffer(it.c)) {
      assert n'.pend == n.pend[it.from := it.c];
    } else {
      assert n'.pend == n.pend;
    }
  }

  lemma OfferSlave(n: Node, it: Item, g: Source)
    requires SlaveInStep(n, g) && it.from !in n.pend
    requires n.mem == Fold(Offers(n.offered))
    ensures SlaveInStep(OfferTo(n, it.c, it.from), g)
  {
    OfferSel(n, it, g);
    OfferHeld(n, it, g);
    Regroup(Sel(From(g), n.pushed), Held(n, g),
            if Admits(n.mem, ToOffer(it.c)) && it.from == g then [it.c] else []);
  }

  lemma PushSlave(n: Node, f: Source, g: Source)
    requires SlaveInStep(n, g) && f in n.pend
    ensures SlaveInStep(PushFrom(n, f), g)
  {
    SelAppend(From(g), n.pushed, Item(n.pend[f], f));
  }

  lemma SlaveKept(t: Tree, s: State, l: Label, g: Source)
    requires Enabled(t, s, l) && SlaveInStep(s.nodes[Actor(l)], g)
    requires NodeShape(t, Actor(l), s.nodes[Actor(l)])
    ensures SlaveInStep(Apply(t, s, l).nodes[Actor(l)], g)
  {
    var n := s.nodes[Actor(l)];
    if IsOffer(l) {
      StepOffers(t, s, l);
      OfferSlave(n, OfferedItem(s, l), g);
    } else if l.Push? {
      PushSlave(n, l.f, g);
    }
  }

  lemma SlavesKept(t: Tree, s: State, l: Label)
    requires Shape(t, s) && SlavesInStep(s) && Enabled(t, s, l)
    ensures SlavesInStep(Apply(t, s, l))
  {
    var s' := Apply(t, s, l);
    StepFrame(t, s, l);
    forall u, g | 0 <= u < |s'.nodes|
      ensures SlaveInStep(s'.nodes[u], g)
    {
      assert SlaveInStep(s.nodes[u], g);
      if u == Actor(l) {
        SlaveKept(t, s, l, g);
      }
    }
  }

  lemma DirectedKept(t: Tree, s: State, l: Label)
    requires Shape(t, s) && AllDirected(t, s) && Enabled(t, s, l)
    requires Shape(t, Apply(t, s, l))
    requires IsOffer(l) ==> OfferIsNew(t, s, l)
    ensures AllDirected(t, Apply(t, s, l))
  {
    var s' := Apply(t, s, l);
    StepFrame(t, s, l);
    StepOffers(t, s, l);
    forall u, it | 0 <= u < |s'.nodes| && it in s'.nodes[u].offered
      ensures Directed(t, u, it)
    {
      if it in s.nodes[u].offered {
        assert Directed(t, u, it);
      }
    }
  }

  lemma AcceptedGrows(t: Tree, s: State, l: Label, u: nat, it: Item)
    requires Enabled(t, s, l) && u < |s.nodes| && it in Accepted(s.nodes[u].offered)
    ensures it in Accepted(Apply(t, s, l).nodes[u].offered)
  {
    StepFrame(t, s, l);
    StepOffers(t, s, l);
    if u == Actor(l) && IsOffer(l) {
      AcceptedAppend(s.nodes[u].offered, OfferedItem(s, l));
    }
  }

  lemma CausedKept(t: Tree, s: State, l: Label, it: Item)
    requires Enabled(t, s, l) && Caused(s, it)
    ensures Caused(Apply(t, s, l), it)
  {
    StepFrame(t, s, l);
    if it.from.Link? {
      AcceptedGrows(t, s, l, it.c.org, Item(it.c, App(it.c.slave)));
    }
  }

  lemma AllCausedKept(t: Tree, s: State, l: Label)
    requires WellFormed(t) && AllCaused(s) && Enabled(t, s, l)
    requires IsOffer(l) ==> OfferIsNew(t, s, l)
    ensures AllCaused(Apply(t, s, l))
  {
    var s' := Apply(t, s, l);
    StepFrame(t, s, l);
    StepOffers(t, s, l);
    forall u, it | 0 <= u < |s'.nodes| && it in s'.nodes[u].offered
      ensures Caused(s', it)
    {
      assert Caused(s, it);
      CausedKept(t, s, l, it);
    }
  }

  lemma OnceKept(t: Tree, s: State, l: Label, u: nat)
    requires WellFormed(t) && Enabled(t, s, l) && u < |s.nodes| && OfferedOnce(s.nodes[u])
    requires IsOffer(l) ==> OfferIsNew(t, s, l)
    ensures OfferedOnce(Apply(t, s, l).nodes[u])
  {
    StepFrame(t, s, l);
    StepOffers(t, s, l);
  }

  // ----- The conservation law of one link -----

  lemma PushEdge(n: Node, f: Source, y: nat, before: seq<Copy>)
    requires f in n.pend && Sel(NotFrom(y), n.pushed) == before + Sel(NotFrom(y), n.queue)
    ensures Sel(NotFrom(y), PushFrom(n, f).pushed) == before + Sel(NotFrom(y), PushFrom(n, f).queue)
  {
    SelAppend(NotFrom(y), n.pushed, Item(n.pend[f], f));
    SelAppend(NotFrom(y), n.queue, Item(n.pend[f], f));
  }

  lemma OfferEdge(n: Node, it: Item, x: nat)
    ensures Sel(From(Link(x)), OfferTo(n, it.c, it.from).offered) ==
            Sel(From(Link(x)), n.offered) + if it.from == Link(x) then [it.c] else []
  {
    SelAppend(From(Link(x)), n.offered, it);
  }

  lemma EdgeKeptByCopying(t: Tree, s: State, l: Label, x: nat, y: nat)
    requires Enabled(t, s, l) && l.Copying? && Adj(t, x, y) && EdgeConserved(s, x, y)
    ensures EdgeConserved(Apply(t, s, l), x, y)
  {
    var s' := Apply(t, s, l);
    StepFrame(t, s, l);
    if y == l.u {
      OfferEdge(s.nodes[y], Item(l.c, App(l.c.slave)), x);
    }
    assert Got(s', x, y) == Got(s, x, y);
    assert Sent(s', x, y) == Sent(s, x, y);
  }

  lemma DeliverHere(t: Tree, s: State, x: nat, y: nat)
    requires Enabled(t, s, Deliver(x, y)) && EdgeConserved(s, x, y)
    ensures EdgeConserved(Apply(t, s, Deliver(x, y)), x, y)
  {
    var s' := Apply(t, s, Deliver(x, y));
    var c := Chan(s, x, y)[0];
    OfferEdge(s.nodes[y], Item(c, Link(x)), x);
    MoveHead(Got(s, x, y), Chan(s, x, y), InHand(s.nodes[x].bc, y), Sel(NotFrom(y), s.nodes[x].queue));
    StepFrame(t, s, Deliver(x, y));
    assert Got(s', x, y) == Got(s, x, y) + [c];
  }

  lemma MoveHead(got: seq<Copy>, chan: seq<Copy>, a: seq<Copy>, b: seq<Copy>)
    requires chan != []
    ensures got + chan + a + b == (got + [chan[0]]) + chan[1..] + a + b
  {
  }

  lemma DeliverElsewhere(t: Tree, s: State, l: Label, x: nat, y: nat)
    requires Enabled(t, s, l) && l.Deliver? && l != Deliver(x, y) && Adj(t, x, y)
    ensures var s' := Apply(t, s, l);
            && Got(s', x, y) == Got(s, x, y)
            && Chan(s', x, y) == Chan(s, x, y)
  {
    if y == l.v {
      OfferEdge(s.nodes[y], Item(Chan(s, l.u, l.v)[0], Link(l.u)), x);
    }
  }

  lemma EdgeKeptByDeliver(t: Tree, s: State, l: Label, x: nat, y: nat)
    requires Enabled(t, s, l) && l.Deliver? && Adj(t, x, y) && EdgeConserved(s, x, y)
    ensures EdgeConserved(Apply(t, s, l), x, y)
  {
    if l == Deliver(x, y) {
      DeliverHere(t, s, x, y);
    } else {
      DeliverElsewhere(t, s, l, x, y);
    }
  }

  lemma EdgeKeptByPush(t: Tree, s: State, l: Label, x: nat, y: nat)
    requires Enabled(t, s, l) && l.Push? && Adj(t, x, y) && EdgeConserved(s, x, y)
    ensures EdgeConserved(Apply(t, s, l), x, y)
  {
    if x == l.u {
      PushEdge(s.nodes[x], l.f, y, Got(s, x, y) + Chan(s, x, y) + InHand(s.nodes[x].bc, y));
    }
  }

  lemma PopHead(q: seq<Item>, todo: set<nat>, y: nat)
    requires q != [] && (y in todo <==> q[0].from != Link(y))
    ensures InHand(Busy(q[0], todo), y) + Sel(NotFrom(y), q[1..]) == Sel(NotFrom(y), q)
  {
    SelHead(NotFrom(y), q);
  }

  lemma PopFrame(t: Tree, s: State, l: Label, x: nat, y: nat)
    requires Enabled(t, s, l) && l.Pop? && Adj(t, x, y)
    ensures var s' := Apply(t, s, l);
            && |s'.nodes| == |s.nodes|
            && Sent(s', x, y) == Sent(s, x, y) && Got(s', x, y) == Got(s, x, y) && Chan(s', x, y) == Chan(s, x, y)
            && (x != l.u ==> s'.nodes[x] == s.nodes[x])
  {
  }

  lemma EdgeKeptByPop(t: Tree, s: State, l: Label, x: nat, y: nat)
    requires Enabled(t, s, l) && l.Pop? && Adj(t, x, y) && EdgeConserved(s, x, y)
    ensures EdgeConserved(Apply(t, s, l), x, y)
  {
    PopFrame(t, s, l, x, y);
    if x == l.u {
      var q, bc := s.nodes[x].queue, Apply(t, s, l).nodes[x].bc;
      assert y in bc.todo <==> q[0].from != Link(y);
      PopHead(q, bc.todo, y);
      assert InHand(s.nodes[x].bc, y) == [];
      NothingBetween(Got(s, x, y) + Chan(s, x, y), Sel(NotFrom(y), q));
      Regroup(Got(s, x, y) + Chan(s, x, y), InHand(bc, y), Sel(NotFrom(y), q[1..]));
    }
  }

  lemma NothingBetween(a: seq<Copy>, b: seq<Copy>)
    ensures a + [] + b == a + b
  {
  }

  lemma SendKeepsLogs(t: Tree, s: State, l: Label, x: nat, y: nat)
    requires Enabled(t, s, l) && (l.Send? || l.Done?) && Adj(t, x, y)
    ensures var s' := Apply(t, s, l);
            && |s'.nodes| == |s.nodes|
            && s'.nodes[x].pushed == s.nodes[x].pushed && s'.nodes[x].queue == s.nodes[x].queue
            && s'.nodes[y].offered == s.nodes[y].offered
  {
    StepFrame(t, s, l);
  }

  lemma SendMoves(t: Tree, s: State, l: Label, x: nat, y: nat)
    requires Enabled(t, s, l) && (l.Send? || l.Done?) && Adj(t, x, y)
    ensures var s' := Apply(t, s, l);
            Chan(s', x, y) + InHand(s'.nodes[x].bc, y) == Chan(s, x, y) + InHand(s.nodes[x].bc, y)
  {
  }

  lemma EdgeKeptBySend(t: Tree, s: State, l: Label, x: nat, y: nat)
    requires Enabled(t, s, l) && (l.Send? || l.Done?) && Adj(t, x, y) && EdgeConserved(s, x, y)
    ensures EdgeConserved(Apply(t, s, l), x, y)
  {
    var s' := Apply(t, s, l);
    SendKeepsLogs(t, s, l, x, y);
    SendMoves(t, s, l, x, y);
    Regroup(Got(s, x, y), Chan(s, x, y), InHand(s.nodes[x].bc, y));
    Regroup(Got(s, x, y), Chan(s', x, y), InHand(s'.nodes[x].bc, y));
  }

  lemma Regroup(a: seq<Copy>, b: seq<Copy>, c: seq<Copy>)
    ensures a + b + c == a + (b + c)
  {
  }

  lemma ConservedKept(t: Tree, s: State, l: Label)
    requires |s.nodes| == |t.parent| && Conserved(t, s) && Enabled(t, s, l)
    ensures |Apply(t, s, l).nodes| == |t.parent| && Conserved(t, Apply(t, s, l))
  {
    StepFrame(t, s, l);
    forall x, y | Adj(t, x, y)
      ensures EdgeConserved(Apply(t, s, l), x, y)
    {
      assert EdgeConserved(s, x, y);
      if l.Copying? {
        EdgeKeptByCopying(t, s, l, x, y);
      } else if l.Deliver? {
        EdgeKeptByDeliver(t, s, l, x, y);
      } else if l.Push? {
        EdgeKeptByPush(t, s, l, x, y);
      } else if l.Pop? {
        EdgeKeptByPop(t, s, l, x, y);
      } else {
        EdgeKeptBySend(t, s, l, x, y);
      }
    }
  }

  lemma StepKeeps(t: Tree, s: State, l: Label)
    requires Inv(t, s) && Enabled(t, s, l)
    ensures Inv(t, Apply(t, s, l))
  {
    if l.Copying? {
      CopyingIsNew(t, s, l);
    } else if l.Deliver? {
      DeliverIsNew(t, s, l);
    }
    ShapeKept(t, s, l);
    ConservedKept(t, s, l);
    SlavesKept(t, s, l);
    DirectedKept(t, s, l);
    AllCausedKept(t, s, l);
    forall u | 0 <= u < |s.nodes|
      ensures OfferedOnce(Apply(t, s, l).nodes[u])
    {
      OnceKept(t, s, l, u);
    }
  }

  /** Every reachable state satisfies the invariant. */
  lemma {:induction false} Reachable(t: Tree, allowed: iset<Copy>, run: seq<Label>)
    requires WellFormed(t) && Legal(t, allowed, run)
    ensures Inv(t, After(t, allowed, run))
  {
    if run == [] {
      InitInv(t);
    } else {
      Reachable(t, allowed, run[..|run| - 1]);
      StepKeeps(t, After(t, allowed, run[..|run| - 1]), run[|run| - 1]);
    }
  }
}
