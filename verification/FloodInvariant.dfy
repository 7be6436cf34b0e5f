/** What every reachable state of the flood protocol keeps. */
module FloodInvariant {
  import opened Topology
  import opened Clmem
  import opened Replication

  ghost predicate Shape(t: Tree, s: State) {
    && WellFormed(t)
    && |s.nodes| == |t.parent|
    && forall u :: 0 <= u < |s.nodes| ==> NodeShape(t, u, s.nodes[u])
  }

  ghost predicate NodeShape(t: Tree, u: nat, n: Node) {
    && n.mem == Fold(Offers(n.offered))
    && (n.bc.Busy? ==> forall v :: v in n.bc.todo ==> Adj(t, u, v))
    && (forall f :: f in n.pend && f.Link? ==> Adj(t, u, f.peer))
  }

  /** The packet the broadcaster holds, if it still has to send it to `v`. */
  ghost function InHand(bc: Broadcaster, v: nat): seq<Copy> {
    if bc.Busy? && v in bc.todo then [bc.item.c] else []
  }

  ghost function Held(n: Node, f: Source): seq<Copy> {
    if f in n.pend then [n.pend[f]] else []
  }

  /** What `u` pushed for `v`, and what `v` was offered by its slave for `u`. */
  ghost function Sent(s: State, u: nat, v: nat): seq<Copy>
    requires u < |s.nodes|
  {
    Sel(NotFrom(v), s.nodes[u].pushed)
  }

  ghost function Got(s: State, u: nat, v: nat): seq<Copy>
    requires v < |s.nodes|
  {
    Sel(From(Link(u)), s.nodes[v].offered)
  }

  /** Nothing is lost, invented, repeated or overtaken between a push at `u` and the offer at `v`. */
  ghost predicate EdgeConserved(s: State, u: nat, v: nat)
    requires u < |s.nodes| && v < |s.nodes|
  {
    Sent(s, u, v) ==
      Got(s, u, v) + Chan(s, u, v) + InHand(s.nodes[u].bc, v) + Sel(NotFrom(v), s.nodes[u].queue)
  }

  ghost predicate Conserved(t: Tree, s: State)
    requires |s.nodes| == |t.parent|
  {
    forall u, v :: Adj(t, u, v) ==> EdgeConserved(s, u, v)
  }

  /** Each slave pushes what it got accepted, in that order, at most one packet behind. */
  ghost predicate SlaveInStep(n: Node, f: Source) {
    Sel(From(f), Accepted(n.offered)) == Sel(From(f), n.pushed) + Held(n, f)
  }

  ghost predicate SlavesInStep(s: State) {
    forall u, f :: 0 <= u < |s.nodes| ==> SlaveInStep(s.nodes[u], f)
  }

  /** A copy enters at its origin and after that only ever comes from the direction of its origin. */
  ghost predicate Directed(t: Tree, u: nat, it: Item)
    requires WellFormed(t) && IsNode(t, u)
  {
    match it.from
    case App(a) => it.c.org == u && it.c.slave == a
    case Link(p) => IsNode(t, it.c.org) && it.c.org != u && p == Toward(t, u, it.c.org)
  }

  ghost predicate AllDirected(t: Tree, s: State)
    requires Shape(t, s)
  {
    forall u, it :: 0 <= u < |s.nodes| && it in s.nodes[u].offered ==> Directed(t, u, it)
  }

  /** No memory is offered the same copy twice. */
  ghost predicate OfferedOnce(n: Node) {
    forall i, j :: 0 <= i < j < |n.offered| ==> n.offered[i].c != n.offered[j].c
  }

  /** A copy that reached some clipboard over a link was accepted at its origin. */
  ghost predicate Caused(s: State, it: Item) {
    it.from.Link? ==> it.c.org < |s.nodes| && Item(it.c, App(it.c.slave)) in Accepted(s.nodes[it.c.org].offered)
  }

  ghost predicate AllCaused(s: State) {
    forall u, it :: 0 <= u < |s.nodes| && it in s.nodes[u].offered ==> Caused(s, it)
  }

  ghost predicate Inv(t: Tree, s: State) {
    && Shape(t, s)
    && Conserved(t, s)
    && SlavesInStep(s)
    && AllDirected(t, s)
    && AllCaused(s)
    && forall u :: 0 <= u < |s.nodes| ==> OfferedOnce(s.nodes[u])
  }

  // ----- Consequences of the invariant -----

  lemma PushedWasAccepted(t: Tree, s: State, u: nat, it: Item)
    requires Inv(t, s) && u < |s.nodes| && it in s.nodes[u].pushed
    ensures it in Accepted(s.nodes[u].offered) && it in s.nodes[u].offered
    ensures ValidOffer(ToOffer(it.c))
  {
    var n := s.nodes[u];
    SelMember(From(it.from), n.pushed, it.c);
    assert SlaveInStep(n, it.from);
    assert it.c in Sel(From(it.from), Accepted(n.offered));
    SelMember(From(it.from), Accepted(n.offered), it.c);
    AcceptedSubset(n.offered, it);
  }

  /** Whatever is between `u` and `v` was pushed at `u` and did not come from `v`. */
  lemma SentWasPushed(t: Tree, s: State, u: nat, v: nat, c: Copy) returns (it: Item)
    requires Inv(t, s) && Adj(t, u, v) && c in Sent(s, u, v)
    ensures it in s.nodes[u].pushed && it.c == c && it.from != Link(v)
    ensures it in Accepted(s.nodes[u].offered) && ValidOffer(ToOffer(c))
    ensures IsNode(t, c.org) && c.org != v && Toward(t, v, c.org) == u
  {
    SelMember(NotFrom(v), s.nodes[u].pushed, c);
    it :| it in s.nodes[u].pushed && it.c == c && Picks(NotFrom(v), it);
    PushedWasAccepted(t, s, u, it);
    assert Directed(t, u, it);
    AwayLeadsBack(t, u, v, c.org);
  }

  lemma ChanWasSent(t: Tree, s: State, u: nat, v: nat, c: Copy)
    requires Inv(t, s) && Adj(t, u, v)
    requires c in Chan(s, u, v) || c in InHand(s.nodes[u].bc, v)
    ensures c in Sent(s, u, v)
  {
    assert EdgeConserved(s, u, v);
  }

  // ----- A log without repetitions -----

  ghost predicate NoRepeat(s: seq<Copy>) {
    forall i, j :: 0 <= i < j < |s| ==> s[i] != s[j]
  }

  lemma {:induction false} SelNoRepeat(k: Pick, s: seq<Item>)
    requires forall i, j :: 0 <= i < j < |s| ==> s[i].c != s[j].c
    ensures NoRepeat(Sel(k, s))
  {
    if s != [] {
      var m, last := s[..|s| - 1], s[|s| - 1];
      SelNoRepeat(k, m);
      SelMember(k, m, last.c);
    }
  }

  lemma {:induction false} AcceptedNoRepeat(s: seq<Item>)
    requires forall i, j :: 0 <= i < j < |s| ==> s[i].c != s[j].c
    ensures forall i, j :: 0 <= i < j < |Accepted(s)| ==> Accepted(s)[i].c != Accepted(s)[j].c
  {
    if s != [] {
      var m, last := s[..|s| - 1], s[|s| - 1];
      AcceptedNoRepeat(m);
      forall it | it in Accepted(m)
        ensures it.c != last.c
      {
        AcceptedSubset(m, it);
        var i :| 0 <= i < |m| && m[i] == it;
        assert s[i] == it;
      }
    }
  }

  /** Everything on a link in one direction is a log without repetitions: no copy crosses it twice. */
  lemma SentNoRepeat(t: Tree, s: State, u: nat, v: nat)
    requires Inv(t, s) && Adj(t, u, v)
    ensures NoRepeat(Sent(s, u, v))
  {
    var n := s.nodes[u];
    assert OfferedOnce(n);
    AcceptedNoRepeat(n.offered);
    forall i, j | 0 <= i < j < |n.pushed|
      ensures n.pushed[i].c != n.pushed[j].c
    {
      PushedAtDistinct(t, s, u, i, j);
    }
    SelNoRepeat(NotFrom(v), n.pushed);
  }

  lemma PushedAtDistinct(t: Tree, s: State, u: nat, i: nat, j: nat)
    requires Inv(t, s) && u < |s.nodes| && i < j < |s.nodes[u].pushed|
    ensures s.nodes[u].pushed[i].c != s.nodes[u].pushed[j].c
  {
    var n := s.nodes[u];
    var a, b := n.pushed[i], n.pushed[j];
    PushedWasAccepted(t, s, u, a);
    PushedWasAccepted(t, s, u, b);
    if a.c == b.c {
      assert OfferedOnce(n);
      assert a == b;
      AcceptedNoRepeat(n.offered);
      SelNoRepeat(From(a.from), Accepted(n.offered));
      assert SlaveInStep(n, a.from);
      SelTwice(From(a.from), n.pushed, i, j);
      assert false;
    }
  }

  lemma {:induction false} SelTwice(k: Pick, s: seq<Item>, i: nat, j: nat)
    requires i < j < |s| && s[i] == s[j] && Picks(k, s[i])
    ensures !NoRepeat(Sel(k, s))
    ensures forall more :: !NoRepeat(Sel(k, s) + more)
  {
    var m, last := s[..|s| - 1], s[|s| - 1];
    if j == |s| - 1 {
      SelMember(k, m, last.c);
      assert m[i] == last;
      var p :| 0 <= p < |Sel(k, m)| && Sel(k, m)[p] == last.c;
      assert Sel(k, s)[p] == Sel(k, s)[|Sel(k, m)|];
      forall more
        ensures !NoRepeat(Sel(k, s) + more)
      {
        assert (Sel(k, s) + more)[p] == (Sel(k, s) + more)[|Sel(k, m)|];
      }
    } else {
      SelTwice(k, m, i, j);
      var rest := if Picks(k, last) then [last.c] else [];
      assert Sel(k, s) == Sel(k, m) + rest;
      forall more
        ensures !NoRepeat(Sel(k, s) + more)
      {
        assert Sel(k, s) + more == Sel(k, m) + (rest + more);
      }
      assert Sel(k, s) + [] == Sel(k, s);
    }
  }
}
