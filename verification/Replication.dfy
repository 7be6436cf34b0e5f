/**
 * The flood protocol on a fixed tree of clipboards: slaves that offer copies to the memory and then,
 * in a separate step, push the accepted ones on the broadcast queue; one broadcaster per clipboard
 * that sends each packet to every peer but the one it came from; FIFO links in between
 * (src/interfaces/clipif.c, src/interfaces/appif.c).
 *
 * The state carries two logs that no step reads: every offer made to a memory, and every push.
 */
module Replication {
  import opened Common
  import opened Topology
  import opened Clmem

  /** An application's copy, stamped once where it entered the network.  `id` tells copies apart. */
  datatype Copy = Copy(org: nat, slave: nat, id: nat, region: int, stamp: u32, data: seq<byte>)

  /** A slave thread: one per application and one per connected clipboard. */
  datatype Source = App(slave: nat) | Link(peer: nat)

  /** A broadcast_t: a packet and where it came from. */
  datatype Item = Item(c: Copy, from: Source)

  datatype Broadcaster = Idle | Busy(item: Item, todo: set<nat>)

  datatype Node = Node(
    mem: Zones,
    pend: map<Source, Copy>,
    queue: seq<Item>,
    bc: Broadcaster,
    offered: seq<Item>,
    pushed: seq<Item>)

  datatype State = State(nodes: seq<Node>, chan: map<(nat, nat), seq<Copy>>)

  const EMPTY_NODE := Node(EmptyZones(), map[], [], Idle, [], [])

  datatype Label =
    | Copying(u: nat, c: Copy)
    | Push(u: nat, f: Source)
    | Pop(u: nat)
    | Send(u: nat, v: nat)
    | Done(u: nat)
    | Deliver(u: nat, v: nat)

  function ToOffer(c: Copy): Offer {
    Offer(c.region, c.data, c.stamp)
  }

  function Init(t: Tree): State {
    State(seq(|t.parent|, _ => EMPTY_NODE), map[])
  }

  /** The packets on their way from `u` to `v`, oldest first. */
  function Chan(s: State, u: nat, v: nat): seq<Copy> {
    if (u, v) in s.chan then s.chan[(u, v)] else []
  }

  ghost function Peers(t: Tree, u: nat): (p: set<nat>)
    ensures forall v :: v in p <==> Adj(t, u, v)
  {
    set v | 0 <= v < |t.parent| && Adj(t, u, v)
  }

  ghost predicate Enabled(t: Tree, s: State, l: Label) {
    && |s.nodes| == |t.parent|
    && match l
       case Copying(u, c) =>
         && u < |s.nodes|
         && c.org == u
         && App(c.slave) !in s.nodes[u].pend
         && Item(c, App(c.slave)) !in s.nodes[u].offered
       case Push(u, f) => u < |s.nodes| && f in s.nodes[u].pend
       case Pop(u) => u < |s.nodes| && s.nodes[u].bc.Idle? && s.nodes[u].queue != []
       case Send(u, v) => u < |s.nodes| && s.nodes[u].bc.Busy? && v in s.nodes[u].bc.todo
       case Done(u) => u < |s.nodes| && s.nodes[u].bc.Busy? && s.nodes[u].bc.todo == {}
       case Deliver(u, v) => Adj(t, u, v) && Chan(s, u, v) != [] && Link(u) !in s.nodes[v].pend
  }

  /** A slave has a whole copy packet: mem_put decides whether it goes on to the broadcast queue. */
  function OfferTo(n: Node, c: Copy, f: Source): Node {
    n.(mem := PutAll(n.mem, ToOffer(c)),
       pend := if Admits(n.mem, ToOffer(c)) then n.pend[f := c] else n.pend,
       offered := n.offered + [Item(c, f)])
  }

  /** clipif_add_broadcast by slave `f`. */
  function PushFrom(n: Node, f: Source): Node
    requires f in n.pend
  {
    n.(pend := n.pend - {f},
       queue := n.queue + [Item(n.pend[f], f)],
       pushed := n.pushed + [Item(n.pend[f], f)])
  }

  ghost function Apply(t: Tree, s: State, l: Label): State
    requires Enabled(t, s, l)
  {
    match l
    case Copying(u, c) => s.(nodes := s.nodes[u := OfferTo(s.nodes[u], c, App(c.slave))])
    case Push(u, f) => s.(nodes := s.nodes[u := PushFrom(s.nodes[u], f)])
    case Pop(u) =>
      var n := s.nodes[u];
      var todo := set v | v in Peers(t, u) && n.queue[0].from != Link(v);
      s.(nodes := s.nodes[u := n.(queue := n.queue[1..], bc := Busy(n.queue[0], todo))])
    case Send(u, v) =>
      var n := s.nodes[u];
      State(s.nodes[u := n.(bc := n.bc.(todo := n.bc.todo - {v}))],
            s.chan[(u, v) := Chan(s, u, v) + [n.bc.item.c]])
    case Done(u) => s.(nodes := s.nodes[u := s.nodes[u].(bc := Idle)])
    case Deliver(u, v) =>
      State(s.nodes[v := OfferTo(s.nodes[v], Chan(s, u, v)[0], Link(u))],
            s.chan[(u, v) := Chan(s, u, v)[1..]])
  }

  /** A run from the empty clipboards in which applications only offer copies from `allowed`. */
  ghost predicate Legal(t: Tree, allowed: iset<Copy>, run: seq<Label>)
    decreases |run|, 0
  {
    run == [] ||
    (var before, l := run[..|run| - 1], run[|run| - 1];
     && Legal(t, allowed, before)
     && Enabled(t, After(t, allowed, before), l)
     && (l.Copying? ==> l.c in allowed))
  }

  ghost function After(t: Tree, allowed: iset<Copy>, run: seq<Label>): State
    requires Legal(t, allowed, run)
    decreases |run|, 1
  {
    if run == [] then Init(t)
    else Apply(t, After(t, allowed, run[..|run| - 1]), run[|run| - 1])
  }

  /** Nothing is left to do: no slave, queue, broadcaster or link holds a packet. */
  ghost predicate Quiescent(t: Tree, s: State) {
    && |s.nodes| == |t.parent|
    && (forall u :: 0 <= u < |s.nodes| ==>
          s.nodes[u].pend == map[] && s.nodes[u].queue == [] && s.nodes[u].bc.Idle?)
    && (forall u, v :: Adj(t, u, v) ==> Chan(s, u, v) == [])
  }

  // ----- Selections from a log -----

  datatype Pick = NotFrom(peer: nat) | From(src: Source)

  predicate Picks(k: Pick, it: Item) {
    match k
    case NotFrom(p) => it.from != Link(p)
    case From(f) => it.from == f
  }

  /** The copies of the picked items, in order. */
  function Sel(k: Pick, s: seq<Item>): seq<Copy> {
    if s == [] then []
    else
      var it := s[|s| - 1];
      Sel(k, s[..|s| - 1]) + if Picks(k, it) then [it.c] else []
  }

  lemma SelAppend(k: Pick, s: seq<Item>, it: Item)
    ensures Sel(k, s + [it]) == Sel(k, s) + if Picks(k, it) then [it.c] else []
  {
    assert (s + [it])[..|s|] == s;
  }

  lemma {:induction false} SelHead(k: Pick, s: seq<Item>)
    requires s != []
    ensures Sel(k, s) == (if Picks(k, s[0]) then [s[0].c] else []) + Sel(k, s[1..])
  {
    if |s| == 1 {
      assert s[..0] == [] == s[1..];
    } else {
      var m := s[..|s| - 1];
      SelHead(k, m);
      assert m[1..] == s[1..][..|s| - 2];
    }
  }

  lemma {:induction false} SelMember(k: Pick, s: seq<Item>, c: Copy)
    ensures c in Sel(k, s) <==> exists it :: it in s && it.c == c && Picks(k, it)
  {
    if s != [] {
      var m, last := s[..|s| - 1], s[|s| - 1];
      SelMember(k, m, c);
      assert s == m + [last];
    }
  }

  /** The items whose offer was accepted, in order. */
  function Accepted(offered: seq<Item>): seq<Item> {
    if offered == [] then []
    else
      var before, it := offered[..|offered| - 1], offered[|offered| - 1];
      Accepted(before) + if Admits(Fold(Offers(before)), ToOffer(it.c)) then [it] else []
  }

  function Offers(s: seq<Item>): (os: seq<Offer>)
    ensures |os| == |s|
    ensures forall i :: 0 <= i < |s| ==> os[i] == ToOffer(s[i].c)
  {
    seq(|s|, i requires 0 <= i < |s| => ToOffer(s[i].c))
  }

  lemma AcceptedAppend(s: seq<Item>, it: Item)
    ensures Accepted(s + [it]) == Accepted(s) + if Admits(Fold(Offers(s)), ToOffer(it.c)) then [it] else []
    ensures Fold(Offers(s + [it])) == PutAll(Fold(Offers(s)), ToOffer(it.c))
  {
    assert (s + [it])[..|s|] == s;
    assert Offers(s + [it])[..|s|] == Offers(s);
  }

  lemma {:induction false} AcceptedSubset(s: seq<Item>, it: Item)
    requires it in Accepted(s)
    ensures it in s && ValidOffer(ToOffer(it.c))
  {
    var before, last := s[..|s| - 1], s[|s| - 1];
    if it in Accepted(before) {
      AcceptedSubset(before, it);
    }
  }
}
