/** The send loop of clipif_broadcast (src/interfaces/clipif.c:135-145), and the flood's step it carries out. */
module Broadcast {
  import opened Common
  import opened Transfer
  import opened Topology
  import opened Replication

  /**
   * One packet to every connected clipboard except the one it came from: each of them gets the
   * packet's bytes, or those of them the kernel took before it failed.  A free slot and the slot the
   * packet came from are left alone.
   */
  method SendToAll(fds: array<int>, socks: seq<Socket>, packet: seq<byte>, from: int)
    requires |socks| == fds.Length
    requires forall i, j :: 0 <= i < j < |socks| ==> socks[i] != socks[j]
    modifies socks
    ensures forall i :: 0 <= i < |socks| && (fds[i] <= 0 || fds[i] == from) ==>
              socks[i].sent == old(socks[i].sent) && socks[i].plan == old(socks[i].plan)
    ensures forall i :: 0 <= i < |socks| && fds[i] > 0 && fds[i] != from ==>
              socks[i].sent == old(socks[i].sent) + packet[..Taken(old(socks[i].plan), |packet|)]
  {
    var i := 0;
    while i < fds.Length
      invariant 0 <= i <= fds.Length
      invariant forall j :: 0 <= j < |socks| && (j >= i || fds[j] <= 0 || fds[j] == from) ==>
                  socks[j].sent == old(socks[j].sent) && socks[j].plan == old(socks[j].plan)
      invariant forall j :: 0 <= j < i && fds[j] > 0 && fds[j] != from ==>
                  socks[j].sent == old(socks[j].sent) + packet[..Taken(old(socks[j].plan), |packet|)]
    {
      if fds[i] > 0 && fds[i] != from {
        var ret := SendData(socks[i], packet);
      }
      i := i + 1;
    }
  }

  // ----- The loop and the flood -----

  /** The slots of clipboard `u` hold one descriptor of its own for each of its peers. */
  ghost predicate SlotsHold(t: Tree, u: nat, fds: seq<int>, peers: seq<Option<nat>>) {
    && |fds| == |peers|
    && (forall i :: 0 <= i < |fds| ==> (fds[i] > 0 <==> peers[i].Some?))
    && (forall i :: 0 <= i < |fds| && peers[i].Some? ==> Adj(t, u, peers[i].value))
    && (forall v: nat :: Adj(t, u, v) ==> exists i :: 0 <= i < |fds| && peers[i] == Some(v))
    && (forall i, j :: 0 <= i < j < |fds| && fds[i] > 0 ==> fds[i] != fds[j])
    && (forall i, j :: 0 <= i < j < |fds| && peers[i].Some? ==> peers[i] != peers[j])
  }

  /** `from` is the descriptor of the source: an application's is in no slot. */
  ghost predicate FromIs(fds: seq<int>, peers: seq<Option<nat>>, from: int, source: Source)
    requires |fds| == |peers|
  {
    match source
    case App(_) => from !in fds || from <= 0
    case Link(p) => exists i :: 0 <= i < |fds| && fds[i] == from && peers[i] == Some(p)
  }

  /**
   * On sockets that work, the slots that get the packet, all of it, are exactly those of the peers the
   * flood's broadcaster has to serve with it; the others get nothing.
   */
  method SendItem(
    t: Tree, s: State, u: nat, peers: seq<Option<nat>>,
    fds: array<int>, socks: seq<Socket>, packet: seq<byte>, from: int)
    requires Enabled(t, s, Pop(u)) && SlotsHold(t, u, fds[..], peers)
    requires FromIs(fds[..], peers, from, s.nodes[u].queue[0].from)
    requires |socks| == fds.Length
    requires forall i, j :: 0 <= i < j < |socks| ==> socks[i] != socks[j]
    requires forall i :: 0 <= i < |socks| ==> Taken(socks[i].plan, |packet|) == |packet|
    modifies socks
    ensures forall i :: 0 <= i < |socks| ==>
              socks[i].sent == old(socks[i].sent) +
                if peers[i].Some? && peers[i].value in Apply(t, s, Pop(u)).nodes[u].bc.todo then packet else []
    ensures forall v :: v in Apply(t, s, Pop(u)).nodes[u].bc.todo ==>
              exists i :: 0 <= i < |socks| && peers[i] == Some(v)
  {
    ghost var todo := Apply(t, s, Pop(u)).nodes[u].bc.todo;
    forall i | 0 <= i < |socks|
      ensures peers[i].Some? && peers[i].value in todo <==> fds[i] > 0 && fds[i] != from
    {
      Served(t, s, u, fds[..], peers, from, i);
    }
    SendToAll(fds, socks, packet, from);
    assert packet[..|packet|] == packet;
  }

  lemma Served(t: Tree, s: State, u: nat, fds: seq<int>, peers: seq<Option<nat>>, from: int, i: nat)
    requires Enabled(t, s, Pop(u)) && SlotsHold(t, u, fds, peers) && i < |fds|
    requires FromIs(fds, peers, from, s.nodes[u].queue[0].from)
    ensures peers[i].Some? && peers[i].value in Apply(t, s, Pop(u)).nodes[u].bc.todo
            <==> fds[i] > 0 && fds[i] != from
  {
    var source := s.nodes[u].queue[0].from;
    if peers[i].Some? {
      assert Adj(t, u, peers[i].value);
      match source
      case App(_) =>
      case Link(p) =>
        var j :| 0 <= j < |fds| && fds[j] == from && peers[j] == Some(p);
        assert (peers[i] == peers[j]) == (i == j) == (fds[i] == fds[j]);
    }
  }
}
