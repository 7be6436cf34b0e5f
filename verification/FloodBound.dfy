/** How much work one copy causes: the flood ends, and no link carries a copy twice. */
module FloodBound {
  import opened Topology
  import opened Replication
  import opened FloodInvariant
  import opened FloodSteps

  // ----- Prefixes of a run -----

  lemma {:induction false} PrefixLegal(t: Tree, allowed: iset<Copy>, run: seq<Label>, k: nat)
    requires Legal(t, allowed, run) && k <= |run|
    ensures Legal(t, allowed, run[..k])
  {
    if k == |run| {
      assert run[..k] == run;
    } else {
      PrefixLegal(t, allowed, run[..|run| - 1], k);
      assert run[..|run| - 1][..k] == run[..k];
    }
  }

  lemma LogsGrowStep(t: Tree, s: State, l: Label, u: nat)
    requires Enabled(t, s, l) && u < |s.nodes|
    ensures |Apply(t, s, l).nodes| == |s.nodes|
    ensures s.nodes[u].offered <= Apply(t, s, l).nodes[u].offered
    ensures s.nodes[u].pushed <= Apply(t, s, l).nodes[u].pushed
  {
    StepFrame(t, s, l);
  }

  /** The two logs of a clipboard only ever grow at their ends. */
  lemma {:induction false} LogsGrow(t: Tree, allowed: iset<Copy>, run: seq<Label>, k: nat, u: nat)
    requires WellFormed(t) && Legal(t, allowed, run) && k <= |run| && IsNode(t, u)
    requires Legal(t, allowed, run[..k])
    ensures |After(t, allowed, run).nodes| == |After(t, allowed, run[..k]).nodes| == |t.parent|
    ensures After(t, allowed, run[..k]).nodes[u].offered <= After(t, allowed, run).nodes[u].offered
    ensures After(t, allowed, run[..k]).nodes[u].pushed <= After(t, allowed, run).nodes[u].pushed
    decreases |run|
  {
    if k == |run| {
      Reachable(t, allowed, run);
      assert run[..k] == run;
    } else {
      var before := run[..|run| - 1];
      assert before[..k] == run[..k];
      LogsGrow(t, allowed, before, k, u);
      LogsGrowStep(t, After(t, allowed, before), run[|run| - 1], u);
    }
  }

  // ----- At most once over each link, and never back -----

  /** The copy that step `i` of a run delivers. */
  ghost function Carried(t: Tree, allowed: iset<Copy>, run: seq<Label>, i: nat): Copy
    requires Legal(t, allowed, run) && i < |run| && run[i].Deliver?
    requires Legal(t, allowed, run[..i]) && Enabled(t, After(t, allowed, run[..i]), run[i])
  {
    Chan(After(t, allowed, run[..i]), run[i].u, run[i].v)[0]
  }

  lemma StepEnabled(t: Tree, allowed: iset<Copy>, run: seq<Label>, i: nat)
    requires Legal(t, allowed, run) && i < |run|
    ensures Legal(t, allowed, run[..i]) && Enabled(t, After(t, allowed, run[..i]), run[i])
    ensures Legal(t, allowed, run[..i + 1])
    ensures After(t, allowed, run[..i + 1]) == Apply(t, After(t, allowed, run[..i]), run[i])
  {
    PrefixLegal(t, allowed, run, i);
    PrefixLegal(t, allowed, run, i + 1);
    assert run[..i + 1][..i] == run[..i];
  }

  lemma DeliveryLogged(t: Tree, allowed: iset<Copy>, run: seq<Label>, i: nat)
    requires WellFormed(t) && Legal(t, allowed, run) && i < |run| && run[i].Deliver?
    requires Legal(t, allowed, run[..i]) && Enabled(t, After(t, allowed, run[..i]), run[i])
    ensures |After(t, allowed, run).nodes| == |t.parent| && run[i].v < |t.parent|
    ensures Item(Carried(t, allowed, run, i), Link(run[i].u)) in After(t, allowed, run).nodes[run[i].v].offered
  {
    StepEnabled(t, allowed, run, i);
    StepOffers(t, After(t, allowed, run[..i]), run[i]);
    var it := Item(Carried(t, allowed, run, i), Link(run[i].u));
    assert it in After(t, allowed, run[..i + 1]).nodes[run[i].v].offered;
    LogsGrow(t, allowed, run, i + 1, run[i].v);
  }

  /**
   * Two deliveries of the same copy go to different clipboards, neither of them the copy's origin,
   * and not in opposite directions over one link.
   */
  lemma CrossesOnce(t: Tree, allowed: iset<Copy>, run: seq<Label>, i: nat, j: nat)
    requires WellFormed(t) && Legal(t, allowed, run) && i < j < |run| && run[i].Deliver? && run[j].Deliver?
    requires Legal(t, allowed, run[..i]) && Enabled(t, After(t, allowed, run[..i]), run[i])
    requires Legal(t, allowed, run[..j]) && Enabled(t, After(t, allowed, run[..j]), run[j])
    requires Carried(t, allowed, run, i) == Carried(t, allowed, run, j)
    ensures run[i].v != run[j].v
    ensures run[i].v != Carried(t, allowed, run, i).org && run[j].v != Carried(t, allowed, run, i).org
    ensures !(run[i].u == run[j].v && run[i].v == run[j].u)
  {
    var c := Carried(t, allowed, run, i);
    var before := run[..j];
    assert before[..i] == run[..i] && before[i] == run[i];
    DeliveryLogged(t, allowed, before, i);
    Reachable(t, allowed, before);
    var s := After(t, allowed, before);
    assert Directed(t, run[i].v, Item(c, Link(run[i].u)));
    DeliverIsNew(t, s, run[j]);
    if run[i].u == run[j].v && run[i].v == run[j].u {
      NotBothWays(t, run[i].u, run[i].v, c.org);
    }
  }

  // ----- The broadcast queue is first in, first out -----

  /** The pushed packets are, in order: those dealt with, the one in the broadcaster, the queue. */
  ghost predicate QueueInOrder(n: Node) {
    && |n.queue| <= |n.pushed|
    && n.pushed[|n.pushed| - |n.queue|..] == n.queue
    && (n.bc.Busy? ==> |n.queue| < |n.pushed| && n.pushed[|n.pushed| - |n.queue| - 1] == n.bc.item)
  }

  lemma PopInOrder(n: Node, todo: set<nat>)
    requires QueueInOrder(n) && n.queue != []
    ensures QueueInOrder(n.(queue := n.queue[1..], bc := Busy(n.queue[0], todo)))
  {
    var k := |n.pushed| - |n.queue|;
    assert n.pushed[k] == n.pushed[k..][0];
    assert n.pushed[k + 1..] == n.pushed[k..][1..];
  }

  lemma QueueStep(t: Tree, s: State, l: Label, u: nat)
    requires Enabled(t, s, l) && u < |s.nodes| && QueueInOrder(s.nodes[u])
    ensures QueueInOrder(Apply(t, s, l).nodes[u])
  {
    StepFrame(t, s, l);
    var n, n' := s.nodes[u], Apply(t, s, l).nodes[u];
    if l.Push? && l.u == u {
      PushInOrder(n, l.f);
    } else if l.Pop? && l.u == u {
      PopInOrder(n, n'.bc.todo);
    } else {
      assert n'.queue == n.queue && n'.pushed == n.pushed;
      assert n'.bc.Busy? ==> n.bc.Busy? && n'.bc.item == n.bc.item;
    }
  }

  lemma PushInOrder(n: Node, f: Source)
    requires f in n.pend && QueueInOrder(n)
    ensures QueueInOrder(PushFrom(n, f))
  {
    var k := |n.pushed| - |n.queue|;
    var it := Item(n.pend[f], f);
    assert (n.pushed + [it])[k..] == n.pushed[k..] + [it];
  }

  lemma {:induction false} QueuesInOrder(t: Tree, allowed: iset<Copy>, run: seq<Label>, u: nat)
    requires WellFormed(t) && Legal(t, allowed, run) && IsNode(t, u)
    ensures |After(t, allowed, run).nodes| == |t.parent| && QueueInOrder(After(t, allowed, run).nodes[u])
  {
    Reachable(t, allowed, run);
    if run != [] {
      QueuesInOrder(t, allowed, run[..|run| - 1], u);
      QueueStep(t, After(t, allowed, run[..|run| - 1]), run[|run| - 1], u);
    }
  }

  // ----- Every step of a kind is about its own copy and clipboard -----

  datatype Kind = Entering | Pushing | Popping | Sending | Ending | Delivering

  function KindOf(l: Label): Kind {
    match l
    case Copying(_, _) => Entering
    case Push(_, _) => Pushing
    case Pop(_) => Popping
    case Send(_, _) => Sending
    case Done(_) => Ending
    case Deliver(_, _) => Delivering
  }

  /** The copy a step handles and the clipboard it brings it to or handles it at. */
  ghost function Handles(t: Tree, s: State, l: Label): (Copy, nat)
    requires Enabled(t, s, l)
  {
    match l
    case Copying(u, c) => (c, u)
    case Push(u, f) => (s.nodes[u].pend[f], u)
    case Pop(u) => (s.nodes[u].queue[0].c, u)
    case Send(u, v) => (s.nodes[u].bc.item.c, v)
    case Done(u) => (s.nodes[u].bc.item.c, u)
    case Deliver(u, v) => (Chan(s, u, v)[0], v)
  }

  ghost predicate InLog(c: Copy, log: seq<Item>) {
    exists it :: it in log && it.c == c
  }

  /** The number of packets the broadcaster has taken, and how many of them it is through with. */
  function Taken(n: Node): int {
    |n.pushed| - |n.queue|
  }

  function Through(n: Node): int {
    Taken(n) - if n.bc.Busy? then 1 else 0
  }

  /** The state shows that a step of kind `k` handled `c` at `u`. */
  ghost predicate Shows(t: Tree, s: State, k: Kind, c: Copy, u: nat)
    requires WellFormed(t) && |s.nodes| == |t.parent|
  {
    && u < |s.nodes|
    && match k
       case Entering => false
       case Pushing => InLog(c, s.nodes[u].pushed)
       case Popping =>
         && 0 <= Taken(s.nodes[u]) <= |s.nodes[u].pushed|
         && InLog(c, s.nodes[u].pushed[..Taken(s.nodes[u])])
       case Ending =>
         && 0 <= Through(s.nodes[u]) <= |s.nodes[u].pushed|
         && InLog(c, s.nodes[u].pushed[..Through(s.nodes[u])])
       case Sending =>
         && IsNode(t, c.org) && c.org != u
         && c in Got(s, Toward(t, u, c.org), u) + Chan(s, Toward(t, u, c.org), u)
       case Delivering => c.org != u && InLog(c, s.nodes[u].offered)
  }

  // ----- A step is the first of its kind to handle its copy there -----

  lemma PendIsAccepted(t: Tree, s: State, u: nat, f: Source)
    requires Inv(t, s) && u < |s.nodes| && f in s.nodes[u].pend
    ensures Item(s.nodes[u].pend[f], f) in Accepted(s.nodes[u].offered)
    ensures Sel(From(f), Accepted(s.nodes[u].offered)) == Sel(From(f), s.nodes[u].pushed) + [s.nodes[u].pend[f]]
  {
    var n := s.nodes[u];
    var c, acc := n.pend[f], Accepted(n.offered);
    assert SlaveInStep(n, f);
    assert Sel(From(f), acc)[|Sel(From(f), n.pushed)|] == c;
    SelMember(From(f), acc, c);
  }

  lemma PendAccepted(t: Tree, s: State, u: nat, f: Source)
    requires Inv(t, s) && u < |s.nodes| && f in s.nodes[u].pend
    ensures var n := s.nodes[u];
            && Item(n.pend[f], f) in Accepted(n.offered)
            && n.pend[f] !in Sel(From(f), n.pushed)
  {
    var n := s.nodes[u];
    PendIsAccepted(t, s, u, f);
    assert OfferedOnce(n);
    AcceptedNoRepeat(n.offered);
    SelNoRepeat(From(f), Accepted(n.offered));
    LastIsNew(Sel(From(f), n.pushed), n.pend[f]);
  }

  lemma LastIsNew(before: seq<Copy>, c: Copy)
    requires NoRepeat(before + [c])
    ensures c !in before
  {
    if i :| 0 <= i < |before| && before[i] == c {
      assert (before + [c])[i] == (before + [c])[|before|];
    }
  }

  lemma PendNotPushed(t: Tree, s: State, u: nat, f: Source)
    requires Inv(t, s) && u < |s.nodes| && f in s.nodes[u].pend
    ensures !InLog(s.nodes[u].pend[f], s.nodes[u].pushed)
  {
    var n := s.nodes[u];
    var c := n.pend[f];
    PendAccepted(t, s, u, f);
    AcceptedSubset(n.offered, Item(c, f));
    if it :| it in n.pushed && it.c == c {
      PushedWasAccepted(t, s, u, it);
      assert OfferedOnce(n);
      SelMember(From(f), n.pushed, c);
    }
  }

  lemma PushedAtFirst(t: Tree, s: State, u: nat, k: nat)
    requires Inv(t, s) && u < |s.nodes| && k < |s.nodes[u].pushed|
    ensures !InLog(s.nodes[u].pushed[k].c, s.nodes[u].pushed[..k])
  {
    var p := s.nodes[u].pushed;
    if it :| it in p[..k] && it.c == p[k].c {
      var i :| 0 <= i < k && p[i] == it;
      PushedAtDistinct(t, s, u, i, k);
    }
  }

  lemma InHandNotSent(t: Tree, s: State, u: nat, v: nat)
    requires Inv(t, s) && u < |s.nodes| && s.nodes[u].bc.Busy? && v in s.nodes[u].bc.todo
    ensures var c := s.nodes[u].bc.item.c;
            && Adj(t, u, v)
            && IsNode(t, c.org) && c.org != v && Toward(t, v, c.org) == u
            && c !in Got(s, u, v) + Chan(s, u, v)
  {
    var c := s.nodes[u].bc.item.c;
    assert NodeShape(t, u, s.nodes[u]);
    ChanWasSent(t, s, u, v, c);
    var it := SentWasPushed(t, s, u, v, c);
    SentNoRepeat(t, s, u, v);
    assert EdgeConserved(s, u, v);
    if c in Got(s, u, v) + Chan(s, u, v) {
      var rest := Sel(NotFrom(v), s.nodes[u].queue);
      assert Sent(s, u, v) == (Got(s, u, v) + Chan(s, u, v)) + [c] + rest;
      RepeatedHead(Sent(s, u, v), Got(s, u, v) + Chan(s, u, v), [c], rest);
    }
  }

  lemma LocalFirst(t: Tree, s: State, l: Label)
    requires Inv(t, s) && Enabled(t, s, l) && (l.Push? || l.Pop? || l.Done?) && QueueInOrder(s.nodes[l.u])
    ensures !Shows(t, s, KindOf(l), Handles(t, s, l).0, l.u)
  {
    match l
    case Push(u, f) => PendNotPushed(t, s, u, f);
    case Pop(u) => PushedAtFirst(t, s, u, Taken(s.nodes[u]));
    case Done(u) => PushedAtFirst(t, s, u, Through(s.nodes[u]));
  }

  lemma SendFirst(t: Tree, s: State, l: Label)
    requires Inv(t, s) && Enabled(t, s, l) && l.Send?
    ensures !Shows(t, s, Sending, Handles(t, s, l).0, l.v)
  {
    InHandNotSent(t, s, l.u, l.v);
  }

  lemma DeliverFirst(t: Tree, s: State, l: Label)
    requires Inv(t, s) && Enabled(t, s, l) && l.Deliver?
    ensures !Shows(t, s, Delivering, Handles(t, s, l).0, l.v)
  {
    DeliverIsNew(t, s, l);
  }

  lemma HandledFirst(t: Tree, s: State, l: Label)
    requires Inv(t, s) && Enabled(t, s, l) && QueueInOrder(s.nodes[l.u])
    ensures !Shows(t, s, KindOf(l), Handles(t, s, l).0, Handles(t, s, l).1)
  {
    if l.Send? {
      SendFirst(t, s, l);
    } else if l.Deliver? {
      DeliverFirst(t, s, l);
    } else if !l.Copying? {
      LocalFirst(t, s, l);
    }
  }

  lemma AtEnd(log: seq<Item>, k: nat)
    requires k < |log|
    ensures InLog(log[k].c, log[..k + 1])
  {
    assert log[..k + 1][k] == log[k];
  }

  /** The broadcaster's steps, as its own clipboard shows them. */
  lemma LocalShown(t: Tree, s: State, l: Label)
    requires WellFormed(t) && Enabled(t, s, l) && (l.Push? || l.Pop? || l.Done?) && QueueInOrder(s.nodes[l.u])
    ensures |Apply(t, s, l).nodes| == |t.parent|
    ensures Shows(t, Apply(t, s, l), KindOf(l), Handles(t, s, l).0, l.u)
  {
    QueueStep(t, s, l, l.u);
    var n, n' := s.nodes[l.u], Apply(t, s, l).nodes[l.u];
    match l
    case Push(u, f) =>
      assert n'.pushed[|n.pushed|] == Item(n.pend[f], f);
      AtEnd(n'.pushed, |n.pushed|);
    case Pop(u) => AtEnd(n.pushed, Taken(n));
    case Done(u) => AtEnd(n.pushed, Through(n));
  }

  lemma HandledNow(t: Tree, s: State, l: Label)
    requires Inv(t, s) && Enabled(t, s, l) && !l.Copying? && QueueInOrder(s.nodes[l.u])
    ensures |Apply(t, s, l).nodes| == |t.parent|
    ensures Shows(t, Apply(t, s, l), KindOf(l), Handles(t, s, l).0, Handles(t, s, l).1)
  {
    StepFrame(t, s, l);
    if l.Send? {
      InHandNotSent(t, s, l.u, l.v);
    } else if l.Deliver? {
      DeliverIsNew(t, s, l);
      StepOffers(t, s, l);
      assert OfferedItem(s, l) in Apply(t, s, l).nodes[l.v].offered;
    } else {
      LocalShown(t, s, l);
    }
  }

  // ----- What a state shows, all later states show -----

  lemma LinkTakes(t: Tree, s: State, x: nat, y: nat)
    requires Enabled(t, s, Deliver(x, y))
    ensures var s' := Apply(t, s, Deliver(x, y));
            |s'.nodes| == |t.parent| && Got(s', x, y) + Chan(s', x, y) == Got(s, x, y) + Chan(s, x, y)
  {
    var c := Chan(s, x, y)[0];
    OfferEdge(s.nodes[y], Item(c, Link(x)), x);
    assert Got(Apply(t, s, Deliver(x, y)), x, y) == Got(s, x, y) + [c];
    assert Chan(s, x, y) == [c] + Chan(s, x, y)[1..];
  }

  lemma LinkSends(t: Tree, s: State, l: Label, x: nat, y: nat)
    requires Enabled(t, s, l) && Adj(t, x, y) && l.Send?
    ensures var s' := Apply(t, s, l);
            |s'.nodes| == |t.parent| && Got(s', x, y) == Got(s, x, y) && Chan(s, x, y) <= Chan(s', x, y)
  {
  }

  lemma LinkStays(t: Tree, s: State, l: Label, x: nat, y: nat)
    requires Enabled(t, s, l) && Adj(t, x, y) && !l.Send? && l != Deliver(x, y)
    ensures var s' := Apply(t, s, l);
            |s'.nodes| == |t.parent| && Got(s', x, y) == Got(s, x, y) && Chan(s', x, y) == Chan(s, x, y)
  {
    StepFrame(t, s, l);
    if l.Deliver? {
      DeliverElsewhere(t, s, l, x, y);
    } else if l.Copying? {
      OfferEdge(s.nodes[l.u], Item(l.c, App(l.c.slave)), x);
    }
  }

  lemma LinkGrows(t: Tree, s: State, l: Label, x: nat, y: nat)
    requires Enabled(t, s, l) && Adj(t, x, y)
    ensures |Apply(t, s, l).nodes| == |t.parent|
    ensures Got(s, x, y) + Chan(s, x, y) <= Got(Apply(t, s, l), x, y) + Chan(Apply(t, s, l), x, y)
  {
    if l == Deliver(x, y) {
      LinkTakes(t, s, x, y);
    } else if l.Send? {
      LinkSends(t, s, l, x, y);
    } else {
      LinkStays(t, s, l, x, y);
    }
  }

  lemma LogGrew(c: Copy, a: seq<Item>, b: seq<Item>)
    requires InLog(c, a) && a <= b
    ensures InLog(c, b)
  {
    var it :| it in a && it.c == c;
    assert it in b;
  }

  lemma QueueMoves(t: Tree, s: State, l: Label, u: nat)
    requires Enabled(t, s, l) && u < |s.nodes| && QueueInOrder(s.nodes[u])
    ensures var n, n' := s.nodes[u], Apply(t, s, l).nodes[u];
            && n.pushed <= n'.pushed && n.offered <= n'.offered
            && 0 <= Taken(n) <= Taken(n') <= |n'.pushed|
            && 0 <= Through(n) <= Through(n') <= |n'.pushed|
  {
    StepFrame(t, s, l);
    QueueStep(t, s, l, u);
    StepOffers(t, s, l);
  }

  lemma StillShows(t: Tree, s: State, l: Label, k: Kind, c: Copy, u: nat)
    requires WellFormed(t) && Enabled(t, s, l) && Shows(t, s, k, c, u) && QueueInOrder(s.nodes[u])
    ensures |Apply(t, s, l).nodes| == |t.parent|
    ensures Shows(t, Apply(t, s, l), k, c, u)
  {
    StepFrame(t, s, l);
    QueueMoves(t, s, l, u);
    var n, n' := s.nodes[u], Apply(t, s, l).nodes[u];
    match k
    case Pushing => LogGrew(c, n.pushed, n'.pushed);
    case Popping => LogGrew(c, n.pushed[..Taken(n)], n'.pushed[..Taken(n')]);
    case Ending => LogGrew(c, n.pushed[..Through(n)], n'.pushed[..Through(n')]);
    case Delivering => LogGrew(c, n.offered, n'.offered);
    case Sending => LinkGrows(t, s, l, Toward(t, u, c.org), u);
  }

  // ----- Counting the steps of a run -----

  /** The number of steps of kind `k`. */
  function Count(run: seq<Label>, k: Kind): nat {
    if run == [] then 0
    else Count(run[..|run| - 1], k) + if KindOf(run[|run| - 1]) == k then 1 else 0
  }

  ghost function Handled(t: Tree, allowed: iset<Copy>, run: seq<Label>, k: Kind): set<(Copy, nat)>
    requires Legal(t, allowed, run)
  {
    if run == [] then {}
    else
      var before, l := run[..|run| - 1], run[|run| - 1];
      Handled(t, allowed, before, k) +
      if KindOf(l) == k then {Handles(t, After(t, allowed, before), l)} else {}
  }

  lemma ShownStays(t: Tree, s: State, l: Label, k: Kind, done: set<(Copy, nat)>)
    requires Inv(t, s) && Enabled(t, s, l) && forall u :: 0 <= u < |s.nodes| ==> QueueInOrder(s.nodes[u])
    requires forall h :: h in done ==> Shows(t, s, k, h.0, h.1)
    ensures |Apply(t, s, l).nodes| == |t.parent|
    ensures forall h :: h in done ==> Shows(t, Apply(t, s, l), k, h.0, h.1)
  {
    StepFrame(t, s, l);
    forall h | h in done
      ensures Shows(t, Apply(t, s, l), k, h.0, h.1)
    {
      StillShows(t, s, l, k, h.0, h.1);
    }
  }

  lemma AddNew(done: set<(Copy, nat)>, x: (Copy, nat))
    requires x !in done
    ensures |done + {x}| == |done| + 1
  {
  }

  lemma OneMoreShown(t: Tree, s: State, l: Label, k: Kind, done: set<(Copy, nat)>)
    requires Inv(t, s) && Enabled(t, s, l) && KindOf(l) == k != Entering
    requires QueueInOrder(s.nodes[l.u]) && forall h :: h in done ==> Shows(t, s, k, h.0, h.1)
    ensures |Apply(t, s, l).nodes| == |t.parent|
    ensures Shows(t, Apply(t, s, l), k, Handles(t, s, l).0, Handles(t, s, l).1)
    ensures |done + {Handles(t, s, l)}| == |done| + 1
  {
    HandledFirst(t, s, l);
    HandledNow(t, s, l);
    AddNew(done, Handles(t, s, l));
  }

  lemma OneMoreHandled(t: Tree, s: State, l: Label, k: Kind, done: set<(Copy, nat)>)
    requires Inv(t, s) && Enabled(t, s, l) && forall u :: 0 <= u < |s.nodes| ==> QueueInOrder(s.nodes[u])
    requires k != Entering && forall h :: h in done ==> Shows(t, s, k, h.0, h.1)
    ensures |Apply(t, s, l).nodes| == |t.parent|
    ensures var done' := done + if KindOf(l) == k then {Handles(t, s, l)} else {};
            && (forall h :: h in done' ==> Shows(t, Apply(t, s, l), k, h.0, h.1))
            && |done'| == |done| + if KindOf(l) == k then 1 else 0
  {
    ShownStays(t, s, l, k, done);
    if KindOf(l) == k {
      OneMoreShown(t, s, l, k, done);
    }
  }

  lemma AllQueuesInOrder(t: Tree, allowed: iset<Copy>, run: seq<Label>)
    requires WellFormed(t) && Legal(t, allowed, run)
    ensures Inv(t, After(t, allowed, run))
    ensures forall u :: 0 <= u < |After(t, allowed, run).nodes| ==> QueueInOrder(After(t, allowed, run).nodes[u])
  {
    Reachable(t, allowed, run);
    forall u | 0 <= u < |After(t, allowed, run).nodes|
      ensures QueueInOrder(After(t, allowed, run).nodes[u])
    {
      QueuesInOrder(t, allowed, run, u);
    }
  }

  lemma {:induction false} HandledShown(t: Tree, allowed: iset<Copy>, run: seq<Label>, k: Kind)
    requires WellFormed(t) && Legal(t, allowed, run) && k != Entering
    ensures |After(t, allowed, run).nodes| == |t.parent|
    ensures forall h :: h in Handled(t, allowed, run, k) ==> Shows(t, After(t, allowed, run), k, h.0, h.1)
    ensures |Handled(t, allowed, run, k)| == Count(run, k)
  {
    if run != [] {
      var before := run[..|run| - 1];
      HandledShown(t, allowed, before, k);
      AllQueuesInOrder(t, allowed, before);
      OneMoreHandled(t, After(t, allowed, before), run[|run| - 1], k, Handled(t, allowed, before, k));
    }
  }

  // ----- The bound -----

  /** The copies some application got accepted at its own clipboard. */
  ghost function Issued(s: State): set<Copy> {
    set u, it | 0 <= u < |s.nodes| && it in Accepted(s.nodes[u].offered) && it.from.App? :: it.c
  }

  lemma AcceptedIssued(t: Tree, s: State, u: nat, it: Item)
    requires Inv(t, s) && u < |s.nodes| && it in s.nodes[u].offered
    requires it in Accepted(s.nodes[u].offered) || it.from.Link?
    ensures it.c in Issued(s)
  {
    assert Directed(t, u, it) && Caused(s, it);
    if it.from.Link? {
      assert Item(it.c, App(it.c.slave)).from.App?;
    }
  }

  lemma ShownIssued(t: Tree, s: State, k: Kind, c: Copy, u: nat)
    requires Inv(t, s) && Shows(t, s, k, c, u)
    ensures c in Issued(s) && u < |t.parent|
    ensures k.Sending? || k.Delivering? ==> u != c.org
  {
    match k
    case Pushing => PushedIssued(t, s, u, s.nodes[u].pushed, c);
    case Popping => PushedIssued(t, s, u, s.nodes[u].pushed[..Taken(s.nodes[u])], c);
    case Ending => PushedIssued(t, s, u, s.nodes[u].pushed[..Through(s.nodes[u])], c);
    case Delivering =>
      var it :| it in s.nodes[u].offered && it.c == c;
      assert Directed(t, u, it);
      AcceptedIssued(t, s, u, it);
    case Sending =>
      var p := Toward(t, u, c.org);
      assert Adj(t, p, u);
      assert EdgeConserved(s, p, u);
      var it := SentWasPushed(t, s, p, u, c);
      PushedWasAccepted(t, s, p, it);
      AcceptedIssued(t, s, p, it);
  }

  lemma PushedIssued(t: Tree, s: State, u: nat, log: seq<Item>, c: Copy)
    requires Inv(t, s) && u < |s.nodes| && log <= s.nodes[u].pushed && InLog(c, log)
    ensures c in Issued(s)
  {
    var it :| it in log && it.c == c;
    assert it in s.nodes[u].pushed;
    PushedWasAccepted(t, s, u, it);
    AcceptedIssued(t, s, u, it);
  }

  function Upto(n: nat): (s: set<nat>)
    ensures |s| == n && forall u: nat :: u in s <==> u < n
  {
    if n == 0 then {} else Upto(n - 1) + {n - 1}
  }

  lemma {:induction false} SubsetSize(a: set<nat>, b: set<nat>)
    requires a <= b
    ensures |a| <= |b|
  {
    if a != {} {
      var x :| x in a;
      SubsetSize(a - {x}, b - {x});
    }
  }

  ghost predicate Within(pairs: set<(Copy, nat)>, n: nat, skipOrigin: bool) {
    forall p :: p in pairs ==> p.1 < n && (skipOrigin ==> p.0.org < n && p.1 != p.0.org)
  }

  function Places(n: nat, skipOrigin: bool): int {
    if skipOrigin then n - 1 else n
  }

  /** The pairs about one copy are no more than the clipboards they may name. */
  lemma OneFiber(mine: set<(Copy, nat)>, c: Copy, n: nat, skipOrigin: bool)
    requires n > 0 && Within(mine, n, skipOrigin) && forall p :: p in mine ==> p.0 == c
    ensures |mine| <= Places(n, skipOrigin)
  {
    var seconds := set p | p in mine :: p.1;
    SecondsInjective(mine, seconds, c);
    if mine != {} {
      var p :| p in mine;
      SubsetSize(seconds, if skipOrigin then Upto(n) - {c.org} else Upto(n));
    }
  }

  lemma {:induction false} SecondsInjective(mine: set<(Copy, nat)>, seconds: set<nat>, c: Copy)
    requires forall p :: p in mine ==> p.0 == c
    requires seconds == set p | p in mine :: p.1
    ensures |seconds| == |mine|
  {
    if mine != {} {
      var p :| p in mine;
      var rest := mine - {p};
      assert seconds - {p.1} == set q | q in rest :: q.1;
      SecondsInjective(rest, seconds - {p.1}, c);
    }
  }

  lemma {:induction false} FiberBound(pairs: set<(Copy, nat)>, firsts: set<Copy>, n: nat, skipOrigin: bool)
    requires n > 0 && Within(pairs, n, skipOrigin) && forall p :: p in pairs ==> p.0 in firsts
    ensures |pairs| <= |firsts| * Places(n, skipOrigin)
  {
    if firsts == {} {
      assert pairs == {};
    } else {
      var c :| c in firsts;
      var mine := set p | p in pairs && p.0 == c;
      var rest := pairs - mine;
      FiberBound(rest, firsts - {c}, n, skipOrigin);
      OneFiber(mine, c, n, skipOrigin);
      assert pairs == mine + rest;
      assert |pairs| == |mine| + |rest| && |firsts| == |firsts - {c}| + 1;
      AddOne(|firsts - {c}|, Places(n, skipOrigin));
    }
  }

  lemma AddOne(k: nat, m: int)
    ensures (k + 1) * m == k * m + m
  {
  }

  /** The steps of a run that are not applications' copies. */
  function Work(run: seq<Label>): nat {
    Count(run, Pushing) + Count(run, Popping) + Count(run, Sending) + Count(run, Ending) + Count(run, Delivering)
  }

  lemma {:induction false} WorkIsTheRest(run: seq<Label>)
    ensures |run| == Count(run, Entering) + Work(run)
  {
    if run != [] {
      WorkIsTheRest(run[..|run| - 1]);
    }
  }

  lemma KindBound(t: Tree, allowed: iset<Copy>, run: seq<Label>, k: Kind)
    requires WellFormed(t) && Legal(t, allowed, run) && k != Entering
    ensures Count(run, k) <= |Issued(After(t, allowed, run))| * Places(|t.parent|, k.Sending? || k.Delivering?)
  {
    var s := After(t, allowed, run);
    Reachable(t, allowed, run);
    HandledShown(t, allowed, run, k);
    var h := Handled(t, allowed, run, k);
    var skip := k.Sending? || k.Delivering?;
    forall p | p in h
      ensures p.1 < |t.parent| && p.0 in Issued(s) && (skip ==> p.0.org < |t.parent| && p.1 != p.0.org)
    {
      ShownIssued(t, s, k, p.0, p.1);
      IssuedAtNode(t, s, p.0);
    }
    FiberBound(h, Issued(s), |t.parent|, skip);
  }

  lemma IssuedAtNode(t: Tree, s: State, c: Copy)
    requires Inv(t, s) && c in Issued(s)
    ensures IsNode(t, c.org)
  {
    var u, it :| 0 <= u < |s.nodes| && it in Accepted(s.nodes[u].offered) && it.from.App? && it.c == c;
    AcceptedSubset(s.nodes[u].offered, it);
    assert Directed(t, u, it);
  }

  /**
   * The flood ends: with k accepted copies on n clipboards a run makes at most k*(n-1) deliveries,
   * and at most k*(5n-2) steps that are not copies, whatever their order.
   */
  lemma FloodEnds(t: Tree, allowed: iset<Copy>, run: seq<Label>)
    requires WellFormed(t) && Legal(t, allowed, run)
    ensures var k, n := |Issued(After(t, allowed, run))|, |t.parent|;
            && Count(run, Delivering) <= k * (n - 1)
            && Work(run) <= k * (5 * n - 2)
            && |run| == Count(run, Entering) + Work(run)
  {
    KindBound(t, allowed, run, Pushing);
    KindBound(t, allowed, run, Popping);
    KindBound(t, allowed, run, Sending);
    KindBound(t, allowed, run, Ending);
    KindBound(t, allowed, run, Delivering);
    WorkIsTheRest(run);
    FiveKinds(|Issued(After(t, allowed, run))|, |t.parent|);
  }

  lemma FiveKinds(k: nat, n: nat)
    ensures k * (5 * n - 2) == k * n + k * n + k * (n - 1) + k * n + k * (n - 1)
  {
  }

  // ----- Every run can come to rest -----

  /** The step is no send, or its link, which holds up to `cap` packets, has room for one more. */
  ghost predicate HasRoom(s: State, l: Label, cap: nat) {
    l.Send? ==> |Chan(s, l.u, l.v)| < cap
  }

  /**
   * Something is left to do, so some step other than a copy can be taken, though a send blocks on a
   * full link: slaves first empty the links, since pushing never blocks.
   */
  lemma SomeStep(t: Tree, s: State, cap: nat) returns (l: Label)
    requires Inv(t, s) && !Quiescent(t, s) && cap > 0
    ensures Enabled(t, s, l) && !l.Copying? && HasRoom(s, l, cap)
  {
    if u :| 0 <= u < |s.nodes| && s.nodes[u].pend != map[] {
      var f :| f in s.nodes[u].pend;
      l := Push(u, f);
    } else if u, v :| Adj(t, u, v) && Chan(s, u, v) != [] {
      l := Deliver(u, v);
    } else {
      var u :| 0 <= u < |s.nodes| && (s.nodes[u].bc.Busy? || s.nodes[u].queue != []);
      assert NodeShape(t, u, s.nodes[u]);
      l := BroadcasterStep(t, s, u);
    }
  }

  /** With its links empty a broadcaster goes on. */
  lemma BroadcasterStep(t: Tree, s: State, u: nat) returns (l: Label)
    requires |s.nodes| == |t.parent| && u < |s.nodes| && NodeShape(t, u, s.nodes[u])
    requires s.nodes[u].bc.Busy? || s.nodes[u].queue != []
    requires forall v :: Adj(t, u, v) ==> Chan(s, u, v) == []
    ensures Enabled(t, s, l) && !l.Copying? && (l.Send? ==> Chan(s, l.u, l.v) == [])
  {
    if s.nodes[u].bc.Idle? {
      l := Pop(u);
    } else if v :| v in s.nodes[u].bc.todo {
      l := Send(u, v);
    } else {
      l := Done(u);
    }
  }

  lemma ExtendLegal(t: Tree, allowed: iset<Copy>, run: seq<Label>, l: Label)
    requires Legal(t, allowed, run) && Enabled(t, After(t, allowed, run), l) && (l.Copying? ==> l.c in allowed)
    ensures Legal(t, allowed, run + [l])
    ensures After(t, allowed, run + [l]) == Apply(t, After(t, allowed, run), l)
  {
    assert (run + [l])[..|run|] == run;
  }

  lemma AppAcceptedBefore(t: Tree, s: State, l: Label, u: nat, it: Item)
    requires Enabled(t, s, l) && !l.Copying? && u < |s.nodes| && it.from.App?
    requires NodeShape(t, u, s.nodes[u])
    requires it in Accepted(Apply(t, s, l).nodes[u].offered)
    ensures it in Accepted(s.nodes[u].offered)
  {
    StepFrame(t, s, l);
    StepOffers(t, s, l);
    if u == Actor(l) && l.Deliver? {
      AcceptedAppend(s.nodes[u].offered, OfferedItem(s, l));
    }
  }

  lemma IssuedSame(t: Tree, s: State, l: Label)
    requires Shape(t, s) && Enabled(t, s, l) && !l.Copying?
    ensures Issued(Apply(t, s, l)) == Issued(s)
  {
    StepFrame(t, s, l);
    var s' := Apply(t, s, l);
    forall u, it: Item | 0 <= u < |s.nodes| && it.from.App?
      ensures it in Accepted(s.nodes[u].offered) <==> it in Accepted(s'.nodes[u].offered)
    {
      assert NodeShape(t, u, s.nodes[u]);
      if it in Accepted(s.nodes[u].offered) {
        AcceptedGrows(t, s, l, u, it);
      }
      if it in Accepted(s'.nodes[u].offered) {
        AppAcceptedBefore(t, s, l, u, it);
      }
    }
    SameIssued(s, s');
  }

  lemma SameIssued(s: State, s': State)
    requires |s.nodes| == |s'.nodes|
    requires forall u, it: Item :: 0 <= u < |s.nodes| && it.from.App? ==>
               (it in Accepted(s.nodes[u].offered) <==> it in Accepted(s'.nodes[u].offered))
    ensures Issued(s) == Issued(s')
  {
    forall c | c in Issued(s)
      ensures c in Issued(s')
    {
      var u, it :| 0 <= u < |s.nodes| && it in Accepted(s.nodes[u].offered) && it.from.App? && it.c == c;
    }
    forall c | c in Issued(s')
      ensures c in Issued(s)
    {
      var u, it :| 0 <= u < |s'.nodes| && it in Accepted(s'.nodes[u].offered) && it.from.App? && it.c == c;
    }
  }

  lemma WorkGrows(run: seq<Label>, l: Label)
    requires !l.Copying?
    ensures Work(run + [l]) == Work(run) + 1
  {
    assert (run + [l])[..|run|] == run;
  }

  ghost function Budget(t: Tree, s: State): int {
    |Issued(s)| * (5 * |t.parent| - 2)
  }

  lemma WithinBudget(t: Tree, allowed: iset<Copy>, run: seq<Label>)
    requires WellFormed(t) && Legal(t, allowed, run)
    ensures Work(run) <= Budget(t, After(t, allowed, run))
  {
    var s := After(t, allowed, run);
    FloodEnds(t, allowed, run);
    assert Budget(t, s) == |Issued(s)| * (5 * |t.parent| - 2);
  }

  lemma BudgetKept(t: Tree, s: State, l: Label)
    requires Shape(t, s) && Enabled(t, s, l) && !l.Copying?
    ensures Budget(t, Apply(t, s, l)) == Budget(t, s)
  {
    IssuedSame(t, s, l);
  }

  lemma OneStepOn(t: Tree, allowed: iset<Copy>, run: seq<Label>, cap: nat) returns (l: Label)
    requires WellFormed(t) && Legal(t, allowed, run) && !Quiescent(t, After(t, allowed, run)) && cap > 0
    ensures !l.Copying? && HasRoom(After(t, allowed, run), l, cap) && Legal(t, allowed, run + [l])
    ensures Budget(t, After(t, allowed, run + [l])) == Budget(t, After(t, allowed, run))
  {
    Reachable(t, allowed, run);
    l := SomeStep(t, After(t, allowed, run), cap);
    ExtendLegal(t, allowed, run, l);
    BudgetKept(t, After(t, allowed, run), l);
  }

  /** From step `k` on no packet was sent into a full link. */
  ghost predicate RoomFrom(t: Tree, allowed: iset<Copy>, run: seq<Label>, k: nat, cap: nat)
    requires Legal(t, allowed, run)
  {
    |run| <= k ||
    (var before, l := run[..|run| - 1], run[|run| - 1];
     HasRoom(After(t, allowed, before), l, cap) && RoomFrom(t, allowed, before, k, cap))
  }

  lemma {:induction false} RoomShift(
    t: Tree, allowed: iset<Copy>, run: seq<Label>, l: Label, longer: seq<Label>, cap: nat)
    requires Legal(t, allowed, run + [l]) && Legal(t, allowed, longer) && run + [l] <= longer
    requires Legal(t, allowed, run) && HasRoom(After(t, allowed, run), l, cap)
    requires RoomFrom(t, allowed, longer, |run| + 1, cap)
    ensures RoomFrom(t, allowed, longer, |run|, cap)
    decreases |longer|
  {
    var before := longer[..|longer| - 1];
    if |longer| == |run| + 1 {
      assert before == run && longer[|run|] == l;
    } else {
      assert run + [l] <= before;
      RoomShift(t, allowed, run, l, before, cap);
    }
  }

  /**
   * From every reachable state the packets in flight can be worked off without any new copy, on links
   * of any capacity of at least one packet.
   */
  lemma {:induction false} ComesToRest(t: Tree, allowed: iset<Copy>, run: seq<Label>, cap: nat)
    returns (longer: seq<Label>)
    requires WellFormed(t) && Legal(t, allowed, run) && cap > 0
    ensures run <= longer && Legal(t, allowed, longer) && Quiescent(t, After(t, allowed, longer))
    ensures forall i :: |run| <= i < |longer| ==> !longer[i].Copying?
    ensures RoomFrom(t, allowed, longer, |run|, cap)
    decreases Budget(t, After(t, allowed, run)) - Work(run)
  {
    if Quiescent(t, After(t, allowed, run)) {
      longer := run;
    } else {
      var l := OneStepOn(t, allowed, run, cap);
      WorkGrows(run, l);
      WithinBudget(t, allowed, run + [l]);
      longer := ComesToRest(t, allowed, run + [l], cap);
      RoomShift(t, allowed, run, l, longer, cap);
    }
  }
}
