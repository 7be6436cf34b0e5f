/**
 * A tree of clipboards.  A clipboard connects to at most one parent, once, before it accepts
 * children of its own (src/clipboard.c, src/interfaces/clipif.c), so numbering the clipboards in
 * the order they joined gives every one but the root, number 0, a parent with a smaller number.
 */
module Topology {

  /** `parent[0]` is not used. */
  datatype Tree = Tree(parent: seq<nat>)

  ghost predicate WellFormed(t: Tree) {
    |t.parent| > 0 && forall i :: 0 < i < |t.parent| ==> t.parent[i] < i
  }

  ghost predicate IsNode(t: Tree, u: nat) {
    u < |t.parent|
  }

  ghost predicate Adj(t: Tree, u: nat, v: nat) {
    IsNode(t, u) && IsNode(t, v) && ((v != 0 && t.parent[v] == u) || (u != 0 && t.parent[u] == v))
  }

  /** `a` lies on the way from `x` up to the root, `x` itself included. */
  ghost predicate Above(t: Tree, a: nat, x: nat)
    requires WellFormed(t) && IsNode(t, x)
  {
    a == x || (x != 0 && Above(t, a, t.parent[x]))
  }

  lemma {:induction false} AboveIsSmaller(t: Tree, a: nat, x: nat)
    requires WellFormed(t) && IsNode(t, x) && Above(t, a, x)
    ensures a <= x
  {
    if a != x {
      AboveIsSmaller(t, a, t.parent[x]);
    }
  }

  lemma {:induction false} RootAbove(t: Tree, x: nat)
    requires WellFormed(t) && IsNode(t, x)
    ensures Above(t, 0, x)
  {
    if x != 0 {
      RootAbove(t, t.parent[x]);
    }
  }

  /** The child of `a` under which `x` lies. */
  ghost function ChildToward(t: Tree, a: nat, x: nat): (c: nat)
    requires WellFormed(t) && IsNode(t, x) && Above(t, a, x) && a != x
    ensures IsNode(t, c) && c != 0 && t.parent[c] == a && Above(t, c, x)
  {
    if t.parent[x] == a then x else ChildToward(t, a, t.parent[x])
  }

  /** The neighbour of `u` on the way to `o`. */
  ghost function Toward(t: Tree, u: nat, o: nat): (v: nat)
    requires WellFormed(t) && IsNode(t, u) && IsNode(t, o) && u != o
    ensures Adj(t, u, v)
  {
    if Above(t, u, o) then ChildToward(t, u, o) else RootAbove(t, o); t.parent[u]
  }

  lemma {:induction false} ChildUnique(t: Tree, a: nat, x: nat, c: nat)
    requires WellFormed(t) && IsNode(t, x) && IsNode(t, c) && c != 0
    requires t.parent[c] == a && Above(t, c, x)
    ensures Above(t, a, x) && a != x && ChildToward(t, a, x) == c
  {
    AboveIsSmaller(t, c, x);
    if c == x {
      assert Above(t, a, t.parent[x]);
    } else {
      ChildUnique(t, a, t.parent[x], c);
      AboveIsSmaller(t, a, t.parent[x]);
    }
  }

  /**
   * Going from `u` to any neighbour that is not on the way to `o` leads away from `o`: from there
   * the way to `o` is back through `u`.  This is what makes the flood rule "to everyone except
   * where it came from" safe on a tree.
   */
  lemma AwayLeadsBack(t: Tree, u: nat, v: nat, o: nat)
    requires WellFormed(t) && Adj(t, u, v) && IsNode(t, o)
    requires u != o ==> Toward(t, u, o) != v
    ensures v != o && Toward(t, v, o) == u
  {
    if u != 0 && t.parent[u] == v {
      ChildUnique(t, v, o, u);
    } else {
      if Above(t, v, o) {
        ChildUnique(t, u, o, v);
        assert false;
      }
    }
  }

  /** Two neighbours are never each on the other's way to `o`. */
  lemma NotBothWays(t: Tree, u: nat, v: nat, o: nat)
    requires WellFormed(t) && Adj(t, u, v) && IsNode(t, o) && u != o && v != o
    ensures !(Toward(t, v, o) == u && Toward(t, u, o) == v)
  {
    RootAbove(t, o);
    if u != 0 && t.parent[u] == v {
      assert v == 0 || t.parent[v] < v < u;
    } else {
      assert u == 0 || t.parent[u] < u < v;
    }
  }
}
