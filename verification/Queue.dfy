/**
 * The linked queue of src/thread/queue.c, one caller at a time: `first`, `last`, `next` and the
 * element count, kept consistent with a plain sequence.
 */
module Queue {
  class QueueNode<T> {
    var next: QueueNode?<T>
    var data: T

    constructor (data: T)
      ensures this.data == data && next == null
    {
      this.data := data;
      next := null;
    }
  }

  datatype Popped<T> = Element(value: T) | Ended | WouldWait

  class Queue<T> {
    var first: QueueNode?<T>
    var last: QueueNode?<T>
    var nElements: nat
    var terminate: bool

    /** Whether the queue's mutex is left locked between calls. */
    var stuck: bool

    /** The nodes from first to last. */
    ghost var spine: seq<QueueNode<T>>

    ghost predicate Valid()
      reads this, spine
    {
      && nElements == |spine|
      && (forall i, j :: 0 <= i < j < |spine| ==> spine[i] != spine[j])
      && (if spine == [] then first == null && last == null
          else first == spine[0] && last == spine[|spine| - 1])
      && (forall i :: 0 <= i < |spine| - 1 ==> spine[i].next == spine[i + 1])
      && (spine != [] ==> spine[|spine| - 1].next == null)
    }

    ghost function Contents(): seq<T>
      reads this, spine
    {
      seq(|spine|, i requires 0 <= i < |spine| reads this, spine => spine[i].data)
    }

    /** queue_create */
    constructor ()
      ensures Valid() && Contents() == [] && !terminate && !stuck && spine == []
    {
      first, last := null, null;
      nElements := 0;
      terminate, stuck := false, false;
      spine := [];
    }

    /**
     * queue_push.  Once the queue is terminated the element is refused, and the mutex is not
     * released on that path.
     */
    method Push(data: T) returns (err: int)
      requires Valid() && !stuck
      modifies this, last
      ensures Valid() && terminate == old(terminate)
      ensures old(terminate) ==> err == -1 && Contents() == old(Contents()) && stuck
      ensures !old(terminate) ==> err == 0 && Contents() == old(Contents()) + [data] && !stuck
      ensures old(terminate) ==> spine == old(spine)
      ensures !old(terminate) ==> |spine| > 0 && spine[..|spine| - 1] == old(spine) && fresh(spine[|spine| - 1])
    {
      var node := new QueueNode(data);
      if terminate {
        stuck := true;
        return -1;
      }
      if last != null {
        last.next := node;
      }
      last := node;
      if first == null {
        first := node;
      }
      nElements := nElements + 1;
      spine := spine + [node];
      return 0;
    }

    /** queue_terminate */
    method Terminate()
      requires Valid() && !stuck
      modifies this`terminate
      ensures Valid() && terminate && Contents() == old(Contents())
    {
      terminate := true;
    }

    /** queue_pop up to the point where it would sleep; what is left of a terminated queue is still handed out. */
    method Pop() returns (r: Popped<T>)
      requires Valid() && !stuck
      modifies this
      ensures Valid() && terminate == old(terminate) && !stuck
      ensures if old(Contents()) != [] then r == Element(old(Contents())[0]) && Contents() == old(Contents())[1..]
              else r == (if terminate then Ended else WouldWait) && Contents() == []
      ensures spine == if old(spine) == [] then [] else old(spine)[1..]
    {
      if nElements == 0 && !terminate {
        return WouldWait;
      }
      if nElements == 0 && terminate {
        return Ended;
      }
      var aux := first;
      first := first.next;
      if aux == last {
        last := aux.next;
      }
      nElements := nElements - 1;
      spine := spine[1..];
      r := Element(aux.data);
    }

    /** The nodes reachable from `first` by `next` are the spine: the list has no cycle and ends at `last`. */
    lemma Walk(k: nat)
      requires Valid() && k < |spine|
      ensures Follow(first, k) == spine[k]
      ensures Follow(first, k).next == null <==> k == nElements - 1
      ensures Follow(first, k) == last <==> k == nElements - 1
    {
      FollowFrom(0, k);
      assert k < |spine| - 1 ==> spine[k].next == spine[k + 1];
    }

    lemma {:induction false} FollowFrom(i: nat, k: nat)
      requires Valid() && i + k < |spine|
      ensures Follow(spine[i], k) == spine[i + k]
      decreases k
    {
      if k > 0 {
        assert spine[i].next == spine[i + 1];
        FollowFrom(i + 1, k - 1);
      }
    }

    /** The node `k` links after `n`, as far as there are links. */
    ghost function Follow(n: QueueNode?<T>, k: nat): QueueNode?<T>
      reads this, spine
      requires Valid() && (n == null || n in spine)
    {
      if n == null || k == 0 then n
      else Step(n); Follow(n.next, k - 1)
    }

    lemma Step(n: QueueNode<T>)
      requires Valid() && n in spine
      ensures n.next == null || n.next in spine
    {
      var i :| 0 <= i < |spine| && spine[i] == n;
      if i < |spine| - 1 {
        assert spine[i].next == spine[i + 1];
      }
    }
  }
}
