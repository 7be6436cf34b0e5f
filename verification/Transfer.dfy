/**
 * The two transfer loops of src/utils/packet.c (and their copies in Library/client_api.c) over a
 * socket whose kernel side may take or hand out fewer bytes than asked, or fail, at every call.
 */
module Transfer {
  import opened Common

  /**
   * `plan` says what the next calls do: a positive entry limits the bytes moved, any other makes
   * the call fail.  When it is used up the connection is gone.
   */
  class Socket {
    var sent: seq<byte>
    var incoming: seq<byte>
    var plan: seq<int>

    constructor (incoming: seq<byte>, plan: seq<int>)
      ensures sent == [] && this.incoming == incoming && this.plan == plan
    {
      sent, this.incoming, this.plan := [], incoming, plan;
    }

    method Send(buf: seq<byte>) returns (ret: int)
      requires |buf| > 0
      modifies this`sent, this`plan
      ensures plan == Next(old(plan))
      ensures ret == if Fails(old(plan)) then -1 else Min(old(plan)[0], |buf|)
      ensures sent == old(sent) + if ret == -1 then [] else buf[..ret]
    {
      if plan == [] || plan[0] < 1 {
        ret := -1;
      } else {
        ret := Min(plan[0], |buf|);
        sent := sent + buf[..ret];
      }
      plan := Next(plan);
    }

    /** recv into the front of `buf`; 0 once the peer is gone. */
    method Recv(buf: array<byte>, size: nat) returns (ret: int)
      requires 0 < size <= buf.Length
      modifies this`incoming, this`plan, buf
      ensures plan == Next(old(plan))
      ensures ret == if Fails(old(plan)) then -1 else Min(Min(old(plan)[0], size), |old(incoming)|)
      ensures ret < 1 ==> buf[..] == old(buf[..]) && incoming == old(incoming)
      ensures ret >= 1 ==> incoming == old(incoming)[ret..] && buf[..] == old(incoming)[..ret] + old(buf[..])[ret..]
    {
      if plan == [] || plan[0] < 1 {
        ret := -1;
      } else {
        ret := Min(Min(plan[0], size), |incoming|);
        forall i | 0 <= i < ret {
          buf[i] := incoming[i];
        }
        incoming := incoming[ret..];
      }
      plan := Next(plan);
    }
  }

  predicate Fails(plan: seq<int>) {
    plan == [] || plan[0] < 1
  }

  function Next(plan: seq<int>): seq<int> {
    if plan == [] then [] else plan[1..]
  }

  /** The number of bytes the kernel takes before it fails, of `left` to be sent. */
  function Taken(plan: seq<int>, left: nat): (k: nat)
    ensures k <= left
  {
    if left == 0 || Fails(plan) then 0
    else var r := Min(plan[0], left); r + Taken(plan[1..], left - r)
  }

  /** What sending `left` bytes leaves of the plan. */
  function PlanAfter(plan: seq<int>, left: nat): seq<int> {
    if left == 0 then plan
    else if Fails(plan) then Next(plan)
    else PlanAfter(plan[1..], left - Min(plan[0], left))
  }

  /**
   * sendData: all the bytes in order, or -1 and the strict prefix the kernel took before it failed.
   */
  method SendData(sock: Socket, buf: seq<byte>) returns (ret: int)
    modifies sock`sent, sock`plan
    ensures ret == if Taken(old(sock.plan), |buf|) == |buf| then |buf| else -1
    ensures sock.sent == old(sock.sent) + buf[..Taken(old(sock.plan), |buf|)]
    ensures sock.plan == PlanAfter(old(sock.plan), |buf|)
  {
    var sendBytes := 0;
    while sendBytes < |buf|
      invariant 0 <= sendBytes <= |buf|
      invariant sock.sent == old(sock.sent) + buf[..sendBytes]
      invariant Taken(old(sock.plan), |buf|) == sendBytes + Taken(sock.plan, |buf| - sendBytes)
      invariant PlanAfter(old(sock.plan), |buf|) == PlanAfter(sock.plan, |buf| - sendBytes)
    {
      ghost var at := sendBytes;
      var r := sock.Send(buf[sendBytes..]);
      if r == -1 {
        return -1;
      }
      sendBytes := sendBytes + r;
      assert buf[..at] + buf[at..][..r] == buf[..sendBytes];
    }
    return sendBytes;
  }

  /** What recvData leaves: its return value, the buffer, the bytes not yet received, the plan. */
  datatype Received = Received(ret: int, buf: seq<byte>, rest: seq<byte>, plan: seq<int>)

  /** The loop as it is written: every call asks for `size` bytes at the start of the buffer. */
  function RecvLoop(incoming: seq<byte>, plan: seq<int>, buf: seq<byte>, size: nat, got: nat): Received
    requires size <= |buf|
    decreases size - got
  {
    if got >= size then Received(got, buf, incoming, plan)
    else if Fails(plan) then Received(-1, buf, incoming, Next(plan))
    else
      var r := Min(Min(plan[0], size), |incoming|);
      if r < 1 then Received(r, buf, incoming, plan[1..])
      else RecvLoop(incoming[r..], plan[1..], incoming[..r] + buf[r..], size, got + r)
  }

  method RecvData(sock: Socket, buf: array<byte>, size: nat) returns (ret: int)
    requires size <= buf.Length
    modifies sock`incoming, sock`plan, buf
    ensures RecvLoop(old(sock.incoming), old(sock.plan), old(buf[..]), size, 0) ==
            Received(ret, buf[..], sock.incoming, sock.plan)
  {
    var recvBytes := 0;
    while recvBytes < size
      invariant RecvLoop(old(sock.incoming), old(sock.plan), old(buf[..]), size, 0) ==
                RecvLoop(sock.incoming, sock.plan, buf[..], size, recvBytes)
      invariant 0 <= recvBytes
      decreases size - recvBytes
    {
      var r := sock.Recv(buf, size);
      if r < 1 {
        return r;
      }
      recvBytes := recvBytes + r;
    }
    return recvBytes;
  }

  /** recvData does its job when `ahead` bytes or more are coming: the next `size` of them, and no more taken. */
  ghost predicate ReceivesAll(size: nat, plan: seq<int>, ahead: nat)
    requires ahead >= size
  {
    forall incoming, buf :: |incoming| >= ahead && |buf| == size ==>
      RecvLoop(incoming, plan, buf, size, 0) == Received(size, incoming[..size], incoming[size..], Next(plan))
  }

  /**
   * However much is coming, recvData does its job exactly when the first recv delivers everything
   * asked for, which is what MSG_WAITALL normally does: after a short one the loop starts over at
   * the front.
   */
  lemma ReceivesAllIff(size: nat, plan: seq<int>, ahead: nat)
    requires ahead >= size > 0
    ensures ReceivesAll(size, plan, ahead) <==> plan != [] && plan[0] >= size
  {
    if plan != [] && plan[0] >= size {
      forall incoming, buf: seq<byte> | |incoming| >= ahead && |buf| == size
        ensures RecvLoop(incoming, plan, buf, size, 0) == Received(size, incoming[..size], incoming[size..], Next(plan))
      {
        assert incoming[..size] + buf[size..] == incoming[..size];
      }
    } else {
      var incoming: seq<byte> := [1] + Zeros(ahead);
      var buf := Zeros(size);
      var out := RecvLoop(incoming, plan, buf, size, 0);
      if !Fails(plan) {
        var r := plan[0];
        ZerosWin(incoming[r..], plan[1..], incoming[..r] + buf[r..], size, r);
        assert incoming[..size][0] == 1;
      }
      assert out != Received(size, incoming[..size], incoming[size..], Next(plan));
    }
  }

  function Zeros(n: nat): seq<byte> {
    seq(n, _ => 0)
  }

  /** From here on only zeros arrive, and they land on the buffer's first byte. */
  lemma {:induction false} ZerosWin(incoming: seq<byte>, plan: seq<int>, buf: seq<byte>, size: nat, got: nat)
    requires 0 < got < size == |buf| && forall i :: 0 <= i < |incoming| ==> incoming[i] == 0
    ensures var out := RecvLoop(incoming, plan, buf, size, got);
            |out.buf| == size && (out.ret == size ==> out.buf[0] == 0)
  {
    if !Fails(plan) {
      var r := Min(Min(plan[0], size), |incoming|);
      if 1 <= r && got + r < size {
        ZerosWin(incoming[r..], plan[1..], incoming[..r] + buf[r..], size, got + r);
      }
    }
  }
}
