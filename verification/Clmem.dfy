/**
 * The clipboard's memory: ten regions, each holding the bytes and the stamp of one accepted copy
 * (src/mem/clmem.c).  `PutAll` says what one call of mem_put does to the whole memory; the class
 * `Memory` computes it in place; `Fold` is a series of calls from the empty memory.
 */
module Clmem {
  import opened Common

  const N_REGIONS: nat := 10

  /** One entry of the `zones` array; `data` is None while the C pointer is NULL. */
  datatype Zone = Zone(data: Option<seq<byte>>, size: nat, stamp: u32)

  /** The arguments of one mem_put call. */
  datatype Offer = Offer(region: int, data: seq<byte>, stamp: u32)

  const EMPTY_ZONE := Zone(None, 0, 0)

  type Zones = zs: seq<Zone> | |zs| == N_REGIONS witness seq(N_REGIONS, _ => EMPTY_ZONE)

  function EmptyZones(): Zones {
    seq(N_REGIONS, _ => EMPTY_ZONE)
  }

  /** The two argument checks at the head of mem_put. */
  predicate ValidOffer(o: Offer) {
    0 <= o.region < N_REGIONS && |o.data| > 0
  }

  /** A zone takes a stamp unless it holds data with a larger one; equal stamps are taken. */
  predicate ZoneTakes(z: Zone, stamp: u32) {
    z.data.None? || z.stamp <= stamp
  }

  predicate Admits(zs: Zones, o: Offer) {
    ValidOffer(o) && ZoneTakes(zs[o.region], o.stamp)
  }

  function PutZone(data: seq<byte>, stamp: u32): Zone {
    Zone(Some(data), |data|, stamp)
  }

  function PutAll(zs: Zones, o: Offer): Zones {
    if Admits(zs, o) then zs[o.region := PutZone(o.data, o.stamp)] else zs
  }

  /** The bytes mem_get hands out for a buffer of `size` bytes, before mem_finish. */
  function GetZone(z: Zone, size: nat): seq<byte> {
    match z.data
    case None => []
    case Some(d) => d[..Min(size, |d|)]
  }

  function Fold(os: seq<Offer>): Zones {
    if os == [] then EmptyZones() else PutAll(Fold(os[..|os| - 1]), os[|os| - 1])
  }

  /** Offer `i` is a put of some bytes to region `r`, which is one of the ten. */
  predicate At(os: seq<Offer>, r: int, i: int) {
    0 <= i < |os| && 0 <= r < 10 && os[i].region == r && os[i].data != []
  }

  /** Offer `w` is the latest, in call order, among the valid puts to `r` with the largest stamp. */
  ghost predicate Wins(os: seq<Offer>, r: int, w: int) {
    && At(os, r, w)
    && (forall j :: At(os, r, j) ==> os[j].stamp <= os[w].stamp)
    && (forall j :: At(os, r, j) && j > w ==> os[j].stamp < os[w].stamp)
  }

  /**
   * Last writer wins: after any series of calls a region holds the winner's bytes, size and stamp,
   * and it is empty exactly when no valid put to it was made.
   */
  lemma {:induction false} FoldHoldsWinner(os: seq<Offer>, r: nat) returns (w: int)
    requires r < 10
    ensures w == -1 ==> Fold(os)[r] == Zone(None, 0, 0) && forall j :: !At(os, r, j)
    ensures w != -1 ==> Wins(os, r, w) && Fold(os)[r] == Zone(Some(os[w].data), |os[w].data|, os[w].stamp)
  {
    if os == [] {
      w := -1;
    } else {
      var p, o := os[..|os| - 1], os[|os| - 1];
      w := FoldHoldsWinner(p, r);
      AtBefore(os, r);
      if At(os, r, |p|) && (w == -1 || os[w].stamp <= o.stamp) {
        w := |p|;
      }
    }
  }

  lemma AtBefore(os: seq<Offer>, r: nat)
    requires os != []
    ensures forall j :: At(os, r, j) <==> At(os[..|os| - 1], r, j) || (j == |os| - 1 && At(os, r, j))
    ensures forall j :: 0 <= j < |os| - 1 ==> os[..|os| - 1][j] == os[j]
  {
  }

  /** No earlier put of some bytes to the same region has a larger stamp. */
  predicate Newest(os: seq<Offer>, o: Offer) {
    forall j :: 0 <= j < |os| && os[j].region == o.region && os[j].data != [] ==> os[j].stamp <= o.stamp
  }

  /**
   * A put is accepted exactly when it is made to one of the ten regions, has some bytes, and no earlier
   * such put to its region had a larger stamp.
   */
  lemma AdmittedIff(os: seq<Offer>, o: Offer)
    ensures Admits(Fold(os), o) <==> 0 <= o.region < 10 && o.data != [] && Newest(os, o)
  {
    if 0 <= o.region < 10 && o.data != [] {
      var w := FoldHoldsWinner(os, o.region);
      if Newest(os, o) {
        assert w != -1 ==> At(os, o.region, w);
      } else {
        var j :| 0 <= j < |os| && os[j].region == o.region && os[j].data != [] && os[j].stamp > o.stamp;
        assert At(os, o.region, j);
      }
    }
  }

  /** What an accepted put leaves in its region. */
  lemma AcceptedHeld(os: seq<Offer>, o: Offer)
    requires 0 <= o.region < 10 && o.data != [] && Newest(os, o)
    ensures Fold(os + [o])[o.region] == Zone(Some(o.data), |o.data|, o.stamp)
  {
    AdmittedIff(os, o);
    assert (os + [o])[..|os|] == os;
  }

  /** A winner is unique, so "the region holds a winner" fixes the region's contents. */
  lemma WinnerUnique(os: seq<Offer>, r: int, v: int, w: int)
    requires Wins(os, r, v) && Wins(os, r, w)
    ensures v == w
  {
    assert At(os, r, v) && At(os, r, w);
  }

  /** Stamps held by a region never decrease, and a region once filled stays filled. */
  lemma {:induction false} StampsNeverDecrease(os: seq<Offer>, more: seq<Offer>, r: nat)
    requires r < N_REGIONS
    ensures Fold(os)[r].data.Some? ==>
              Fold(os + more)[r].data.Some? && Fold(os)[r].stamp <= Fold(os + more)[r].stamp
  {
    if more == [] {
      assert os + more == os;
    } else {
      var m, o := more[..|more| - 1], more[|more| - 1];
      assert os + more == (os + m) + [o];
      assert (os + more)[..|os + m|] == os + m;
      StampsNeverDecrease(os, m, r);
    }
  }

  /** A put leaves every other region as it was. */
  lemma OtherRegionsKept(zs: Zones, o: Offer, r: nat)
    requires r < N_REGIONS && r != o.region
    ensures PutAll(zs, o)[r] == zs[r]
  {
  }

  datatype Fetched = Filled(n: nat) | Faults

  /** The module's global `mem` with its calls, one caller at a time. */
  class Memory {
    const zones: array<Zone>
    var finished: bool

    /** The puts made, since mem_finish if that was called. */
    ghost var puts: seq<Offer>

    /**
     * A zone's size is the length of its data, which mem_finish may have dropped; and the zones hold
     * what the puts since then leave.
     */
    ghost predicate Valid()
      reads this, zones
    {
      && zones.Length == 10
      && (forall r :: 0 <= r < 10 ==> ZoneConsistent(zones[r], finished))
      && (forall r :: 0 <= r < 10 ==> Holds(zones[r], Fold(puts)[r]))
    }

    constructor ()
      ensures Valid() && fresh(zones) && !finished && puts == []
      ensures zones[..] == Fold([])
    {
      zones := new Zone[N_REGIONS](_ => EMPTY_ZONE);
      finished, puts := false, [];
    }

    /** mem_put, also after mem_finish: the number of bytes placed, 0 when the offer is refused. */
    method Put(region: int, data: seq<byte>, stamp: u32) returns (placed: nat)
      requires Valid()
      modifies this`puts, zones
      ensures Valid() && puts == old(puts) + [Offer(region, data, stamp)]
      ensures placed == if 0 <= region < 10 && data != [] && Newest(old(puts), Offer(region, data, stamp))
                        then |data| else 0
      ensures zones[..] == if placed > 0 then old(zones[..])[region := Zone(Some(data), |data|, stamp)]
                           else old(zones[..])
      ensures zones[..] == PutAll(old(zones[..]), Offer(region, data, stamp))
    {
      ghost var o := Offer(region, data, stamp);
      AdmittedIff(puts, o);
      assert (puts + [o])[..|puts|] == puts;
      puts := puts + [o];
      if !(0 <= region < N_REGIONS) { return 0; }
      if !(|data| > 0) { return 0; }
      if zones[region].data != None {
        if zones[region].stamp > stamp { return 0; }
      }
      zones[region] := Zone(Some(data), |data|, stamp);
      return |data|;
    }

    /**
     * mem_get: copies the leading bytes of a region over the front of the caller's buffer.  After
     * mem_finish it copies from NULL where a size was kept and no put has come since.
     */
    method Get(region: int, buffer: array<byte>, size: nat) returns (r: Fetched)
      requires Valid() && size <= buffer.Length
      modifies buffer
      ensures r.Faults? <==>
                0 <= region < N_REGIONS && zones[region].data.None? && Min(size, zones[region].size) > 0
      ensures r.Faults? ==> finished && buffer[..] == old(buffer[..])
      ensures r.Filled? ==>
                && r.n == (if 0 <= region < N_REGIONS then |GetZone(zones[region], size)| else 0)
                && r.n <= size
                && (0 <= region < N_REGIONS ==> buffer[..r.n] == GetZone(zones[region], size))
                && buffer[r.n..] == old(buffer[r.n..])
    {
      if !(0 <= region < N_REGIONS) { return Filled(0); }
      var n := Min(size, zones[region].size);
      if n != 0 {
        if zones[region].data.None? { return Faults; }
        var d := zones[region].data.value;
        var i := 0;
        while i < n
          invariant 0 <= i <= n
          invariant buffer[..i] == d[..i]
          invariant buffer[i..] == old(buffer[i..])
        {
          buffer[i] := d[i];
          i := i + 1;
          assert buffer[..i] == d[..i];
        }
      }
      return Filled(n);
    }

    /** mem_finish: drops every buffer but keeps the sizes and the stamps. */
    method Finish()
      requires Valid()
      modifies this, zones
      ensures Valid() && finished && puts == []
      ensures forall r :: 0 <= r < N_REGIONS ==> zones[r] == old(zones[r]).(data := None)
    {
      var i := 0;
      while i < N_REGIONS
        invariant 0 <= i <= N_REGIONS
        invariant forall r :: 0 <= r < i ==> zones[r] == old(zones[r]).(data := None)
        invariant forall r :: i <= r < N_REGIONS ==> zones[r] == old(zones[r])
      {
        zones[i] := zones[i].(data := None);
        i := i + 1;
      }
      finished, puts := true, [];
    }
  }

  /** The zone holds the same bytes and stamp; without bytes, its size and stamp do not matter. */
  predicate Holds(z: Zone, expected: Zone) {
    if expected.data.None? then z.data.None? else z == expected
  }

  predicate ZoneConsistent(z: Zone, finished: bool) {
    match z.data
    case None => !finished ==> z.size == 0
    case Some(d) => |d| == z.size && |d| > 0
  }
}
