/** The register a region behaves like is one region of the memory of module Clmem. */
module RegionRegister {
  import opened Common
  import opened Clmem
  import opened RegionMachine
  import opened RegionLinear

  /** A call as an offer to region 0; a get is an offer of nothing. */
  function AsOffer(c: Call): Offer {
    match c
    case Get(_) => Offer(0, [], 0)
    case Put(data, stamp) => Offer(0, data, stamp)
  }

  function AsOffers(log: seq<Event>): (os: seq<Offer>)
    ensures |os| == |log| && forall i :: 0 <= i < |log| ==> os[i] == AsOffer(log[i].call)
  {
    seq(|log|, i requires 0 <= i < |log| => AsOffer(log[i].call))
  }

  predicate ProperCall(c: Call) {
    c.Put? ==> c.data != []
  }

  predicate AllProper(log: seq<Event>) {
    forall i :: 0 <= i < |log| ==> ProperCall(log[i].call)
  }

  lemma {:induction false} ReplayIsFold(log: seq<Event>)
    requires AllProper(log)
    ensures Replay(log) == Fold(AsOffers(log))[0]
  {
    if log != [] {
      var before := log[..|log| - 1];
      ReplayIsFold(before);
      assert AsOffers(log)[..|log| - 1] == AsOffers(before);
    }
  }

  // ----- Only puts of some bytes come into the log -----

  ghost predicate Proper(s: Region) {
    && AllProper(s.log)
    && forall t :: t in s.body && !s.body[t].Out? ==> ProperCall(CallOf(s.body[t]))
  }

  lemma ProperStep(s: Region, t: nat, m: Move)
    requires Proper(s) && Can(s, t, m)
    ensures Proper(Do(s, t, m))
  {
    LogFrame(s, t, m);
    OwnProper(s, t, m);
    OthersProper(s, t, m);
  }

  lemma OwnProper(s: Region, t: nat, m: Move)
    requires Can(s, t, m) && (!s.body[t].Out? ==> ProperCall(CallOf(s.body[t])))
    ensures t in Do(s, t, m).body
    ensures !Do(s, t, m).body[t].Out? ==> ProperCall(CallOf(Do(s, t, m).body[t]))
  {
  }

  lemma OthersProper(s: Region, t: nat, m: Move)
    requires Can(s, t, m)
    ensures Do(s, t, m).body == s.body[t := Do(s, t, m).body[t]]
  {
  }

  lemma {:induction false} LogIsProper(start: Region, steps: seq<Step>)
    requires Init(start) && Runs(start, steps)
    ensures Proper(After(start, steps))
  {
    if steps != [] {
      LogIsProper(start, steps[..|steps| - 1]);
      ProperStep(After(start, steps[..|steps| - 1]), steps[|steps| - 1].tid, steps[|steps| - 1].move);
    }
  }

  /**
   * A finished mem_put returned its size exactly when no put with an entry before its own has a larger
   * stamp, and 0 otherwise.
   */
  lemma PutTakenIff(start: Region, steps: seq<Step>, i: nat)
    requires Init(start) && Runs(start, steps)
    requires i < |After(start, steps).done| && After(start, steps).done[i].call.Put?
    ensures var s := After(start, steps); var f := s.done[i];
            && f.at < |s.log| && s.log[f.at].call == f.call
            && f.result == Placed(if forall j :: 0 <= j < f.at && s.log[j].call.Put? ==>
                                                   s.log[j].call.stamp <= f.call.stamp
                                  then |f.call.data| else 0)
  {
    Reachable(start, steps);
    LogIsProper(start, steps);
    var s := After(start, steps);
    EntryAnswers(s, i);
    PutAnswers(s.log, s.done[i].at);
  }

  lemma EntryAnswers(s: Region, i: nat)
    requires LogPart(s) && i < |s.done|
    ensures var f := s.done[i]; f.at < |s.log| && s.log[f.at].call == f.call && s.log[f.at].result == f.result
    ensures Sequential(s.log)
  {
    assert FinishedOk(s, s.done[i]);
  }

  lemma PutAnswers(log: seq<Event>, k: nat)
    requires Sequential(log) && AllProper(log) && k < |log| && log[k].call.Put?
    ensures log[k].result == Placed(if forall j :: 0 <= j < k && log[j].call.Put? ==>
                                                     log[j].call.stamp <= log[k].call.stamp
                                    then |log[k].call.data| else 0)
  {
    var before, o := AsOffers(log[..k]), AsOffer(log[k].call);
    ReplayIsFold(log[..k]);
    AdmittedIff(before, o);
    if forall j :: 0 <= j < k && log[j].call.Put? ==> log[j].call.stamp <= log[k].call.stamp {
      assert Newest(before, o);
    } else {
      var j :| 0 <= j < k && log[j].call.Put? && log[j].call.stamp > log[k].call.stamp;
      assert before[j] == AsOffer(log[j].call);
      assert !Newest(before, o);
    }
  }
}
