/** Guarantees over every run of the pipeline, at the grain of its locks. */
module PipelineSafety {
  import opened Events
  import opened MonitorCore
  import opened Pipeline
  import opened PipelineInvariants
  import D = Debounce
  import DebounceGuarantees

  ghost predicate Reaches(configuredAttempts: int, interval: int, acts: seq<Action>, s: Sys) {
    Legal(Init(configuredAttempts, interval), acts) && s == Run(Init(configuredAttempts, interval), acts)
  }

  lemma ReachableInv(configuredAttempts: int, interval: int, acts: seq<Action>, s: Sys)
    requires Reaches(configuredAttempts, interval, acts, s)
    ensures Inv(s)
  {
    InitInv(configuredAttempts, interval);
    RunKeeps(Init(configuredAttempts, interval), acts);
  }

  // Every accepted event is in exactly one place, and is acknowledged at most once.
  lemma Conservation(configuredAttempts: int, interval: int, acts: seq<Action>, s: Sys, n: nat)
    requires Reaches(configuredAttempts, interval, acts, s)
    ensures n < |s.accepted| ==>
              s.handoff[n] + OneIf(Pends(s, n)) + OneIf(n in s.flights) + multiset(Unflushed(s.stop))[n]
              + s.dropped[n] + s.superseded[n] + s.delivered[n] + s.abandoned[n] == 1
    ensures n >= |s.accepted| ==> Places(s, n) == 0
    ensures multiset(s.wire)[n] <= 1
    ensures s.delivered[n] == 1 ==> n in s.wire
    ensures s.abandoned[n] == 1 ==> n !in s.wire
  {
    ReachableInv(configuredAttempts, interval, acts, s);
    assert Places(s, n) == OneIf(n < |s.accepted|);
    assert multiset(s.wire)[n] == s.delivered[n] + AckedNow(s, n);
    if Busy(s, Flush) {
      assert Unflushed(s.stop) == [TicketOf(s, Flush)] + s.stop.batch[s.stop.next + 1..];
    }
  }

  // The FAILED latch in the order of the monitor's sections.
  lemma LatchOverRuns(configuredAttempts: int, interval: int, acts: seq<Action>, s: Sys, i: nat, j: nat)
    requires Reaches(configuredAttempts, interval, acts, s)
    requires i < j < |s.mon.log| && s.mon.log[i].Accepted? && s.mon.log[i].event.status == FAILED
    requires AcceptsFor(s.mon.log[j], s.mon.log[i].event.instanceID)
    requires s.mon.log[j].event.status == PROVISIONING
    requires forall k :: i < k < j ==> !AcceptsFor(s.mon.log[k], s.mon.log[i].event.instanceID)
    ensures exists k :: i < k < j && ErasesFor(s.mon.log[k], s.mon.log[i].event.instanceID)
  {
    ReachableInv(configuredAttempts, interval, acts, s);
    FailedLatch(s.mon.log, i, j);
  }

  // After an accepted FAILED, and with nothing accepted for the instance since, PROVISIONING
  // is held back exactly if no DELETED has been recorded since.
  lemma LatchExactOverRuns(configuredAttempts: int, interval: int, acts: seq<Action>, s: Sys, i: nat, e: StatusEvent)
    requires Reaches(configuredAttempts, interval, acts, s)
    requires i < |s.mon.log| && s.mon.log[i].Accepted? && s.mon.log[i].event.status == FAILED
    requires e.instanceID == s.mon.log[i].event.instanceID && e.status == PROVISIONING
    requires forall k :: i < k < |s.mon.log| ==> !AcceptsFor(s.mon.log[k], e.instanceID)
    ensures Latched(s.mon.lastSubmitted, e)
       <==> !exists k :: i < k < |s.mon.log| && ErasesFor(s.mon.log[k], e.instanceID)
  {
    ReachableInv(configuredAttempts, interval, acts, s);
    assert s.mon.log[..|s.mon.log|] == s.mon.log;
    LatchHoldsUntilErased(s.mon.log, i, |s.mon.log|, e);
  }

  // lastPublished holds, per instance, some event that was acknowledged, and never DELETED.
  lemma PublishedWasDelivered(configuredAttempts: int, interval: int, acts: seq<Action>, s: Sys, id: string)
    requires Reaches(configuredAttempts, interval, acts, s) && id in s.mon.lastPublished
    ensures s.mon.lastPublished[id].status != DELETED
    ensures exists n :: n in s.wire && n < |s.accepted| && s.accepted[n] == s.mon.lastPublished[id]
  {
    ReachableInv(configuredAttempts, interval, acts, s);
    PublishedIsNewestRecord(s.mon.log, id);
  }

  // While running, each pending event will be claimed by a timer of its own or by Stop.
  lemma NoOrphanOverRuns(configuredAttempts: int, interval: int, acts: seq<Action>, s: Sys, id: string)
    requires Reaches(configuredAttempts, interval, acts, s) && id in s.deb.entries
    ensures s.stop.Running?
    ensures var t := s.deb.entries[id].timer;
            && D.Live(s.deb, t) && t < |s.deb.subs|
            && D.SameVersion(D.TimerOf(s.deb, t).ver, s.deb.entries[id].ver)
            && s.deb.subs[t].event == s.deb.entries[id].pending
            && (t in s.deb.fired ==> D.Claims(s.deb, t))
  {
    ReachableInv(configuredAttempts, interval, acts, s);
    assert D.EntryOk(s.deb, id);
  }

  // Per instance, claims take ever newer submissions, each the newest of its moment.
  lemma ClaimOrderOverRuns(configuredAttempts: int, interval: int, acts: seq<Action>, s: Sys, j: nat, k: nat)
    requires Reaches(configuredAttempts, interval, acts, s)
    requires j < k < |s.deb.claims| && s.deb.claims[j].id == s.deb.claims[k].id
    ensures s.deb.claims[j].sub < s.deb.claims[j].seen <= s.deb.claims[k].sub < s.deb.claims[k].seen <= |s.deb.subs|
    ensures s.deb.subs[s.deb.claims[k].sub].event == s.deb.claims[k].event
    ensures forall m :: s.deb.claims[k].sub < m < s.deb.claims[k].seen ==> s.deb.subs[m].id != s.deb.claims[k].id
  {
    ReachableInv(configuredAttempts, interval, acts, s);
    DebounceGuarantees.ClaimOrder(s.deb, j, k);
    assert D.ClaimOk(s.deb, s.deb.claims[k]);
  }

  // ---- The Stop barrier ----

  lemma WaitGroupCounts(configuredAttempts: int, interval: int, acts: seq<Action>, s: Sys)
    requires Reaches(configuredAttempts, interval, acts, s)
    ensures s.deb.wg == |s.flights| + |Unflushed(s.stop)|
    ensures !s.stop.Running? ==> forall t :: t in s.deb.fired ==> !D.Claims(s.deb, t)
  {
    ReachableInv(configuredAttempts, interval, acts, s);
  }

  // publishFn has been called with this ticket, or the flush is about to call it.
  predicate Taken(s: Sys, n: nat) {
    n in s.flights || n in Unflushed(s.stop) || s.delivered[n] + s.abandoned[n] >= 1
  }

  lemma FinishKeepsTaken(s: Sys, a: Actor, n: nat)
    requires Enabled(s, Finish(a)) && Taken(s, n)
    ensures Taken(FinishNext(s, a), n)
  {
    var s' := FinishNext(s, a);
    if a.Flush? {
      assert Unflushed(s.stop) == [TicketOf(s, a)] + Unflushed(s'.stop);
    }
    if n != TicketOf(s, a) {
      assert n in s.flights ==> n in s'.flights;
    }
  }

  lemma TakenFollows(s: Sys, s': Sys, n: nat)
    requires Taken(s, n) && Unflushed(s'.stop) == Unflushed(s.stop) && s.flights.Keys <= s'.flights.Keys
    requires s'.delivered == s.delivered && s'.abandoned == s.abandoned
    ensures Taken(s', n)
  {
  }

  lemma TakenStays(s: Sys, act: Action, n: nat)
    requires Enabled(s, act) && Taken(s, n)
    ensures Taken(Next(s, act), n)
  {
    match act
    case Finish(a) => FinishKeepsTaken(s, a, n);
    case StopBegin(_) => assert Unflushed(s.stop) == [];
    case StopReturn => assert Unflushed(s.stop) == [];
    case _ => TakenFollows(s, Next(s, act), n);
  }

  lemma {:induction false} TakenStaysOverRuns(s: Sys, acts: seq<Action>, n: nat)
    requires Legal(s, acts) && Taken(s, n)
    ensures Taken(Run(s, acts), n)
    decreases |acts|
  {
    if acts != [] {
      TakenStays(s, acts[0], n);
      TakenStaysOverRuns(Next(s, acts[0]), acts[1..], n);
    }
  }

  lemma StopTakesAll(s: Sys, order: seq<string>, n: nat)
    requires Enabled(s, StopBegin(order)) && (Pends(s, n) || n in s.flights)
    ensures Taken(StopNext(s, order), n)
  {
    if Pends(s, n) {
      var i :| 0 <= i < |order| && order[i] == s.accepted[n].instanceID;
      assert Unflushed(StopNext(s, order).stop)[i] == n;
    }
  }

  lemma ReturnedMeansDone(s: Sys, n: nat)
    requires Inv(s) && s.stop.Returned? && Taken(s, n)
    ensures s.delivered[n] + s.abandoned[n] == 1 && multiset(s.wire)[n] == s.delivered[n] && Places(s, n) == 1
  {
    assert s.flights == map[] && Unflushed(s.stop) == [];
    assert Places(s, n) == OneIf(n < |s.accepted|);
    assert multiset(s.wire)[n] == s.delivered[n] + AckedNow(s, n);
  }

  // Once Stop has returned, every event that was pending or in flight when it set the flag
  // has had publishFn run to completion, exactly once.
  lemma StopCompletes(configuredAttempts: int, interval: int, front: seq<Action>, s: Sys,
                      order: seq<string>, acts: seq<Action>, n: nat)
    requires Reaches(configuredAttempts, interval, front, s) && Enabled(s, StopBegin(order))
    requires Pends(s, n) || n in s.flights
    requires Legal(StopNext(s, order), acts) && Run(StopNext(s, order), acts).stop.Returned?
    ensures s.delivered[n] + s.abandoned[n] == 0
    ensures var end := Run(StopNext(s, order), acts);
            && end.delivered[n] + end.abandoned[n] == 1
            && multiset(end.wire)[n] == end.delivered[n]
            && Places(end, n) == 1
  {
    ReachableInv(configuredAttempts, interval, front, s);
    assert Places(s, n) == OneIf(n < |s.accepted|);
    StopKeeps(s, order);
    StopTakesAll(s, order, n);
    TakenStaysOverRuns(StopNext(s, order), acts, n);
    RunKeeps(StopNext(s, order), acts);
    ReturnedMeansDone(Run(StopNext(s, order), acts), n);
  }

  // After that nothing calls publishFn again: late submissions are dropped, late timers idle.
  lemma {:induction false} QuietAfterStop(s: Sys, acts: seq<Action>)
    requires Inv(s) && s.stop.Returned? && Legal(s, acts)
    ensures var end := Run(s, acts);
            && end.stop == s.stop && end.flights == map[] && end.deb.wg == 0
            && end.wire == s.wire && end.delivered == s.delivered && end.abandoned == s.abandoned
            && end.mon.lastPublished == s.mon.lastPublished
    decreases |acts|
  {
    if acts != [] {
      NextKeeps(s, acts[0]);
      assert s.flights == map[];
      QuietAfterStop(Next(s, acts[0]), acts[1..]);
    }
  }

  lemma LateLeavesAlone(s: Sys, e: StatusEvent)
    requires s.deb.stopped && Admits(s.mon, e)
    ensures var end := EnqueueNext(HandleNext(s, e), |s.accepted|);
            && end.accepted == s.accepted + [e] && end.mon == Accept(s.mon, e)
            && end.dropped == s.dropped + multiset{|s.accepted|}
            && end.deb == s.deb && end.flights == s.flights && end.stop == s.stop && end.wire == s.wire
  {
  }

  lemma LateIsConserved(s: Sys, e: StatusEvent)
    requires Inv(s) && Admits(s.mon, e)
    ensures Places(EnqueueNext(HandleNext(s, e), |s.accepted|), |s.accepted|) == 1
  {
    HandleConserves(s, e);
    EnqueueConserves(HandleNext(s, e), |s.accepted|);
  }

  // From the moment the flag is set, reports still come in and may be accepted, but what is
  // accepted is dropped and never reaches publishFn.
  lemma LateIsDropped(s: Sys, e: StatusEvent)
    requires Inv(s) && !s.stop.Running? && Admits(s.mon, e)
    ensures Enabled(s, Handle(e)) && Enabled(Next(s, Handle(e)), Enqueue(|s.accepted|))
    ensures var n, end := |s.accepted|, Next(Next(s, Handle(e)), Enqueue(|s.accepted|));
            && end.accepted == s.accepted + [e] && end.mon == Accept(s.mon, e)
            && end.dropped == s.dropped + multiset{n} && Places(end, n) == 1
            && end.deb == s.deb && end.flights == s.flights && end.stop == s.stop && end.wire == s.wire
  {
    assert Next(s, Handle(e)) == HandleNext(s, e);
    LateLeavesAlone(s, e);
    LateIsConserved(s, e);
  }
}
