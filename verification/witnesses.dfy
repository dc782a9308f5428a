/**
 Runs that show which guarantees need which atomicity. Each is a legal run of the pipeline
 from its start, and there is one for every debounce interval.
 */
module Witnesses {
  import opened Events
  import opened MonitorCore
  import opened Pipeline
  import opened PipelineInvariants
  import opened PipelineSafety
  import opened PipelineProgress
  import opened History
  import opened Wire
  import opened Convergence
  import opened WireConvergence
  import D = Debounce
  import Duplicates
  import WireDuplicates

  function Start(interval: nat): Sys { Init(5, interval) }

  // A pending ticket and the number of its timer.
  datatype Due = Due(ticket: nat, timer: nat)

  // What of a state the next steps of a run depend on.
  datatype Scene = Scene(
    mon: MState, accepted: seq<StatusEvent>, handoff: multiset<nat>, entries: map<string, Due>,
    flights: map<nat, Phase>, wire: seq<nat>, subs: nat)

  const OPENING := Scene(FRESH, [], multiset{}, map[], map[], [], 0)

  ghost predicate Shows(s: Sys, k: Scene) {
    && s.mon == k.mon && s.accepted == k.accepted && s.handoff == k.handoff && s.flights == k.flights
    && s.wire == k.wire && |s.deb.subs| == k.subs && s.stop.Running? && !s.deb.stopped
  }

  // Each entry's own timer is armed.
  ghost predicate Arms(d: D.DState<nat>, entries: map<string, Due>, interval: nat) {
    && d.interval == interval && d.entries.Keys == entries.Keys
    && forall id :: id in entries ==>
         && d.entries[id].pending == entries[id].ticket && d.entries[id].timer == entries[id].timer
         && entries[id].timer in d.armed && entries[id].timer < |d.subs|
         && d.armed[entries[id].timer].id == id && d.armed[entries[id].timer].ver == d.entries[id].ver
         && d.armed[entries[id].timer].due <= d.now + interval
  }

  ghost predicate At(interval: nat, acts: seq<Action>, s: Sys, k: Scene) {
    && Legal(Start(interval), acts) && Run(Start(interval), acts) == s
    && Shows(s, k) && Arms(s.deb, k.entries, interval)
  }

  // ---- One step at the end of a run ----

  lemma Extend(s0: Sys, acts: seq<Action>, s: Sys, act: Action)
    requires Legal(s0, acts) && Run(s0, acts) == s && Enabled(s, act)
    ensures Legal(s0, acts + [act]) && Run(s0, acts + [act]) == Next(s, act)
  {
    RunCons(s, act, []);
    assert [act] + [] == [act];
    RunJoins(s0, acts, [act]);
  }

  // An informer callback that is let through gets its ticket.
  lemma Accepts(interval: nat, acts: seq<Action>, s: Sys, k: Scene, e: StatusEvent)
    returns (acts': seq<Action>, s': Sys, k': Scene)
    requires At(interval, acts, s, k) && Admits(k.mon, e)
    ensures acts' == acts + [Handle(e)] && At(interval, acts', s', k')
    ensures k' == k.(mon := Accept(k.mon, e), accepted := k.accepted + [e],
                     handoff := k.handoff + multiset{|k.accepted|})
  {
    Extend(Start(interval), acts, s, Handle(e));
    acts', s' := acts + [Handle(e)], HandleNext(s, e);
    k' := k.(mon := Accept(k.mon, e), accepted := k.accepted + [e], handoff := k.handoff + multiset{|k.accepted|});
  }

  lemma SubmitArms(d: D.DState<nat>, entries: map<string, Due>, interval: nat, id: string, n: nat)
    requires Arms(d, entries, interval) && !d.stopped && id !in entries
    ensures Arms(D.Submit(d, id, n), entries[id := Due(n, |d.subs|)], interval)
  {
  }

  // The ticket reaches the debouncer, which holds nothing of its instance.
  lemma Submits(interval: nat, acts: seq<Action>, s: Sys, k: Scene, n: nat)
    returns (acts': seq<Action>, s': Sys, k': Scene)
    requires At(interval, acts, s, k) && n in k.handoff && n < |k.accepted|
    requires k.accepted[n].instanceID !in k.entries
    ensures acts' == acts + [Enqueue(n)] && At(interval, acts', s', k')
    ensures k' == k.(handoff := k.handoff - multiset{n}, subs := k.subs + 1,
                     entries := k.entries[k.accepted[n].instanceID := Due(n, k.subs)])
  {
    SubmitArms(s.deb, k.entries, interval, k.accepted[n].instanceID, n);
    Extend(Start(interval), acts, s, Enqueue(n));
    acts', s' := acts + [Enqueue(n)], EnqueueNext(s, n);
    k' := k.(handoff := k.handoff - multiset{n}, subs := k.subs + 1,
             entries := k.entries[k.accepted[n].instanceID := Due(n, k.subs)]);
  }

  // The entry's timer expires.
  lemma Expires(interval: nat, acts: seq<Action>, s: Sys, k: Scene, id: string)
    returns (acts': seq<Action>, s': Sys)
    requires At(interval, acts, s, k) && id in k.entries
    ensures acts' == acts + [Tick(interval), Fire(k.entries[id].timer)]
    ensures Legal(Start(interval), acts') && Run(Start(interval), acts') == s'
    ensures s' == s.(deb := D.Fire(D.Tick(s.deb, interval), k.entries[id].timer))
  {
    var t := k.entries[id].timer;
    var s1 := s.(deb := D.Tick(s.deb, interval));
    Extend(Start(interval), acts, s, Tick(interval));
    Extend(Start(interval), acts + [Tick(interval)], s1, Fire(t));
    acts', s' := acts + [Tick(interval)] + [Fire(t)], s1.(deb := D.Fire(s1.deb, t));
  }

  // Its callback claims the event.
  lemma Claims(interval: nat, acts: seq<Action>, s: Sys, k: Scene, id: string)
    returns (acts': seq<Action>, s': Sys, k': Scene)
    requires At(interval, acts, s, k) && id in k.entries
    ensures acts' == acts + [Tick(interval), Fire(k.entries[id].timer), RunCallback(k.entries[id].timer)]
    ensures At(interval, acts', s', k')
    ensures k' == k.(entries := k.entries - {id}, flights := k.flights[k.entries[id].ticket := Trying(1)])
  {
    var t := k.entries[id].timer;
    var acts1, s1 := Expires(interval, acts, s, k, id);
    Extend(Start(interval), acts1, s1, RunCallback(t));
    acts', s' := acts1 + [RunCallback(t)], CallbackNext(s1, t);
    k' := k.(entries := k.entries - {id}, flights := k.flights[k.entries[id].ticket := Trying(1)]);
  }

  // A publication is acknowledged.
  lemma Sending(interval: nat, acts: seq<Action>, s: Sys, k: Scene, n: nat)
    returns (acts': seq<Action>, s': Sys, k': Scene)
    requires At(interval, acts, s, k) && n in k.flights && k.flights[n].Trying?
    ensures acts' == acts + [Publish(Flight(n), true)] && At(interval, acts', s', k')
    ensures k' == k.(flights := k.flights[n := Acked], wire := k.wire + [n])
  {
    Extend(Start(interval), acts, s, Publish(Flight(n), true));
    acts', s' := acts + [Publish(Flight(n), true)], PublishNext(s, Flight(n), true);
    k' := k.(flights := k.flights[n := Acked], wire := k.wire + [n]);
  }

  lemma Noting(interval: nat, acts: seq<Action>, s: Sys, k: Scene, n: nat)
    returns (acts': seq<Action>, s': Sys, k': Scene)
    requires At(interval, acts, s, k) && n in k.flights && k.flights[n].Acked? && n < |k.accepted|
    ensures acts' == acts + [Note(Flight(n))] && At(interval, acts', s', k')
    ensures k' == k.(flights := k.flights[n := Noted], mon := Record(k.mon, k.accepted[n]))
  {
    Extend(Start(interval), acts, s, Note(Flight(n)));
    acts', s' := acts + [Note(Flight(n))], NoteNext(s, Flight(n));
    k' := k.(flights := k.flights[n := Noted], mon := Record(k.mon, k.accepted[n]));
  }

  lemma Finishing(interval: nat, acts: seq<Action>, s: Sys, k: Scene, n: nat)
    returns (acts': seq<Action>, s': Sys, k': Scene)
    requires At(interval, acts, s, k) && n in k.flights && k.flights[n].Noted?
    ensures acts' == acts + [Finish(Flight(n))] && At(interval, acts', s', k')
    ensures k' == k.(flights := k.flights - {n})
  {
    Extend(Start(interval), acts, s, Finish(Flight(n)));
    acts', s' := acts + [Finish(Flight(n))], FinishNext(s, Flight(n));
    k' := k.(flights := k.flights - {n});
  }

  // An acknowledged publication is recorded and finished.
  lemma Ends(interval: nat, acts: seq<Action>, s: Sys, k: Scene, n: nat)
    returns (acts': seq<Action>, s': Sys, k': Scene)
    requires At(interval, acts, s, k) && n in k.flights && k.flights[n].Acked? && n < |k.accepted|
    ensures acts' == acts + [Note(Flight(n)), Finish(Flight(n))] && At(interval, acts', s', k')
    ensures k' == k.(flights := k.flights - {n}, mon := Record(k.mon, k.accepted[n]))
  {
    acts', s', k' := Noting(interval, acts, s, k, n);
    acts', s', k' := Finishing(interval, acts', s', k', n);
    assert k.flights[n := Noted] - {n} == k.flights - {n};
  }

  lemma Delivers(interval: nat, acts: seq<Action>, s: Sys, k: Scene, n: nat)
    returns (acts': seq<Action>, s': Sys, k': Scene)
    requires At(interval, acts, s, k) && n in k.flights && k.flights[n].Trying? && n < |k.accepted|
    ensures acts' == acts + [Publish(Flight(n), true), Note(Flight(n)), Finish(Flight(n))]
    ensures At(interval, acts', s', k')
    ensures k' == k.(flights := k.flights - {n}, mon := Record(k.mon, k.accepted[n]), wire := k.wire + [n])
  {
    acts', s', k' := Sending(interval, acts, s, k, n);
    acts', s', k' := Ends(interval, acts', s', k', n);
    assert k.flights[n := Acked] - {n} == k.flights - {n};
  }

  // ---- Openings ----

  // A first event is reported and reaches the debouncer.
  lemma FirstPending(interval: nat, e: StatusEvent) returns (acts: seq<Action>, s: Sys, k: Scene)
    ensures acts == [Handle(e), Enqueue(0)] && At(interval, acts, s, k)
    ensures k == Scene(Accept(FRESH, e), [e], multiset{}, map[e.instanceID := Due(0, 0)], map[], [], 1)
  {
    acts, s, k := Accepts(interval, [], Start(interval), OPENING, e);
    acts, s, k := Submits(interval, acts, s, k, 0);
  }

  // It is claimed, and about to be published.
  lemma FirstInFlight(interval: nat, e: StatusEvent) returns (acts: seq<Action>, s: Sys, k: Scene)
    ensures acts == [Handle(e), Enqueue(0), Tick(interval), Fire(0), RunCallback(0)] && At(interval, acts, s, k)
    ensures k == Scene(Accept(FRESH, e), [e], multiset{}, map[], map[0 := Trying(1)], [], 1)
  {
    acts, s, k := FirstPending(interval, e);
    acts, s, k := Claims(interval, acts, s, k, e.instanceID);
  }

  // ---- The same event twice in a row ----

  lemma SentPair(s: Sys, id: string, a: StatusEvent, b: StatusEvent)
    requires s.accepted == [a, b] && s.wire == [0, 1] && a.instanceID == b.instanceID == id
    ensures Sent(s, id) == [a, b]
  {
    WireOfGrows(s.accepted, [], id, 0);
    WireOfGrows(s.accepted, [0], id, 1);
    assert [] + [0] == [0] && [0] + [1] == [0, 1];
  }

  // Ticket 1, pending after the first copy was delivered, is claimed and delivered too.
  lemma DeliversAgain(interval: nat, acts: seq<Action>, s: Sys, k: Scene, e: StatusEvent)
    returns (acts': seq<Action>, s': Sys)
    requires At(interval, acts, s, k) && k.wire == [0] && k.accepted == [e, e]
    requires k.entries == map[e.instanceID := Due(1, 1)] && k.mon.log == [Accepted(e), Accepted(e), Recorded(e)]
    ensures acts' == acts + ([Tick(interval), Fire(1), RunCallback(1)]
                             + [Publish(Flight(1), true), Note(Flight(1)), Finish(Flight(1))])
    ensures Legal(Start(interval), acts') && s' == Run(Start(interval), acts')
    ensures s'.mon.log == [Accepted(e), Accepted(e), Recorded(e), Recorded(e)] && Sent(s', e.instanceID) == [e, e]
  {
    var k': Scene;
    acts', s', k' := Claims(interval, acts, s, k, e.instanceID);
    acts', s', k' := Delivers(interval, acts', s', k', 1);
    SentPair(s', e.instanceID, e, e);
  }

  lemma SecondPending(interval: nat, e: StatusEvent) returns (acts: seq<Action>, s: Sys, k: Scene)
    requires e.status == RUNNING
    ensures acts == [Handle(e), Enqueue(0), Tick(interval), Fire(0), RunCallback(0)] + [Handle(e), Enqueue(1)]
    ensures At(interval, acts, s, k)
    ensures k == Scene(Accept(Accept(FRESH, e), e), [e, e], multiset{}, map[e.instanceID := Due(1, 1)],
                       map[0 := Trying(1)], [], 2)
  {
    acts, s, k := FirstInFlight(interval, e);
    acts, s, k := Accepts(interval, acts, s, k, e);
    acts, s, k := Submits(interval, acts, s, k, 1);
  }

  // Accepting and enqueueing is one step here, claiming through recording is not: the same
  // event is accepted again while its first copy is on its way, and delivered twice.
  lemma SplitPublicationRepeats(interval: nat, e: StatusEvent) returns (acts: seq<Action>, s: Sys)
    requires e.status == RUNNING
    ensures Legal(Start(interval), acts) && s == Run(Start(interval), acts)
    ensures acts == [Handle(e), Enqueue(0), Tick(interval), Fire(0), RunCallback(0)] + [Handle(e), Enqueue(1)]
                    + [Publish(Flight(0), true), Note(Flight(0)), Finish(Flight(0))]
                    + ([Tick(interval), Fire(1), RunCallback(1)]
                       + [Publish(Flight(1), true), Note(Flight(1)), Finish(Flight(1))])
    ensures s.mon.log == [Accepted(e), Accepted(e), Recorded(e), Recorded(e)] && Sent(s, e.instanceID) == [e, e]
  {
    var k: Scene;
    acts, s, k := SecondPending(interval, e);
    acts, s, k := Delivers(interval, acts, s, k, 0);
    acts, s := DeliversAgain(interval, acts, s, k, e);
  }

  // Claiming through recording is one step here, accepting and enqueueing is not: a second
  // callback has passed the check but not reached the debouncer while the first copy goes out.
  lemma SplitSubmissionRepeats(interval: nat, e: StatusEvent) returns (acts: seq<Action>, s: Sys)
    requires e.status == RUNNING
    ensures Legal(Start(interval), acts) && s == Run(Start(interval), acts)
    ensures acts == [Handle(e), Enqueue(0)] + [Handle(e)]
                    + [Tick(interval), Fire(0), RunCallback(0)]
                    + [Publish(Flight(0), true), Note(Flight(0)), Finish(Flight(0))] + [Enqueue(1)]
                    + ([Tick(interval), Fire(1), RunCallback(1)]
                       + [Publish(Flight(1), true), Note(Flight(1)), Finish(Flight(1))])
    ensures s.mon.log == [Accepted(e), Accepted(e), Recorded(e), Recorded(e)] && Sent(s, e.instanceID) == [e, e]
  {
    var k: Scene;
    acts, s, k := FirstPending(interval, e);
    acts, s, k := Accepts(interval, acts, s, k, e);
    acts, s, k := Claims(interval, acts, s, k, e.instanceID);
    acts, s, k := Delivers(interval, acts, s, k, 0);
    acts, s, k := Submits(interval, acts, s, k, 1);
    acts, s := DeliversAgain(interval, acts, s, k, e);
  }

  // ---- The latch ----

  // The latch's exception is real: recording a DELETED that was under way erases the FAILED
  // accepted after it, and a PROVISIONING goes through.
  lemma LateDeletedOpensLatch(interval: nat, id: string) returns (acts: seq<Action>, s: Sys)
    ensures Legal(Start(interval), acts) && s == Run(Start(interval), acts)
    ensures var gone := StatusEvent(id, DELETED, GONE_MESSAGE);
            var failed := StatusEvent(id, FAILED, "PVC is lost");
            var pending := StatusEvent(id, PROVISIONING, "PVC is pending binding");
            s.mon.log == [Accepted(gone), Accepted(failed), Recorded(gone), Accepted(pending)]
  {
    var gone := StatusEvent(id, DELETED, GONE_MESSAGE);
    var failed := StatusEvent(id, FAILED, "PVC is lost");
    var pending := StatusEvent(id, PROVISIONING, "PVC is pending binding");
    var k: Scene;
    acts, s, k := FirstInFlight(interval, gone);
    acts, s, k := Accepts(interval, acts, s, k, failed);
    acts, s, k := Submits(interval, acts, s, k, 1);
    acts, s, k := Delivers(interval, acts, s, k, 0);
    acts, s, k := Accepts(interval, acts, s, k, pending);
  }

  // ---- Convergence needs its condition ----

  // `e` stands as published while `f`, another status of the same instance, is pending. From
  // here a resync may miss: the report equals what stands as published and is suppressed, and
  // the pending event is delivered after it.
  lemma ResyncMissesPending(interval: nat, e: StatusEvent, f: StatusEvent)
    returns (before: seq<Action>, s: Sys, acts: seq<Action>)
    requires e.status == RUNNING && f.status == PROVISIONING && f.instanceID == e.instanceID
    ensures Legal(Start(interval), before) && s == Run(Start(interval), before)
    ensures e.instanceID in s.mon.lastPublished && s.mon.lastPublished[e.instanceID] == e
    ensures Legal(s, acts) && LosslessRun(e.instanceID, s, acts) && OnlyReports(e, acts) && Handle(e) in acts
    ensures Finished(Run(s, acts), e.instanceID) && !Settled(Run(s, acts), e)
  {
    var k: Scene;
    before, s, k := FirstInFlight(interval, e);
    before, s, k := Delivers(interval, before, s, k, 0);
    before, s, k := Accepts(interval, before, s, k, f);
    before, s, k := Submits(interval, before, s, k, 1);
    ReachableInv(5, interval, before, s);
    assert Pends(s, 1);
    WaitingIsOpen(s, 1);
    acts := Upset(e, s, 1);
  }

  // ---- Records may cross the wire ----

  // Two publications of an instance are under way.
  lemma BothInFlight(interval: nat, g: StatusEvent, e: StatusEvent) returns (acts: seq<Action>, s: Sys, k: Scene)
    requires g.status == PROVISIONING && e.status == RUNNING && e.instanceID == g.instanceID
    ensures At(interval, acts, s, k)
    ensures acts == [Handle(g), Enqueue(0), Tick(interval), Fire(0), RunCallback(0)]
                    + [Handle(e), Enqueue(1), Tick(interval), Fire(1), RunCallback(1)]
    ensures k == Scene(Accept(Accept(FRESH, g), e), [g, e], multiset{}, map[],
                       map[0 := Trying(1), 1 := Trying(1)], [], 2)
  {
    acts, s, k := FirstInFlight(interval, g);
    acts, s, k := Accepts(interval, acts, s, k, e);
    acts, s, k := Submits(interval, acts, s, k, 1);
    acts, s, k := Claims(interval, acts, s, k, e.instanceID);
  }

  // They are sent in one order and recorded in the other: `g` stands as published, although
  // the subscriber saw `e` last.
  lemma Crossed(interval: nat, g: StatusEvent, e: StatusEvent) returns (acts: seq<Action>, s: Sys, k: Scene)
    requires g.status == PROVISIONING && e.status == RUNNING && e.instanceID == g.instanceID
    ensures At(interval, acts, s, k)
    ensures acts == [Handle(g), Enqueue(0), Tick(interval), Fire(0), RunCallback(0)]
                    + [Handle(e), Enqueue(1), Tick(interval), Fire(1), RunCallback(1)]
                    + [Publish(Flight(0), true), Publish(Flight(1), true)]
                    + [Note(Flight(1)), Finish(Flight(1)), Note(Flight(0)), Finish(Flight(0))]
    ensures k == Scene(Record(Record(Accept(Accept(FRESH, g), e), e), g), [g, e], multiset{}, map[], map[], [0, 1], 2)
  {
    acts, s, k := BothInFlight(interval, g, e);
    acts, s, k := Sending(interval, acts, s, k, 0);
    acts, s, k := Sending(interval, acts, s, k, 1);
    acts, s, k := Ends(interval, acts, s, k, 1);
    acts, s, k := Ends(interval, acts, s, k, 0);
  }

  // From there, though the pipeline is at rest, a resync that reports `g` changes nothing, and
  // the subscriber is left with `e`.
  lemma ResyncMissesWire(interval: nat, g: StatusEvent, e: StatusEvent) returns (acts: seq<Action>, s: Sys)
    requires g.status == PROVISIONING && e.status == RUNNING && e.instanceID == g.instanceID
    ensures Legal(Start(interval), acts) && s == Run(Start(interval), acts) && s.stop.Running? && Quiescent(s)
    ensures Settled(s, g) && HandleNext(s, g) == s
    ensures Sent(s, g.instanceID) == [g, e] && !WireReady(g, s)
  {
    var k: Scene;
    acts, s, k := Crossed(interval, g, e);
    SentPair(s, g.instanceID, g, e);
    ReachableInv(5, interval, acts, s);
    RestIsWireReady(g, s);
  }

  // At rest, with `g` published and `e` sent last, a report of `e` is let through. It is then
  // all that is under way, differs from what is published, and equals what was sent last.
  lemma ReportedAtRest(s: Sys, g: StatusEvent, e: StatusEvent)
    requires Inv(s) && Quiescent(s) && s.stop.Running? && Admits(s.mon, e) && e != g && e.status != DELETED
    requires s.mon.lastPublished == map[e.instanceID := g] && LastSent(s, e.instanceID, e)
    ensures var s' := HandleNext(s, e);
            !Duplicates.Primed(s', e.instanceID) && WireDuplicates.WirePrimed(s', e.instanceID)
  {
    var s', n := HandleNext(s, e), |s.accepted|;
    forall m: nat ensures Open(s', m) ==> m == n {
      OpenAfter(s, Handle(e), m);
      assert Places(s, m) == OneIf(m < |s.accepted|);
    }
    ReportSent(s, e, e.instanceID);
    ReportFresh(s, e, e.instanceID, n);
    assert WireDuplicates.FreshFor(s', e.instanceID, n);
  }

  lemma CrossedMaps(m: MState, g: StatusEvent, e: StatusEvent)
    requires g.status == PROVISIONING && e.status == RUNNING && e.instanceID == g.instanceID
    requires m == Record(Record(Accept(Accept(FRESH, g), e), e), g)
    ensures m.lastPublished == map[e.instanceID := g] && m.lastSubmitted == map[e.instanceID := e] && Admits(m, e)
    ensures Accept(m, e).log == [Accepted(g), Accepted(e), Recorded(e), Recorded(g), Accepted(e)]
  {
  }

  lemma CrossedThenReported(interval: nat, g: StatusEvent, e: StatusEvent) returns (acts: seq<Action>, s: Sys)
    requires g.status == PROVISIONING && e.status == RUNNING && e.instanceID == g.instanceID
    ensures Reaches(5, interval, acts, s) && s.stop.Running?
    ensures s.mon.log == [Accepted(g), Accepted(e), Recorded(e), Recorded(g), Accepted(e)]
    ensures !Duplicates.Primed(s, e.instanceID) && WireDuplicates.WirePrimed(s, e.instanceID)
  {
    var k: Scene;
    var before: seq<Action>, s0: Sys;
    before, s0, k := Crossed(interval, g, e);
    SentPair(s0, e.instanceID, g, e);
    CrossedMaps(s0.mon, g, e);
    ReachableInv(5, interval, before, s0);
    ReportedAtRest(s0, g, e);
    acts, s := before + [Handle(e)], HandleNext(s0, e);
    Extend(Start(interval), before, s0, Handle(e));
  }

  // So no record can be repeated, but the subscriber can be sent `e` twice in a row.
  lemma RepeatsOnWireOnly(interval: nat, g: StatusEvent, e: StatusEvent) returns (acts: seq<Action>, s: Sys)
    requires g.status == PROVISIONING && e.status == RUNNING && e.instanceID == g.instanceID
    ensures Reaches(5, interval, acts, s) && s.stop.Running?
    ensures s.mon.log == [Accepted(g), Accepted(e), Recorded(e), Recorded(g), Accepted(e)]
    ensures !Duplicates.CanRepeat(s, e.instanceID) && WireDuplicates.CanRepeatOnWire(s, e.instanceID)
  {
    acts, s := CrossedThenReported(interval, g, e);
    Duplicates.RepeatsIffPrimed(5, interval, acts, s, e.instanceID);
    WireDuplicates.RepeatsOnWireIffPrimed(5, interval, acts, s, e.instanceID);
  }
}
