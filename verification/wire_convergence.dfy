/**
 Whether a resync reaches the subscriber: as in `Convergence`, `w` is the one event that
 informer callbacks report for its instance, but what counts is the last event on the wire.
 */
module WireConvergence {
  import opened Events
  import opened MonitorCore
  import opened Pipeline
  import opened PipelineInvariants
  import opened PipelineProgress
  import opened History
  import opened Steering
  import opened Wire
  import opened Convergence
  import opened Reports
  import opened Volumes
  import opened Resync
  import Duplicates
  import WireDuplicates

  // The subscriber saw `w` last, or the FAILED latch holds it back.
  predicate SettledOnWire(s: Sys, w: StatusEvent) {
    LastSent(s, w.instanceID, w) || Latched(s.mon.lastSubmitted, w)
  }

  // All that is still to be sent for the instance is `w`.
  ghost predicate FreshClean(w: StatusEvent, s: Sys) {
    forall n: nat :: Fresh(s, w.instanceID, n) ==> s.accepted[n] == w
  }

  ghost predicate SomeFresh(s: Sys, id: string) {
    exists n: nat :: Fresh(s, id, n)
  }

  // A report of `w` is let through whenever it comes: it is now, and no `w` is under way
  // that would be recorded first.
  ghost predicate WillPass(w: StatusEvent, s: Sys) {
    Admits(s.mon, w) && forall n: nat :: Open(s, n) && Of(s, w.instanceID, n) ==> s.accepted[n] != w
  }

  ghost predicate WireReady(w: StatusEvent, s: Sys) {
    || Held(w, s)
    || (FreshClean(w, s) && (LastSent(s, w.instanceID, w) || SomeFresh(s, w.instanceID) || WillPass(w, s)))
  }

  // ---- From such a state every run settles ----

  ghost predicate OnWireTrack(w: StatusEvent, reported: bool, s: Sys) {
    && s.stop.Running?
    && (|| Held(w, s)
        || (FreshClean(w, s)
            && (|| LastSent(s, w.instanceID, w) || SomeFresh(s, w.instanceID)
                || (!reported && WillPass(w, s)))))
  }

  lemma HeldStays(w: StatusEvent, s: Sys, act: Action)
    requires Inv(s) && Held(w, s) && Enabled(s, act) && Agrees(w, act)
    ensures Held(w, Next(s, act))
  {
    var s' := Next(s, act);
    forall n: nat | Open(s', n) && Of(s', w.instanceID, n) ensures Open(s, n) && Of(s, w.instanceID, n) {
      OpenAfter(s, act, n);
    }
    match act
    case Handle(_) =>
    case Note(a) => RecordStaysLatched(w, s, a);
    case _ => OtherwiseSilent(s, act);
  }

  lemma RecordStaysLatched(w: StatusEvent, s: Sys, a: Actor)
    requires Inv(s) && Held(w, s) && Enabled(s, Note(a))
    ensures Latched(NoteNext(s, a).mon.lastSubmitted, w)
  {
    NoteCloses(s, a, TicketOf(s, a));
  }

  lemma ReportKeepsClean(w: StatusEvent, s: Sys, e: StatusEvent)
    requires Inv(s) && FreshClean(w, s) && Agrees(w, Handle(e))
    ensures FreshClean(w, HandleNext(s, e))
  {
    forall n: nat | Fresh(HandleNext(s, e), w.instanceID, n) ensures HandleNext(s, e).accepted[n] == w {
      ReportFresh(s, e, w.instanceID, n);
    }
  }

  lemma ReportKeepsFresh(s: Sys, id: string, e: StatusEvent)
    requires Inv(s) && (SomeFresh(s, id) || (Admits(s.mon, e) && e.instanceID == id))
    ensures SomeFresh(HandleNext(s, e), id)
  {
    var n: nat;
    if SomeFresh(s, id) { n :| Fresh(s, id, n); } else { n := |s.accepted|; }
    ReportFresh(s, e, id, n);
  }

  lemma ReportTracksWire(w: StatusEvent, reported: bool, s: Sys, e: StatusEvent)
    requires Inv(s) && OnWireTrack(w, reported, s) && !Held(w, s) && Agrees(w, Handle(e))
    ensures OnWireTrack(w, reported || e == w, HandleNext(s, e))
  {
    ReportSent(s, e, w.instanceID);
    ReportKeepsClean(w, s, e);
    if !LastSent(s, w.instanceID, w) {
      if SomeFresh(s, w.instanceID) || e == w {
        ReportKeepsFresh(s, w.instanceID, e);
      } else {
        PassesAfterReport(w, s, e);
      }
    }
  }

  lemma PassesAfterReport(w: StatusEvent, s: Sys, e: StatusEvent)
    requires Inv(s) && WillPass(w, s) && e.instanceID != w.instanceID
    ensures WillPass(w, HandleNext(s, e))
  {
    forall n: nat | Open(HandleNext(s, e), n) && Of(HandleNext(s, e), w.instanceID, n)
      ensures Open(s, n) && Of(s, w.instanceID, n)
    {
      OpenAfter(s, Handle(e), n);
    }
  }

  lemma PassesAfterStep(w: StatusEvent, s: Sys, act: Action)
    requires Inv(s) && WillPass(w, s) && Enabled(s, act) && !act.Handle?
    ensures WillPass(w, Next(s, act))
  {
    var s' := Next(s, act);
    forall n: nat | Open(s', n) ensures Open(s, n) { OpenAfter(s, act, n); }
    SameAccepted(s, act);
    match act
    case Note(a) => NoteCloses(s, a, TicketOf(s, a)); BusyTicket(s, a);
    case _ => OtherwiseSilent(s, act);
  }

  // A fresh ticket is sent, or another one of the instance takes its place in the map.
  lemma FreshMoves(id: string, s: Sys, act: Action, n: nat)
    requires Inv(s) && s.stop.Running? && Fresh(s, id, n) && Enabled(s, act) && Lossless(id, s, act) && !act.Handle?
    ensures Fresh(Next(s, act), id, n) || Sends(s, act, n) || SomeFresh(Next(s, act), id)
  {
    StepFresh(s, act, id, n);
    if Closes(s, act) == Some(n) {
      match act
      case Enqueue(k) => SupersederIsFresh(id, s, k, n);
      case Note(a) => MoveAcks(s, a, Noted, n);
      case _ =>
    }
  }

  lemma SupersederIsFresh(id: string, s: Sys, k: nat, n: nat)
    requires Inv(s) && s.stop.Running? && Of(s, id, n) && Enabled(s, Enqueue(k)) && Closes(s, Enqueue(k)) == Some(n)
    ensures SomeFresh(EnqueueNext(s, k), id)
  {
    SupersededIsOld(s, k);
    WaitingIsOpen(s, k);
    PendingNotAcking(s, k);
    assert Fresh(s, id, k);
    StepFresh(s, Enqueue(k), id, k);
  }

  lemma StepTracksWire(w: StatusEvent, reported: bool, s: Sys, act: Action)
    requires Inv(s) && OnWireTrack(w, reported, s) && !Held(w, s)
    requires Enabled(s, act) && Lossless(w.instanceID, s, act) && !act.Handle?
    ensures OnWireTrack(w, reported, Next(s, act))
  {
    var s', id := Next(s, act), w.instanceID;
    StepSent(s, act, id);
    SameAccepted(s, act);
    KeepsRunning(id, s, act);
    forall n: nat ensures Fresh(s', id, n) ==> Fresh(s, id, n) { StepFresh(s, act, id, n); }
    if !LastSent(s, id, w) {
      if SomeFresh(s, id) {
        var n: nat :| Fresh(s, id, n);
        FreshMoves(id, s, act, n);
      } else {
        PassesAfterStep(w, s, act);
      }
    }
  }

  lemma KeepsRunning(id: string, s: Sys, act: Action)
    requires s.stop.Running? && Enabled(s, act) && Lossless(id, s, act) && !act.Handle?
    ensures Next(s, act).stop.Running?
  {
    if act.Note? || act.Enqueue? {
      assert Next(s, act).stop.Running?;
    } else {
      ClosesElsewhere(id, s, act);
    }
  }

  lemma {:induction false} RunTracksWire(w: StatusEvent, reported: bool, s: Sys, acts: seq<Action>)
    requires Inv(s) && OnWireTrack(w, reported, s)
    requires Legal(s, acts) && LosslessRun(w.instanceID, s, acts) && OnlyReports(w, acts)
    ensures OnWireTrack(w, reported || Handle(w) in acts, Run(s, acts))
    decreases |acts|
  {
    if acts != [] {
      ReportsUnfold(w, acts);
      NextKeeps(s, acts[0]);
      AnyTracksWire(w, reported, s, acts[0]);
      RunTracksWire(w, reported || acts[0] == Handle(w), Next(s, acts[0]), acts[1..]);
    }
  }

  lemma AnyTracksWire(w: StatusEvent, reported: bool, s: Sys, act: Action)
    requires Inv(s) && OnWireTrack(w, reported, s)
    requires Enabled(s, act) && Lossless(w.instanceID, s, act) && Agrees(w, act)
    ensures OnWireTrack(w, reported || act == Handle(w), Next(s, act))
  {
    if Held(w, s) {
      HeldStays(w, s, act);
      if !act.Handle? { KeepsRunning(w.instanceID, s, act); }
    } else if act.Handle? {
      ReportTracksWire(w, reported, s, act.event);
    } else {
      StepTracksWire(w, reported, s, act);
    }
  }

  // ---- From any other state some run does not ----

  lemma {:induction false} NothingSent(s: Sys, acts: seq<Action>, id: string)
    requires Inv(s) && Legal(s, acts) && Duplicates.Unreported(acts) && !SomeFresh(s, id)
    ensures Sent(Run(s, acts), id) == Sent(s, id)
    decreases |acts|
  {
    if acts != [] {
      var s1 := Next(s, acts[0]);
      NextKeeps(s, acts[0]);
      StepSent(s, acts[0], id);
      forall n: nat ensures !Fresh(s1, id, n) { StepFresh(s, acts[0], id, n); }
      NothingSent(s1, acts[1..], id);
    }
  }

  // Everything is delivered, and a ticket that is in flight and not on the wire goes last.
  lemma SentLast(s: Sys, id: string, v: nat) returns (acts: seq<Action>, s': Sys)
    requires Inv(s) && s.stop.Running? && Of(s, id, v)
    requires v in s.flights && !IsOver(s.flights[v]) && !s.flights[v].Acked?
    ensures Steered(s, acts, s') && Inv(s') && Finished(s', id) && LastSent(s', id, s.accepted[v])
    ensures forall e: StatusEvent :: e.instanceID == id && Latched(s'.mon.lastSubmitted, e) ==>
              Latched(s.mon.lastSubmitted, e) && s.accepted[v].status != DELETED
  {
    var front, s1 := DrainBut(s, {v}, Work(s));
    var back, s2 := Deliver(s1, v);
    SteerOn(s, front, s1, back, s2);
    forall n: nat ensures !Open(s2, n) { OpenShrinks(s1, back, n); }
    WireOfGrows(s1.accepted, s1.wire, id, v);
    acts, s' := front + back, s2;
  }

  // The run does not settle `w` on the wire.
  ghost predicate Misses(w: StatusEvent, s: Sys, acts: seq<Action>) {
    && Legal(s, acts) && LosslessRun(w.instanceID, s, acts) && OnlyReports(w, acts) && Handle(w) in acts
    && Finished(Run(s, acts), w.instanceID) && !SettledOnWire(Run(s, acts), w)
  }

  // Something else is sent last.
  lemma MissByFresh(w: StatusEvent, s: Sys, v: nat) returns (acts: seq<Action>)
    requires Inv(s) && s.stop.Running? && Fresh(s, w.instanceID, v) && s.accepted[v] != w
    requires !Latched(s.mon.lastSubmitted, w) || s.accepted[v].status == DELETED
    ensures Misses(w, s, acts)
  {
    var front, s1 := ToFlight(s, v);
    WireDuplicates.FreshInFlight(s, s1, w.instanceID, v);
    HandleKeeps(s1, w);
    var back, s3 := SentLast(HandleNext(s1, w), w.instanceID, v);
    acts := ReportAmid(w, s, front, s1, back, s3);
  }

  // An acknowledged DELETED opens the latch after the report, and something else is sent last.
  lemma MissByLateDeleted(w: StatusEvent, s: Sys, d: nat, v: nat) returns (acts: seq<Action>)
    requires Inv(s) && s.stop.Running? && Latched(s.mon.lastSubmitted, w)
    requires d in s.flights && s.flights[d].Acked? && Of(s, w.instanceID, d) && s.accepted[d].status == DELETED
    requires Fresh(s, w.instanceID, v) && s.accepted[v] != w
    ensures Misses(w, s, acts)
  {
    var front, s1 := ToFlight(s, v);
    WireDuplicates.FreshInFlight(s, s1, w.instanceID, v);
    assert HandleNext(s1, w) == s1;
    var mid, s2 := Deliver(s1, d);
    var last, s3 := SentLast(s2, w.instanceID, v);
    SteerOn(s1, mid, s2, last, s3);
    acts := ReportAmid(w, s, front, s1, mid + last, s3);
  }

  // The report is suppressed and nothing is sent any more.
  lemma MissBySilence(w: StatusEvent, s: Sys, front: seq<Action>, s1: Sys, mid: seq<Action>, s2: Sys)
    returns (acts: seq<Action>)
    requires Inv(s) && !SomeFresh(s, w.instanceID) && !LastSent(s, w.instanceID, w)
    requires Steered(s, front, s1) && !Admits(s1.mon, w) && Steered(s1, mid, s2)
    requires Inv(s2) && s2.stop.Running? && !Latched(s2.mon.lastSubmitted, w)
    ensures Misses(w, s, acts)
  {
    var last, s3 := DrainBut(s2, {}, Work(s2));
    SteerOn(s1, mid, s2, last, s3);
    SteerOn(s, front, s1, mid + last, s3);
    NothingSent(s, front + (mid + last), w.instanceID);
    assert HandleNext(s1, w) == s1;
    acts := ReportAmid(w, s, front, s1, mid + last, s3);
  }

  // In a running pipeline a ticket that is under way and on the wire waits to be recorded.
  lemma OnWireIsAcked(s: Sys, id: string, n: nat)
    requires Inv(s) && s.stop.Running? && Open(s, n) && Of(s, id, n) && !Fresh(s, id, n)
    ensures n in s.flights && s.flights[n].Acked?
  {
    OpenPlaces(s, n);
  }

  lemma MissWithFresh(w: StatusEvent, s: Sys, v: nat) returns (acts: seq<Action>)
    requires Inv(s) && s.stop.Running? && !Held(w, s) && Fresh(s, w.instanceID, v) && s.accepted[v] != w
    ensures Misses(w, s, acts)
  {
    if !Latched(s.mon.lastSubmitted, w) {
      acts := MissByFresh(w, s, v);
    } else {
      var d: nat :| Open(s, d) && s.accepted[d].instanceID == w.instanceID && s.accepted[d].status == DELETED;
      if Fresh(s, w.instanceID, d) {
        acts := MissByFresh(w, s, d);
      } else {
        OnWireIsAcked(s, w.instanceID, d);
        acts := MissByLateDeleted(w, s, d, v);
      }
    }
  }

  lemma MissByUnlatching(w: StatusEvent, s: Sys, d: nat) returns (acts: seq<Action>)
    requires Inv(s) && s.stop.Running? && Latched(s.mon.lastSubmitted, w)
    requires !SomeFresh(s, w.instanceID) && !LastSent(s, w.instanceID, w)
    requires Open(s, d) && Of(s, w.instanceID, d) && s.accepted[d].status == DELETED
    ensures Misses(w, s, acts)
  {
    OnWireIsAcked(s, w.instanceID, d);
    var mid, s2 := Deliver(s, d);
    acts := MissBySilence(w, s, [], s, mid, s2);
  }

  lemma MissByRecording(w: StatusEvent, s: Sys, n: nat) returns (acts: seq<Action>)
    requires Inv(s) && s.stop.Running? && !Latched(s.mon.lastSubmitted, w) && w.status != DELETED
    requires !SomeFresh(s, w.instanceID) && !LastSent(s, w.instanceID, w)
    requires Open(s, n) && Of(s, w.instanceID, n) && s.accepted[n] == w
    ensures Misses(w, s, acts)
  {
    OnWireIsAcked(s, w.instanceID, n);
    var front, s1 := Deliver(s, n);
    acts := MissBySilence(w, s, front, s1, [], s1);
  }

  lemma MissWithoutFresh(w: StatusEvent, s: Sys) returns (acts: seq<Action>)
    requires Inv(s) && s.stop.Running? && w.status != DELETED && !Held(w, s)
    requires !SomeFresh(s, w.instanceID) && !LastSent(s, w.instanceID, w) && !WillPass(w, s)
    ensures Misses(w, s, acts)
  {
    if Latched(s.mon.lastSubmitted, w) {
      var d: nat :| Open(s, d) && s.accepted[d].instanceID == w.instanceID && s.accepted[d].status == DELETED;
      acts := MissByUnlatching(w, s, d);
    } else if !Admits(s.mon, w) {
      acts := MissBySilence(w, s, [], s, [], s);
    } else {
      var n: nat :| Open(s, n) && Of(s, w.instanceID, n) && s.accepted[n] == w;
      acts := MissByRecording(w, s, n);
    }
  }

  // ---- The exact condition ----

  ghost predicate AlwaysSettlesOnWire(w: StatusEvent, s: Sys) {
    forall acts ::
      && Legal(s, acts) && LosslessRun(w.instanceID, s, acts) && OnlyReports(w, acts) && Handle(w) in acts
      && Finished(Run(s, acts), w.instanceID)
      ==> SettledOnWire(Run(s, acts), w)
  }

  lemma ReadySettlesOnWire(w: StatusEvent, s: Sys, acts: seq<Action>)
    requires Inv(s) && s.stop.Running? && WireReady(w, s)
    requires Legal(s, acts) && LosslessRun(w.instanceID, s, acts) && OnlyReports(w, acts) && Handle(w) in acts
    requires Finished(Run(s, acts), w.instanceID)
    ensures SettledOnWire(Run(s, acts), w)
  {
    RunTracksWire(w, false, s, acts);
    assert !SomeFresh(Run(s, acts), w.instanceID);
  }

  lemma SettlesOnWireIffReady(w: StatusEvent, s: Sys)
    requires Inv(s) && s.stop.Running? && w.status != DELETED
    ensures AlwaysSettlesOnWire(w, s) <==> WireReady(w, s)
  {
    if WireReady(w, s) {
      forall acts | Legal(s, acts) && LosslessRun(w.instanceID, s, acts) && OnlyReports(w, acts) && Handle(w) in acts
                    && Finished(Run(s, acts), w.instanceID)
        ensures SettledOnWire(Run(s, acts), w)
      {
        ReadySettlesOnWire(w, s, acts);
      }
    } else {
      var acts: seq<Action>;
      if v: nat :| Fresh(s, w.instanceID, v) && s.accepted[v] != w {
        acts := MissWithFresh(w, s, v);
      } else {
        acts := MissWithoutFresh(w, s);
      }
    }
  }

  // A resync in which a PVC is reported brings its status last on the wire, or it is latched
  // out, in every run if and only if the start is ready in this sense.
  lemma ResyncReachesWire(pvcs: set<PVC>, s: Sys, p: PVC)
    requires Inv(s) && s.stop.Running? && DistinctIds(pvcs) && p in pvcs && Tracked(p)
    ensures (forall acts :: ResyncRun(pvcs, p, s, acts) ==> SettledOnWire(Run(s, acts), EventOfPVC(p)))
       <==> WireReady(EventOfPVC(p), s)
  {
    var w := EventOfPVC(p);
    SettlesOnWireIffReady(w, s);
    forall acts | Legal(s, acts)
      ensures ResyncRun(pvcs, p, s, acts) <==>
                && LosslessRun(w.instanceID, s, acts) && OnlyReports(w, acts) && Handle(w) in acts
                && Finished(Run(s, acts), w.instanceID)
    {
      PVCReportsAgree(pvcs, p, acts);
    }
  }

  // From rest it fails exactly where the status stands as published although something else
  // was sent after it, and no latch is in the way.
  lemma RestIsWireReady(w: StatusEvent, s: Sys)
    requires Inv(s) && s.stop.Running? && Quiescent(s)
    ensures !WireReady(w, s) <==>
              && AlreadyPublished(s.mon.lastPublished, w) && !Latched(s.mon.lastSubmitted, w)
              && !LastSent(s, w.instanceID, w)
  {
    forall n: nat ensures !Open(s, n) { assert Places(s, n) == OneIf(n < |s.accepted|); }
  }
}
