/** A resync, or the initial list, hands every PVC to the informer callback; what comes of it. */
module Resync {
  import opened Events
  import opened MonitorCore
  import opened Pipeline
  import opened PipelineInvariants
  import opened PipelineProgress
  import opened History
  import opened Convergence
  import opened Reports
  import opened Volumes

  ghost predicate DistinctIds(pvcs: set<PVC>) {
    forall p, q :: p in pvcs && q in pvcs && Tracked(p) && InstanceID(p) == InstanceID(q) ==> p == q
  }

  // What is reported for the instance is what its PVC among these maps to.
  ghost predicate ReportsPVCs(pvcs: set<PVC>, id: string, acts: seq<Action>) {
    forall e :: Handle(e) in acts && e.instanceID == id ==> exists q :: q in pvcs && Tracked(q) && e == EventOfPVC(q)
  }

  lemma PVCReportsAgree(pvcs: set<PVC>, p: PVC, acts: seq<Action>)
    requires DistinctIds(pvcs) && p in pvcs && Tracked(p)
    ensures ReportsPVCs(pvcs, InstanceID(p), acts) <==> OnlyReports(EventOfPVC(p), acts)
  {
    if ReportsPVCs(pvcs, InstanceID(p), acts) {
      forall i | 0 <= i < |acts| ensures Agrees(EventOfPVC(p), acts[i]) {
        if acts[i].Handle? { assert Handle(acts[i].event) in acts; }
      }
    }
    if OnlyReports(EventOfPVC(p), acts) {
      forall e | Handle(e) in acts && e.instanceID == InstanceID(p)
        ensures exists q :: q in pvcs && Tracked(q) && e == EventOfPVC(q)
      {
        var i :| 0 <= i < |acts| && acts[i] == Handle(e);
        assert Agrees(EventOfPVC(p), acts[i]);
      }
    }
  }

  // A run over these PVCs, as far as one of them is concerned: it is reported, nothing of it
  // is given up, nothing is stopped, and in the end nothing of it is under way. The other
  // volumes' callbacks, publications and deletions are not restricted.
  ghost predicate ResyncRun(pvcs: set<PVC>, p: PVC, s: Sys, acts: seq<Action>) {
    && Legal(s, acts) && LosslessRun(InstanceID(p), s, acts)
    && ReportsPVCs(pvcs, InstanceID(p), acts) && Handle(EventOfPVC(p)) in acts
    && Finished(Run(s, acts), InstanceID(p))
  }

  // The PVC's present status and message stand as published, or FAILED is latched over
  // PROVISIONING.
  predicate Shown(s: Sys, p: PVC) {
    var id := InstanceID(p);
    || (id in s.mon.lastPublished && s.mon.lastPublished[id] == StatusEvent(id, StatusOf(p).0, StatusOf(p).1))
    || (id in s.mon.lastSubmitted && s.mon.lastSubmitted[id].status == FAILED && StatusOf(p).0 == PROVISIONING)
  }

  lemma ShownIfSettled(s: Sys, p: PVC)
    requires MInv(s.mon)
    ensures Shown(s, p) <==> Settled(s, EventOfPVC(p))
  {
    if InstanceID(p) in s.mon.lastPublished {
      PublishedIsNewestRecord(s.mon.log, InstanceID(p));
    }
  }

  // A PVC is shown at the end of every such run if and only if, at the start, all that is
  // under way for it is its present status, or the latch holds that status back and no
  // DELETED of it is under way.
  lemma ResyncConverges(pvcs: set<PVC>, s: Sys, p: PVC)
    requires Inv(s) && s.stop.Running? && DistinctIds(pvcs) && p in pvcs && Tracked(p)
    ensures (forall acts :: ResyncRun(pvcs, p, s, acts) ==> Shown(Run(s, acts), p)) <==> Ready(EventOfPVC(p), s)
  {
    var w := EventOfPVC(p);
    SettlesIffReady(w, s);
    forall acts | Legal(s, acts)
      ensures ResyncRun(pvcs, p, s, acts) <==>
                && LosslessRun(w.instanceID, s, acts) && OnlyReports(w, acts) && Handle(w) in acts
                && Finished(Run(s, acts), w.instanceID)
      ensures Shown(Run(s, acts), p) <==> Settled(Run(s, acts), w)
    {
      PVCReportsAgree(pvcs, p, acts);
      RunKeeps(s, acts);
      ShownIfSettled(Run(s, acts), p);
    }
  }

  // In particular a resync that starts at rest converges.
  lemma ResyncFromRest(pvcs: set<PVC>, s: Sys, p: PVC, acts: seq<Action>)
    requires Inv(s) && s.stop.Running? && Quiescent(s) && DistinctIds(pvcs) && p in pvcs && Tracked(p)
    requires ResyncRun(pvcs, p, s, acts)
    ensures Shown(Run(s, acts), p)
  {
    forall n: nat ensures !Open(s, n) { assert Places(s, n) == OneIf(n < |s.accepted|); }
    ResyncConverges(pvcs, s, p);
  }
}
