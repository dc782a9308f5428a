/**
 Where a resync ends, instance by instance: `w` is the one event that informer callbacks
 report for its instance, while every other instance does as it likes.
 */
module Convergence {
  import opened Events
  import opened MonitorCore
  import opened Pipeline
  import opened PipelineInvariants
  import opened PipelineProgress
  import opened History
  import opened Steering

  // ---- What a run may and may not do ----

  predicate Concerns(s: Sys, a: Actor, id: string) {
    Busy(s, a) && TicketOf(s, a) < |s.accepted| && EventOf(s, a).instanceID == id
  }

  // No publication of the instance is given up, and nothing is stopped.
  predicate Lossless(id: string, s: Sys, act: Action) {
    match act
    case Publish(a, ok) =>
      Concerns(s, a, id) ==> ok || (PhaseOf(s, a).Trying? && PhaseOf(s, a).attempt < s.maxAttempts)
    case GiveUp(a) => !Concerns(s, a, id)
    case StopBegin(_) => false
    case StopReturn => false
    case _ => true
  }

  ghost predicate LosslessRun(id: string, s: Sys, acts: seq<Action>)
    requires Legal(s, acts)
    decreases |acts|
  {
    acts == [] || (Lossless(id, s, acts[0]) && LosslessRun(id, Next(s, acts[0]), acts[1..]))
  }

  predicate Agrees(w: StatusEvent, act: Action) {
    act.Handle? && act.event.instanceID == w.instanceID ==> act.event == w
  }

  // `w` is all that is reported for its instance.
  predicate OnlyReports(w: StatusEvent, acts: seq<Action>) {
    forall i :: 0 <= i < |acts| ==> Agrees(w, acts[i])
  }

  // ---- Where it starts and ends ----

  // Nothing of the instance is under way any more.
  ghost predicate Finished(s: Sys, id: string) {
    forall n: nat :: Open(s, n) ==> s.accepted[n].instanceID != id
  }

  // This very status stands as published, or the FAILED latch holds it back.
  predicate Settled(s: Sys, w: StatusEvent) {
    AlreadyPublished(s.mon.lastPublished, w) || Latched(s.mon.lastSubmitted, w)
  }

  // All that is under way for the instance is `w`.
  ghost predicate Clean(w: StatusEvent, s: Sys) {
    forall n: nat :: Open(s, n) && s.accepted[n].instanceID == w.instanceID ==> s.accepted[n] == w
  }

  // `w` is latched out, and no DELETED is under way that could open the latch.
  ghost predicate Held(w: StatusEvent, s: Sys) {
    && Latched(s.mon.lastSubmitted, w)
    && forall n: nat :: Open(s, n) && s.accepted[n].instanceID == w.instanceID ==> s.accepted[n].status != DELETED
  }

  ghost predicate Ready(w: StatusEvent, s: Sys) {
    Clean(w, s) || Held(w, s)
  }

  // ---- From a ready state every such run settles ----

  ghost predicate Underway(s: Sys, w: StatusEvent) {
    exists n: nat :: Open(s, n) && s.accepted[n] == w
  }

  // Once reported, `w` is settled or under way.
  ghost predicate OnTrack(w: StatusEvent, reported: bool, s: Sys) {
    && s.stop.Running?
    && (Held(w, s) || (Clean(w, s) && (reported ==> Settled(s, w) || Underway(s, w))))
  }

  lemma TracksReport(w: StatusEvent, reported: bool, s: Sys, e: StatusEvent)
    requires Inv(s) && OnTrack(w, reported, s) && Agrees(w, Handle(e))
    ensures OnTrack(w, reported || e == w, HandleNext(s, e))
  {
    var s' := HandleNext(s, e);
    forall n: nat ensures Open(s, n) ==> Open(s', n) && s'.accepted[n] == s.accepted[n]
                  ensures Open(s', n) ==> Open(s, n) || (Admits(s.mon, e) && n == |s.accepted|)
    {
      OpenAfter(s, Handle(e), n);
    }
    if Admits(s.mon, e) {
      FreshIsOpen(s, e);
      if Underway(s, w) {
        var n: nat :| Open(s, n) && s.accepted[n] == w;
        assert Open(s', n) && s'.accepted[n] == w;
      }
    }
  }

  lemma TracksRecord(w: StatusEvent, reported: bool, s: Sys, a: Actor)
    requires Inv(s) && OnTrack(w, reported, s) && Enabled(s, Note(a)) && w.status != DELETED
    ensures OnTrack(w, reported, NoteNext(s, a))
  {
    var s', n := NoteNext(s, a), TicketOf(s, a);
    NoteCloses(s, a, n);
    forall m: nat ensures Open(s', m) <==> Open(s, m) && m != n { NoteCloses(s, a, m); }
    if Clean(w, s) && reported && s.accepted[n].instanceID != w.instanceID && Underway(s, w) {
      var m: nat :| Open(s, m) && s.accepted[m] == w;
      assert Open(s', m);
    }
  }

  // A superseded ticket carried the same event as the one that replaces it.
  lemma TracksEnqueue(w: StatusEvent, reported: bool, s: Sys, n: nat)
    requires Inv(s) && OnTrack(w, reported, s) && Enabled(s, Enqueue(n))
    ensures OnTrack(w, reported, EnqueueNext(s, n))
  {
    var s' := EnqueueNext(s, n);
    WaitingIsOpen(s, n);
    forall m: nat ensures Open(s', m) <==> Open(s, m) && Closes(s, Enqueue(n)) != Some(m) {
      EnqueueCloses(s, n, m);
    }
    assert Open(s, n) && Open(s', n);
    if Clean(w, s) && reported && Underway(s, w) {
      var m: nat :| Open(s, m) && s.accepted[m] == w;
      assert Open(s', if s.accepted[n].instanceID == w.instanceID then n else m);
    }
  }

  // Every other lossless step closes nothing of the instance and leaves the maps alone.
  lemma TracksOther(w: StatusEvent, reported: bool, s: Sys, act: Action)
    requires Inv(s) && OnTrack(w, reported, s) && Enabled(s, act) && Lossless(w.instanceID, s, act)
    requires !act.Handle? && !act.Note? && !act.Enqueue?
    ensures OnTrack(w, reported, Next(s, act))
  {
    var s' := Next(s, act);
    OtherwiseSilent(s, act);
    ClosesElsewhere(w.instanceID, s, act);
    forall n: nat ensures Open(s', n) ==> Open(s, n)
                  ensures Open(s, n) && s.accepted[n].instanceID == w.instanceID ==> Open(s', n)
    {
      StepCloses(s, act, n);
    }
    if Underway(s, w) {
      var n: nat :| Open(s, n) && s.accepted[n] == w;
      assert Open(s', n);
    }
  }

  lemma ClosesElsewhere(id: string, s: Sys, act: Action)
    requires s.stop.Running? && Enabled(s, act) && Lossless(id, s, act)
    requires !act.Handle? && !act.Note? && !act.Enqueue?
    ensures Next(s, act).stop.Running?
    ensures var n := Closes(s, act); n.Some? && n.value < |s.accepted| ==> s.accepted[n.value].instanceID != id
  {
    match act
    case Publish(a, ok) => assert Next(s, act).stop == s.stop;
    case GiveUp(a) => assert Next(s, act).stop == s.stop;
    case Retry(a) => assert Next(s, act).stop == s.stop;
    case Finish(a) => assert Next(s, act).stop == s.stop;
    case RunCallback(t) => assert Next(s, act).stop == s.stop;
    case Tick(_) => assert Next(s, act).stop == s.stop;
    case Fire(_) => assert Next(s, act).stop == s.stop;
  }

  lemma StepTracks(w: StatusEvent, reported: bool, s: Sys, act: Action)
    requires Inv(s) && OnTrack(w, reported, s) && w.status != DELETED
    requires Enabled(s, act) && Lossless(w.instanceID, s, act) && Agrees(w, act)
    ensures OnTrack(w, reported || act == Handle(w), Next(s, act))
  {
    match act
    case Handle(e) => TracksReport(w, reported, s, e);
    case Note(a) => TracksRecord(w, reported, s, a);
    case Enqueue(n) => TracksEnqueue(w, reported, s, n);
    case _ => TracksOther(w, reported, s, act);
  }

  lemma ReportsUnfold(w: StatusEvent, acts: seq<Action>)
    requires acts != [] && OnlyReports(w, acts)
    ensures Agrees(w, acts[0]) && OnlyReports(w, acts[1..])
    ensures Handle(w) in acts <==> acts[0] == Handle(w) || Handle(w) in acts[1..]
  {
    assert acts == [acts[0]] + acts[1..];
  }

  lemma {:induction false} RunTracks(w: StatusEvent, reported: bool, s: Sys, acts: seq<Action>)
    requires Inv(s) && OnTrack(w, reported, s) && w.status != DELETED
    requires Legal(s, acts) && LosslessRun(w.instanceID, s, acts) && OnlyReports(w, acts)
    ensures OnTrack(w, reported || Handle(w) in acts, Run(s, acts))
    decreases |acts|
  {
    if acts != [] {
      ReportsUnfold(w, acts);
      NextKeeps(s, acts[0]);
      StepTracks(w, reported, s, acts[0]);
      RunTracks(w, reported || acts[0] == Handle(w), Next(s, acts[0]), acts[1..]);
    }
  }

  // ---- From any other state some such run does not ----

  lemma {:induction false} SteeredIsLossless(w: StatusEvent, s: Sys, acts: seq<Action>, s': Sys)
    requires Steered(s, acts, s')
    ensures LosslessRun(w.instanceID, s, acts) && OnlyReports(w, acts)
    decreases |acts|
  {
    if acts != [] {
      assert Calm(acts[0]);
      SteeredIsLossless(w, Next(s, acts[0]), acts[1..], s');
    }
  }

  lemma {:induction false} LosslessJoins(id: string, s: Sys, front: seq<Action>, back: seq<Action>)
    requires Legal(s, front) && LosslessRun(id, s, front)
    requires Legal(Run(s, front), back) && LosslessRun(id, Run(s, front), back)
    ensures Legal(s, front + back) && Run(s, front + back) == Run(Run(s, front), back)
    ensures LosslessRun(id, s, front + back)
    decreases |front|
  {
    if front == [] {
      assert front + back == back;
    } else {
      assert (front + back)[0] == front[0] && (front + back)[1..] == front[1..] + back;
      LosslessJoins(id, Next(s, front[0]), front[1..], back);
    }
  }

  // The run: report `w` somewhere among steered steps.
  lemma ReportAmid(w: StatusEvent, s: Sys, front: seq<Action>, s1: Sys, back: seq<Action>, s3: Sys)
    returns (acts: seq<Action>)
    requires Steered(s, front, s1) && Steered(HandleNext(s1, w), back, s3)
    ensures Legal(s, acts) && Run(s, acts) == s3
    ensures LosslessRun(w.instanceID, s, acts) && OnlyReports(w, acts) && Handle(w) in acts
  {
    var s2 := HandleNext(s1, w);
    SteeredIsLossless(w, s, front, s1);
    SteeredIsLossless(w, s2, back, s3);
    RunCons(s1, Handle(w), back);
    var rest := [Handle(w)] + back;
    assert rest[0] == Handle(w) && rest[1..] == back;
    LosslessJoins(w.instanceID, s, front, rest);
    acts := front + rest;
    assert acts[|front|] == Handle(w);
  }

  // A ticket of the instance that carries something else.
  predicate Deviates(w: StatusEvent, s: Sys, v: nat) {
    && v < |s.accepted| && s.accepted[v].instanceID == w.instanceID && s.accepted[v] != w
    && (!Latched(s.mon.lastSubmitted, w) || s.accepted[v].status == DELETED)
  }

  lemma RecordedLastUnsettles(w: StatusEvent, s: Sys, m: MState, v: nat)
    requires Deviates(w, s, v) && m == Record(s.mon, s.accepted[v])
    ensures !AlreadyPublished(m.lastPublished, w) && !Latched(m.lastSubmitted, w)
  {
  }

  // Everything is delivered, the deviating ticket last.
  lemma DeviantLast(w: StatusEvent, s: Sys, v: nat) returns (acts: seq<Action>, s': Sys)
    requires Inv(s) && s.stop.Running? && Deviates(w, s, v)
    requires v in s.flights && !IsOver(s.flights[v])
    ensures Steered(s, acts, s') && Inv(s') && Finished(s', w.instanceID) && !Settled(s', w)
  {
    var front, s1 := DrainBut(s, {v}, Work(s));
    assert Deviates(w, s1, v);
    var back, s2 := Deliver(s1, v);
    SteerOn(s, front, s1, back, s2);
    forall n: nat ensures !Open(s2, n) { OpenShrinks(s1, back, n); }
    RecordedLastUnsettles(w, s1, s2.mon, v);
    acts, s' := front + back, s2;
  }

  lemma Upset(w: StatusEvent, s: Sys, v: nat) returns (acts: seq<Action>)
    requires Inv(s) && s.stop.Running? && Open(s, v) && Deviates(w, s, v)
    ensures Legal(s, acts) && LosslessRun(w.instanceID, s, acts) && OnlyReports(w, acts) && Handle(w) in acts
    ensures Finished(Run(s, acts), w.instanceID) && !Settled(Run(s, acts), w)
  {
    var front, s1 := ToFlight(s, v);
    HandleKeeps(s1, w);
    var s2 := HandleNext(s1, w);
    assert Deviates(w, s2, v);
    var back, s3 := DeviantLast(w, s2, v);
    acts := ReportAmid(w, s, front, s1, back, s3);
  }

  // ---- The exact condition ----

  // Every run that reports `w` for its instance, at least once and nothing else, and loses
  // nothing of that instance, has settled `w` when nothing of the instance is under way.
  ghost predicate AlwaysSettles(w: StatusEvent, s: Sys) {
    forall acts ::
      && Legal(s, acts) && LosslessRun(w.instanceID, s, acts) && OnlyReports(w, acts) && Handle(w) in acts
      && Finished(Run(s, acts), w.instanceID)
      ==> Settled(Run(s, acts), w)
  }

  lemma SettlesWhenReady(w: StatusEvent, s: Sys, acts: seq<Action>)
    requires Inv(s) && s.stop.Running? && w.status != DELETED && Ready(w, s)
    requires Legal(s, acts) && LosslessRun(w.instanceID, s, acts) && OnlyReports(w, acts) && Handle(w) in acts
    requires Finished(Run(s, acts), w.instanceID)
    ensures Settled(Run(s, acts), w)
  {
    RunTracks(w, false, s, acts);
    assert forall n: nat :: Open(Run(s, acts), n) ==> Run(s, acts).accepted[n] != w;
  }

  lemma DeviantIfNotReady(w: StatusEvent, s: Sys) returns (v: nat)
    requires !Ready(w, s)
    ensures Open(s, v) && Deviates(w, s, v)
  {
    v :| Open(s, v) && s.accepted[v].instanceID == w.instanceID && s.accepted[v] != w;
    if Latched(s.mon.lastSubmitted, w) {
      v :| Open(s, v) && s.accepted[v].instanceID == w.instanceID && s.accepted[v].status == DELETED;
    }
  }

  lemma SettlesIffReady(w: StatusEvent, s: Sys)
    requires Inv(s) && s.stop.Running? && w.status != DELETED
    ensures AlwaysSettles(w, s) <==> Ready(w, s)
  {
    if Ready(w, s) {
      forall acts | Legal(s, acts) && LosslessRun(w.instanceID, s, acts) && OnlyReports(w, acts) && Handle(w) in acts
                    && Finished(Run(s, acts), w.instanceID)
        ensures Settled(Run(s, acts), w)
      {
        SettlesWhenReady(w, s, acts);
      }
    } else {
      var v := DeviantIfNotReady(w, s);
      var acts := Upset(w, s, v);
    }
  }

  // Such runs always exist, and can be made to end.
  lemma ReportAndFinish(w: StatusEvent, s: Sys) returns (acts: seq<Action>)
    requires Inv(s) && s.stop.Running?
    ensures Legal(s, acts) && LosslessRun(w.instanceID, s, acts) && OnlyReports(w, acts) && Handle(w) in acts
    ensures Finished(Run(s, acts), w.instanceID)
  {
    HandleKeeps(s, w);
    var s1 := HandleNext(s, w);
    var back, s2 := DrainBut(s1, {}, Work(s1));
    acts := ReportAmid(w, s, [], s, back, s2);
  }
}
