/**
 When a delivery can be repeated in the order of the records: the exact condition on the
 state, at the grain of the locks. `WireDuplicates` says it of the order on the wire.
 */
module Duplicates {
  import opened Events
  import opened MonitorCore
  import opened Pipeline
  import opened PipelineInvariants
  import opened PipelineSafety
  import opened History
  import opened Steering

  predicate Unreported(acts: seq<Action>) {
    forall i :: 0 <= i < |acts| ==> !acts[i].Handle?
  }

  // A record of the instance from position `from` on repeats the one before it, and is not DELETED.
  ghost predicate RepeatsSince(log: seq<Section>, id: string, from: nat) {
    exists i: nat, j: nat ::
      Repeats(log, i, j) && from <= j && log[j].event.instanceID == id && log[j].event.status != DELETED
  }

  ghost predicate CanRepeat(s: Sys, id: string) {
    exists acts :: Legal(s, acts) && Unreported(acts) && RepeatsSince(Run(s, acts).mon.log, id, |s.mon.log|)
  }

  predicate OpenFor(s: Sys, id: string, n: nat) {
    Open(s, n) && s.accepted[n].instanceID == id && s.accepted[n].status != DELETED
  }

  // Something under way equals what stands as published, or is under way twice.
  ghost predicate Primed(s: Sys, id: string) {
    || (exists n: nat :: OpenFor(s, id, n) && id in s.mon.lastPublished && s.mon.lastPublished[id] == s.accepted[n])
    || (exists a: nat, b: nat :: OpenFor(s, id, a) && OpenFor(s, id, b) && a != b && s.accepted[a] == s.accepted[b])
  }

  // ---- What a continuation without reports can record ----

  lemma StepGrows(s: Sys, act: Action)
    requires Enabled(s, act)
    ensures s.mon.log <= Next(s, act).mon.log && s.whose <= Next(s, act).whose
    ensures !act.Handle? && !act.Note? ==> Next(s, act).mon.log == s.mon.log
  {
    if !act.Handle? && !act.Note? { OtherwiseSilent(s, act); }
  }

  lemma {:induction false} RunGrows(s: Sys, acts: seq<Action>)
    requires Legal(s, acts)
    ensures s.mon.log <= Run(s, acts).mon.log && s.whose <= Run(s, acts).whose
    decreases |acts|
  {
    if acts != [] {
      StepGrows(s, acts[0]);
      RunGrows(Next(s, acts[0]), acts[1..]);
    }
  }

  lemma NotedWasOpen(s: Sys, act: Action)
    requires Inv(s) && |s.whose| == |s.mon.log| && Enabled(s, act) && act.Note?
    ensures var s' := Next(s, act);
            && |s'.mon.log| == |s'.whose| == |s.mon.log| + 1
            && s'.mon.log[|s.mon.log|].Recorded? && Open(s, s'.whose[|s.mon.log|])
  {
    BusyTicket(s, act.actor);
    NoteCloses(s, act.actor, TicketOf(s, act.actor));
  }

  lemma OpenBefore(s: Sys, act: Action, n: nat)
    requires Inv(s) && Enabled(s, act) && !act.Handle? && Open(Next(s, act), n)
    ensures Open(s, n)
  {
    StepCloses(s, act, n);
    SameAccepted(s, act);
  }

  // What a first step records, the rest of the run keeps.
  lemma NotedIsKept(s: Sys, act: Action, rest: seq<Action>, k: nat)
    requires Inv(s) && |s.whose| == |s.mon.log| && Enabled(s, act) && !act.Handle? && Legal(Next(s, act), rest)
    requires |s.mon.log| <= k < |Next(s, act).mon.log|
    ensures var end := Run(Next(s, act), rest);
            && k < |end.whose| && k < |end.mon.log| && end.mon.log[k].Recorded? && Open(s, end.whose[k])
  {
    StepGrows(s, act);
    RunGrows(Next(s, act), rest);
    NotedWasOpen(s, act);
  }

  // Whatever it records was open at its start.
  lemma {:induction false} RecordedWasOpen(s: Sys, acts: seq<Action>, k: nat)
    requires Inv(s) && Owned(s) && Legal(s, acts) && Unreported(acts)
    requires |s.mon.log| <= k < |Run(s, acts).mon.log|
    ensures k < |Run(s, acts).whose| && Run(s, acts).mon.log[k].Recorded? && Open(s, Run(s, acts).whose[k])
    decreases |acts|
  {
    var s1 := Next(s, acts[0]);
    if k >= |s1.mon.log| {
      NextKeeps(s, acts[0]);
      StepOwned(s, acts[0]);
      RecordedWasOpen(s1, acts[1..], k);
      OpenBefore(s, acts[0], Run(s1, acts[1..]).whose[k]);
    } else {
      NotedIsKept(s, acts[0], acts[1..], k);
    }
  }

  lemma RepeatOfPublished(s: Sys, end: Sys, i: nat, j: nat)
    requires MInv(s.mon) && s.mon.log <= end.mon.log && Repeats(end.mon.log, i, j)
    requires i < |s.mon.log| <= j && end.mon.log[j].event.status != DELETED
    ensures var e := end.mon.log[j].event;
            e.instanceID in s.mon.lastPublished && s.mon.lastPublished[e.instanceID] == e
  {
    var log := s.mon.log;
    assert log[..|log|] == log && forall k :: 0 <= k < |log| ==> log[k] == end.mon.log[k];
    PublishedStays(log, i, |log|);
  }

  lemma RepeatIsPrimed(s: Sys, acts: seq<Action>, i: nat, j: nat)
    requires Inv(s) && Owned(s) && Legal(s, acts) && Unreported(acts)
    requires var log := Run(s, acts).mon.log;
             Repeats(log, i, j) && |s.mon.log| <= j && log[j].event.status != DELETED
    ensures Primed(s, Run(s, acts).mon.log[j].event.instanceID)
  {
    var end := Run(s, acts);
    RunOwned(s, acts);
    RunGrows(s, acts);
    RecordedWasOpen(s, acts, j);
    var b := end.whose[j];
    OpenShrinks(s, acts, b);
    assert s.accepted[b] == end.mon.log[j].event;
    assert OpenFor(s, s.accepted[b].instanceID, b);
    if i < |s.mon.log| {
      RepeatOfPublished(s, end, i, j);
    } else {
      RecordedWasOpen(s, acts, i);
      assert OpenFor(s, s.accepted[b].instanceID, end.whose[i]);
    }
  }

  // ---- How to bring a repeat about ----

  lemma RepeatPublished(s: Sys, id: string, n: nat) returns (acts: seq<Action>)
    requires Inv(s) && s.stop.Running? && OpenFor(s, id, n)
    requires id in s.mon.lastPublished && s.mon.lastPublished[id] == s.accepted[n]
    ensures Legal(s, acts) && Unreported(acts) && RepeatsSince(Run(s, acts).mon.log, id, |s.mon.log|)
  {
    var front, s1 := ToFlight(s, n);
    var back, s2 := Deliver(s1, n);
    SteerOn(s, front, s1, back, s2);
    acts := front + back;
    RepeatsNewest(s.mon, id);
  }

  lemma RepeatsNewest(m: MState, id: string)
    requires MInv(m) && id in m.lastPublished
    ensures RepeatsSince(m.log + [Recorded(m.lastPublished[id])], id, |m.log|)
  {
    PublishedIsNewestRecord(m.log, id);
    var e := m.lastPublished[id];
    var k :| 0 <= k < |m.log| && m.log[k] == Recorded(e)
             && forall i :: k < i < |m.log| && m.log[i].Recorded? ==> m.log[i].event.instanceID != id;
    assert Repeats(m.log + [Recorded(e)], k, |m.log|);
  }

  lemma DeliverBoth(s: Sys, a: nat, b: nat) returns (acts: seq<Action>, s': Sys)
    requires Inv(s) && s.stop.Running? && a != b && a < |s.accepted| && b < |s.accepted|
    requires forall n :: n in {a, b} ==> n in s.flights && !IsOver(s.flights[n])
    ensures Steered(s, acts, s') && s'.mon == Record(Record(s.mon, s.accepted[a]), s.accepted[b])
  {
    var front, s1 := Deliver(s, a);
    var back, s2 := Deliver(s1, b);
    SteerOn(s, front, s1, back, s2);
    acts, s' := front + back, s2;
  }

  // Both are in flight at once, and then delivered one after the other.
  lemma RepeatBoth(s: Sys, id: string, a: nat, b: nat) returns (acts: seq<Action>)
    requires Inv(s) && s.stop.Running? && OpenFor(s, id, a) && OpenFor(s, id, b) && a != b && !Pends(s, b)
    requires s.accepted[a] == s.accepted[b]
    ensures Legal(s, acts) && Unreported(acts) && RepeatsSince(Run(s, acts).mon.log, id, |s.mon.log|)
  {
    var front, s1 := BothToFlight(s, a, b);
    var back, s2 := DeliverBoth(s1, a, b);
    SteerOn(s, front, s1, back, s2);
    acts := front + back;
    assert Repeats(s2.mon.log, |s.mon.log|, |s.mon.log| + 1);
  }

  lemma PrimedRepeats(s: Sys, id: string)
    requires Inv(s) && s.stop.Running? && Primed(s, id)
    ensures CanRepeat(s, id)
  {
    if n: nat :| OpenFor(s, id, n) && id in s.mon.lastPublished && s.mon.lastPublished[id] == s.accepted[n] {
      var acts := RepeatPublished(s, id, n);
    } else {
      var a: nat, b: nat :| OpenFor(s, id, a) && OpenFor(s, id, b) && a != b && s.accepted[a] == s.accepted[b];
      var acts: seq<Action>;
      if Pends(s, b) { acts := RepeatBoth(s, id, b, a); } else { acts := RepeatBoth(s, id, a, b); }
    }
  }

  lemma ContinuationIsPrimed(s: Sys, acts: seq<Action>, id: string)
    requires Inv(s) && Owned(s) && Legal(s, acts) && Unreported(acts)
    requires RepeatsSince(Run(s, acts).mon.log, id, |s.mon.log|)
    ensures Primed(s, id)
  {
    var log := Run(s, acts).mon.log;
    var i: nat, j: nat :| Repeats(log, i, j) && |s.mon.log| <= j
                          && log[j].event.instanceID == id && log[j].event.status != DELETED;
    RepeatIsPrimed(s, acts, i, j);
  }

  // Without a new report, a record of an instance, other than DELETED, can be repeated by the
  // next one if and only if something under way for it equals what stands as published, or is
  // under way twice.
  lemma RepeatsIffPrimed(configuredAttempts: int, interval: int, acts: seq<Action>, s: Sys, id: string)
    requires Reaches(configuredAttempts, interval, acts, s) && s.stop.Running?
    ensures CanRepeat(s, id) <==> Primed(s, id)
  {
    ReachableOwned(configuredAttempts, interval, acts, s);
    if Primed(s, id) { PrimedRepeats(s, id); }
    if CanRepeat(s, id) {
      var more :| Legal(s, more) && Unreported(more) && RepeatsSince(Run(s, more).mon.log, id, |s.mon.log|);
      ContinuationIsPrimed(s, more, id);
    }
  }
}
