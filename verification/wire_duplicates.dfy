/**
 When the subscriber can be sent the same thing twice in a row: the exact condition on the
 state, at the grain of the locks.
 */
module WireDuplicates {
  import opened Events
  import opened Pipeline
  import opened PipelineInvariants
  import opened PipelineSafety
  import opened History
  import opened Steering
  import opened Wire
  import Duplicates

  // The event at position k is not DELETED and repeats what came just before it.
  predicate RepeatAt(events: seq<StatusEvent>, k: nat) {
    1 <= k < |events| && events[k] == events[k - 1] && events[k].status != DELETED
  }

  ghost predicate RepeatsFrom(events: seq<StatusEvent>, from: nat) {
    exists k: nat :: from <= k && RepeatAt(events, k)
  }

  ghost predicate CanRepeatOnWire(s: Sys, id: string) {
    exists acts :: Legal(s, acts) && Duplicates.Unreported(acts) && RepeatsFrom(Sent(Run(s, acts), id), |Sent(s, id)|)
  }

  predicate FreshFor(s: Sys, id: string, n: nat) {
    Fresh(s, id, n) && s.accepted[n].status != DELETED
  }

  // Something not yet on the wire equals what was sent last, or there are two alike.
  ghost predicate WirePrimed(s: Sys, id: string) {
    || (exists n: nat :: FreshFor(s, id, n) && LastSent(s, id, s.accepted[n]))
    || (exists a: nat, b: nat :: FreshFor(s, id, a) && FreshFor(s, id, b) && a != b && s.accepted[a] == s.accepted[b])
  }

  // ---- From a state that is not primed, no repeat can come about ----

  // A step that sends nothing of the instance.
  lemma SilentUnprimed(s: Sys, id: string, s': Sys)
    requires !WirePrimed(s, id) && s'.accepted == s.accepted && Sent(s', id) == Sent(s, id)
    requires forall n: nat :: Fresh(s', id, n) ==> Fresh(s, id, n)
    ensures !WirePrimed(s', id)
  {
  }

  // What is sent differs from what was sent before it and from all that is left to send.
  lemma SendUnprimed(s: Sys, id: string, s': Sys, n: nat)
    requires !WirePrimed(s, id) && s'.accepted == s.accepted && Fresh(s, id, n)
    requires Sent(s', id) == Sent(s, id) + [s.accepted[n]]
    requires forall m: nat :: Fresh(s', id, m) ==> Fresh(s, id, m) && m != n
    ensures !WirePrimed(s', id)
    ensures s.accepted[n].status != DELETED ==> !LastSent(s, id, s.accepted[n])
  {
    forall m: nat | FreshFor(s', id, m) ensures FreshFor(s, id, m) && s.accepted[m] != s.accepted[n] { }
  }

  lemma NewestRepeats(events: seq<StatusEvent>, e: StatusEvent)
    requires RepeatsFrom(events + [e], |events|)
    ensures e.status != DELETED && events != [] && events[|events| - 1] == e
  {
  }

  lemma StepUnprimed(s: Sys, act: Action, id: string)
    requires Inv(s) && Enabled(s, act) && !act.Handle? && !WirePrimed(s, id)
    ensures !WirePrimed(Next(s, act), id)
    ensures Sent(s, id) <= Sent(Next(s, act), id) && !RepeatsFrom(Sent(Next(s, act), id), |Sent(s, id)|)
  {
    var s' := Next(s, act);
    StepSent(s, act, id);
    SameAccepted(s, act);
    forall n: nat ensures Fresh(s', id, n) ==> Fresh(s, id, n) && !Sends(s, act, n) { StepFresh(s, act, id, n); }
    if act.Publish? && act.ok && Of(s, id, TicketOf(s, act.actor)) {
      var n := TicketOf(s, act.actor);
      SendUnprimed(s, id, s', n);
      if RepeatsFrom(Sent(s', id), |Sent(s, id)|) { NewestRepeats(Sent(s, id), s.accepted[n]); }
    } else {
      SilentUnprimed(s, id, s');
    }
  }

  lemma RepeatsLater(events: seq<StatusEvent>, more: seq<StatusEvent>, from: nat)
    requires events <= more && from <= |events| && RepeatsFrom(more, from)
    ensures RepeatsFrom(events, from) || RepeatsFrom(more, |events|)
  {
    var k: nat :| from <= k && RepeatAt(more, k);
    if k < |events| { assert RepeatAt(events, k); }
  }

  lemma {:induction false} RunUnprimed(s: Sys, acts: seq<Action>, id: string)
    requires Inv(s) && Legal(s, acts) && Duplicates.Unreported(acts) && !WirePrimed(s, id)
    ensures Sent(s, id) <= Sent(Run(s, acts), id) && !RepeatsFrom(Sent(Run(s, acts), id), |Sent(s, id)|)
    decreases |acts|
  {
    if acts != [] {
      var s1 := Next(s, acts[0]);
      NextKeeps(s, acts[0]);
      StepUnprimed(s, acts[0], id);
      RunUnprimed(s1, acts[1..], id);
      if RepeatsFrom(Sent(Run(s, acts), id), |Sent(s, id)|) {
        RepeatsLater(Sent(s1, id), Sent(Run(s, acts), id), |Sent(s, id)|);
      }
    }
  }

  // ---- From a primed one, a repeat can be brought about ----

  // A ticket that is not on the wire and in flight is not acknowledged.
  lemma FreshInFlight(s: Sys, s': Sys, id: string, n: nat)
    requires Inv(s) && Inv(s') && Fresh(s, id, n) && s'.wire == s.wire
    requires n in s'.flights && !IsOver(s'.flights[n])
    ensures !s'.flights[n].Acked?
  {
    assert multiset(s.wire)[n] == s.delivered[n] + AckedNow(s, n);
    assert multiset(s'.wire)[n] == s'.delivered[n] + AckedNow(s', n);
  }

  lemma SendFlying(s: Sys, id: string, n: nat) returns (acts: seq<Action>, s': Sys)
    requires Inv(s) && s.stop.Running? && n in s.flights && !IsOver(s.flights[n]) && !s.flights[n].Acked?
    requires Of(s, id, n)
    ensures Steered(s, acts, s') && Inv(s') && s'.stop == s.stop && s'.accepted == s.accepted && s'.mon == s.mon
    ensures Sent(s', id) == Sent(s, id) + [s.accepted[n]] && s'.flights == s.flights[n := Acked]
  {
    acts, s' := ToAcked(s, n);
    WireOfGrows(s.accepted, s.wire, id, n);
  }

  lemma SendFresh(s: Sys, id: string, n: nat) returns (acts: seq<Action>, s': Sys)
    requires Inv(s) && s.stop.Running? && Fresh(s, id, n)
    ensures Steered(s, acts, s') && Inv(s') && s'.stop.Running?
    ensures Sent(s', id) == Sent(s, id) + [s.accepted[n]]
  {
    var front, s1 := ToFlight(s, n);
    FreshInFlight(s, s1, id, n);
    var back, s2 := SendFlying(s1, id, n);
    SteerOn(s, front, s1, back, s2);
    acts, s' := front + back, s2;
  }

  // Both are in flight at once, and then sent one after the other.
  lemma SendBoth(s: Sys, id: string, a: nat, b: nat) returns (acts: seq<Action>, s': Sys)
    requires Inv(s) && s.stop.Running? && Fresh(s, id, a) && Fresh(s, id, b) && a != b && !Pends(s, b)
    ensures Steered(s, acts, s') && Sent(s', id) == Sent(s, id) + [s.accepted[a]] + [s.accepted[b]]
  {
    var acts1, s1 := BothToFlight(s, a, b);
    FreshInFlight(s, s1, id, a);
    FreshInFlight(s, s1, id, b);
    var acts2, s2 := SendFlying(s1, id, a);
    SteerOn(s, acts1, s1, acts2, s2);
    var acts3, s3 := SendFlying(s2, id, b);
    SteerOn(s, acts1 + acts2, s2, acts3, s3);
    acts, s' := acts1 + acts2 + acts3, s3;
  }

  lemma RepeatsLast(events: seq<StatusEvent>, e: StatusEvent)
    requires events != [] && events[|events| - 1] == e && e.status != DELETED
    ensures RepeatsFrom(events + [e], |events|)
  {
    assert RepeatAt(events + [e], |events|);
  }

  lemma RepeatsTwice(events: seq<StatusEvent>, e: StatusEvent)
    requires e.status != DELETED
    ensures RepeatsFrom(events + [e] + [e], |events|)
  {
    assert RepeatAt(events + [e] + [e], |events| + 1);
  }

  lemma PrimedRepeatsOnWire(s: Sys, id: string)
    requires Inv(s) && s.stop.Running? && WirePrimed(s, id)
    ensures CanRepeatOnWire(s, id)
  {
    var acts: seq<Action>, s': Sys;
    if n: nat :| FreshFor(s, id, n) && LastSent(s, id, s.accepted[n]) {
      acts, s' := SendFresh(s, id, n);
      RepeatsLast(Sent(s, id), s.accepted[n]);
    } else {
      var a: nat, b: nat :| FreshFor(s, id, a) && FreshFor(s, id, b) && a != b && s.accepted[a] == s.accepted[b];
      if Pends(s, b) { acts, s' := SendBoth(s, id, b, a); } else { acts, s' := SendBoth(s, id, a, b); }
      RepeatsTwice(Sent(s, id), s.accepted[a]);
    }
  }

  // Without a new report, an instance's subscriber can be sent something other than DELETED
  // twice in a row if and only if something under way and not yet on the wire equals what was
  // sent last, or two such things are alike. From a state without these, not even Stop does it.
  lemma RepeatsOnWireIffPrimed(configuredAttempts: int, interval: int, acts: seq<Action>, s: Sys, id: string)
    requires Reaches(configuredAttempts, interval, acts, s) && s.stop.Running?
    ensures CanRepeatOnWire(s, id) <==> WirePrimed(s, id)
  {
    ReachableInv(configuredAttempts, interval, acts, s);
    if WirePrimed(s, id) { PrimedRepeatsOnWire(s, id); }
    if CanRepeatOnWire(s, id) && !WirePrimed(s, id) {
      var more :| Legal(s, more) && Duplicates.Unreported(more)
                  && RepeatsFrom(Sent(Run(s, more), id), |Sent(s, id)|);
      RunUnprimed(s, more, id);
      assert false;
    }
  }
}
