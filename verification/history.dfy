/**
 Which tickets the monitor's history is about, and when a ticket is closed: recorded, given
 up, dropped or superseded, so that it can never be recorded again.
 */
module History {
  import opened Events
  import opened MonitorCore
  import opened Pipeline
  import opened PipelineInvariants
  import opened PipelineSafety
  import D = Debounce

  predicate IsOver(p: Phase) { p.Noted? || p.Abandoned? }

  predicate Gone(s: Sys, n: nat) {
    s.dropped[n] + s.superseded[n] + s.delivered[n] + s.abandoned[n] >= 1
  }

  predicate Ended(s: Sys, n: nat) {
    || (n in s.flights && IsOver(s.flights[n]))
    || (Busy(s, Flush) && TicketOf(s, Flush) == n && IsOver(s.stop.phase))
  }

  predicate Closed(s: Sys, n: nat) { Gone(s, n) || Ended(s, n) }

  predicate Open(s: Sys, n: nat) { n < |s.accepted| && !Closed(s, n) }

  // The ticket that a step closes, if any.
  function Closes(s: Sys, act: Action): Option<nat> {
    match act
    case Enqueue(n) =>
      if s.deb.stopped then Some(n)
      else if n < |s.accepted| && s.accepted[n].instanceID in s.deb.entries
      then Some(s.deb.entries[s.accepted[n].instanceID].pending)
      else None
    case Publish(a, ok) =>
      if !ok && Busy(s, a) && PhaseOf(s, a).Trying? && PhaseOf(s, a).attempt >= s.maxAttempts then Some(TicketOf(s, a))
      else None
    case GiveUp(a) => if Busy(s, a) then Some(TicketOf(s, a)) else None
    case Note(a) => if Busy(s, a) then Some(TicketOf(s, a)) else None
    case _ => None
  }

  // ---- Each step closes that ticket and no other, and opens none ----

  // A step that moves an actor to another phase.
  lemma MoveCloses(s: Sys, a: Actor, p: Phase, m: nat)
    requires Conserved(s) && Busy(s, a) && !IsOver(PhaseOf(s, a))
    ensures Closed(Moved(s, a, p), m) <==> Closed(s, m) || (m == TicketOf(s, a) && IsOver(p))
    ensures !Closed(s, TicketOf(s, a))
  {
    var n := TicketOf(s, a);
    BusyTicket(s, a);
    assert Places(s, n) == OneIf(n < |s.accepted|);
    if a.Flush? {
      assert Unflushed(s.stop) == [n] + s.stop.batch[s.stop.next + 1..];
    }
  }

  lemma EnqueueCloses(s: Sys, n: nat, m: nat)
    requires Enabled(s, Enqueue(n))
    ensures Closed(EnqueueNext(s, n), m) <==> Closed(s, m) || Closes(s, Enqueue(n)) == Some(m)
  {
  }

  lemma ClaimCloses(s: Sys, t: nat, m: nat)
    requires Conserved(s) && PendingOk(s) && t in s.deb.fired
    ensures Closed(CallbackNext(s, t), m) <==> Closed(s, m)
  {
    if D.Claims(s.deb, t) {
      var p := s.deb.entries[s.deb.fired[t].id].pending;
      assert Places(s, p) == OneIf(p < |s.accepted|);
    }
  }

  lemma FinishCloses(s: Sys, a: Actor, m: nat)
    requires Conserved(s) && Enabled(s, Finish(a))
    ensures Closed(FinishNext(s, a), m) <==> Closed(s, m)
  {
    var n, s' := TicketOf(s, a), FinishNext(s, a);
    assert Gone(s', m) <==> Gone(s, m) || m == n;
    if m != n {
      assert Ended(s', m) <==> Ended(s, m);
    }
  }

  lemma HandleCloses(s: Sys, e: StatusEvent, m: nat)
    ensures Closed(HandleNext(s, e), m) <==> Closed(s, m)
  {
  }

  lemma PublishCloses(s: Sys, a: Actor, ok: bool, m: nat)
    requires Conserved(s) && Enabled(s, Publish(a, ok))
    ensures Closed(PublishNext(s, a, ok), m) <==> Closed(s, m) || Closes(s, Publish(a, ok)) == Some(m)
  {
    var k := PhaseOf(s, a).attempt;
    MoveCloses(s, a, if ok then Acked else if k < s.maxAttempts then Waiting(k) else Abandoned, m);
  }

  lemma NoteCloses(s: Sys, a: Actor, m: nat)
    requires Conserved(s) && Enabled(s, Note(a))
    ensures Closed(NoteNext(s, a), m) <==> Closed(s, m) || m == TicketOf(s, a)
    ensures !Closed(s, TicketOf(s, a))
  {
    MoveCloses(s, a, Noted, m);
  }

  lemma SteadyCloses(s: Sys, act: Action, m: nat)
    requires Enabled(s, act) && (act.Tick? || act.Fire? || act.StopBegin? || act.StopReturn?)
    requires PhasesOk(s)
    ensures Closed(Next(s, act), m) <==> Closed(s, m)
  {
  }

  lemma StepCloses(s: Sys, act: Action, m: nat)
    requires Conserved(s) && PendingOk(s) && PhasesOk(s) && Enabled(s, act)
    ensures Closed(Next(s, act), m) <==> Closed(s, m) || Closes(s, act) == Some(m)
  {
    match act
    case Handle(e) => HandleCloses(s, e, m);
    case Enqueue(n) => EnqueueCloses(s, n, m);
    case RunCallback(t) => ClaimCloses(s, t, m);
    case Publish(a, ok) => PublishCloses(s, a, ok, m);
    case Retry(a) => MoveCloses(s, a, Trying(PhaseOf(s, a).attempt + 1), m);
    case GiveUp(a) => MoveCloses(s, a, Abandoned, m);
    case Note(a) => NoteCloses(s, a, m);
    case Finish(a) => FinishCloses(s, a, m);
    case _ => SteadyCloses(s, act, m);
  }

  // ---- What is open after a step ----

  lemma OtherwiseSilent(s: Sys, act: Action)
    requires Enabled(s, act) && !act.Handle? && !act.Note?
    ensures var s' := Next(s, act); s'.mon == s.mon && s'.whose == s.whose && s'.accepted == s.accepted
  {
  }

  lemma SameAccepted(s: Sys, act: Action)
    requires Enabled(s, act) && !act.Handle?
    ensures Next(s, act).accepted == s.accepted
  {
    if act.Note? { } else { OtherwiseSilent(s, act); }
  }

  lemma OpenAfter(s: Sys, act: Action, n: nat)
    requires Conserved(s) && PendingOk(s) && PhasesOk(s) && Enabled(s, act)
    ensures s.accepted <= Next(s, act).accepted
    ensures Open(s, n) ==> (Open(Next(s, act), n) <==> Closes(s, act) != Some(n))
    ensures Open(Next(s, act), n) ==>
              Open(s, n) || (act.Handle? && Admits(s.mon, act.event) && n == |s.accepted|)
  {
    StepCloses(s, act, n);
    if !act.Handle? { SameAccepted(s, act); }
  }

  lemma FreshIsOpen(s: Sys, e: StatusEvent)
    requires Conserved(s) && Admits(s.mon, e)
    ensures Open(HandleNext(s, e), |s.accepted|) && HandleNext(s, e).accepted[|s.accepted|] == e
  {
    var n := |s.accepted|;
    assert Places(s, n) == OneIf(n < |s.accepted|);
    if Busy(s, Flush) {
      BusyTicket(s, Flush);
    }
  }

  lemma PlacedIsOpen(s: Sys, n: nat)
    requires Conserved(s) && s.stop.Running?
    requires n in s.handoff || (n in s.flights && !IsOver(s.flights[n]))
    ensures Open(s, n)
  {
    assert Places(s, n) == OneIf(n < |s.accepted|);
  }

  lemma WaitingIsOpen(s: Sys, n: nat)
    requires Conserved(s) && n < |s.accepted| && (n in s.handoff || Pends(s, n))
    ensures Open(s, n) && !(n in s.handoff && Pends(s, n))
  {
    assert Places(s, n) == OneIf(n < |s.accepted|);
    if Busy(s, Flush) {
      assert Unflushed(s.stop) == [TicketOf(s, Flush)] + s.stop.batch[s.stop.next + 1..];
    }
  }

  // ---- Whose sections they are ----

  // The histories agree: each section is about a ticket, tickets are accepted in order, and a
  // ticket is recorded after it was accepted, once, and is closed from then on.
  ghost predicate Owned(s: Sys) {
    && |s.whose| == |s.mon.log|
    && (forall k :: 0 <= k < |s.whose| ==> s.whose[k] < |s.accepted| && s.mon.log[k].event == s.accepted[s.whose[k]])
    && (forall n :: 0 <= n < |s.accepted| ==> AcceptedBy(s, n, |s.mon.log|))
    && (forall k :: 0 <= k < |s.whose| && s.mon.log[k].Recorded? ==>
          Closed(s, s.whose[k]) && AcceptedBy(s, s.whose[k], k))
    && (forall j, k :: 0 <= j < k < |s.whose| && s.mon.log[j].Accepted? == s.mon.log[k].Accepted? ==>
          s.whose[j] != s.whose[k])
  }

  // Ticket n was accepted in one of the first k sections.
  ghost predicate AcceptedBy(s: Sys, n: nat, k: nat)
    requires k <= |s.mon.log| == |s.whose|
  {
    exists a :: 0 <= a < k && s.mon.log[a].Accepted? && s.whose[a] == n
  }

  lemma AcceptedStays(s: Sys, s': Sys, n: nat, k: nat, k': nat)
    requires k <= |s.mon.log| == |s.whose| && k <= k' <= |s'.mon.log| == |s'.whose|
    requires s.mon.log <= s'.mon.log && s.whose <= s'.whose && AcceptedBy(s, n, k)
    ensures AcceptedBy(s', n, k')
  {
    var i :| 0 <= i < k && s.mon.log[i].Accepted? && s.whose[i] == n;
    assert s'.mon.log[i].Accepted? && s'.whose[i] == n;
  }

  lemma HandleOwned(s: Sys, e: StatusEvent)
    requires Owned(s) && Admits(s.mon, e)
    ensures Owned(HandleNext(s, e))
  {
    var s', last := HandleNext(s, e), |s.whose|;
    assert s'.mon.log[last].Accepted? && s'.whose[last] == |s.accepted|;
    forall n, k, k' | 0 <= k <= k' <= last + 1 && k <= last && AcceptedBy(s, n, k) ensures AcceptedBy(s', n, k') {
      AcceptedStays(s, s', n, k, k');
    }
    var len := |s'.mon.log|;
    forall n | 0 <= n < |s'.accepted| ensures AcceptedBy(s', n, len) {
      if n < |s.accepted| { assert AcceptedBy(s, n, last); }
    }
    forall k | 0 <= k < last && s.mon.log[k].Recorded? ensures Closed(s', s.whose[k]) {
      HandleCloses(s, e, s.whose[k]);
    }
  }

  lemma NoteOwned(s: Sys, a: Actor)
    requires Conserved(s) && Owned(s) && Enabled(s, Note(a))
    ensures Owned(NoteNext(s, a))
  {
    var s', last := NoteNext(s, a), |s.whose|;
    NoteCloses(s, a, TicketOf(s, a));
    forall n, k, k' | 0 <= k <= k' <= last + 1 && k <= last && AcceptedBy(s, n, k) ensures AcceptedBy(s', n, k') {
      AcceptedStays(s, s', n, k, k');
    }
    var len := |s'.mon.log|;
    forall n | 0 <= n < |s'.accepted| ensures AcceptedBy(s', n, len) { assert AcceptedBy(s, n, last); }
    assert AcceptedBy(s, TicketOf(s, a), last);
    forall k | 0 <= k < last && s.mon.log[k].Recorded? ensures Closed(s', s.whose[k]) { NoteCloses(s, a, s.whose[k]); }
  }

  // Steps that add no section.
  lemma StayOwned(s: Sys, s': Sys)
    requires Owned(s) && s'.mon == s.mon && s'.whose == s.whose && s'.accepted == s.accepted
    requires forall m: nat :: Closed(s, m) ==> Closed(s', m)
    ensures Owned(s')
  {
    forall n, k | 0 <= k <= |s.whose| && AcceptedBy(s, n, k) ensures AcceptedBy(s', n, k) {
      AcceptedStays(s, s', n, k, k);
    }
  }

  lemma StepOwned(s: Sys, act: Action)
    requires Conserved(s) && PendingOk(s) && PhasesOk(s) && Owned(s) && Enabled(s, act)
    ensures Owned(Next(s, act))
  {
    match act
    case Handle(e) => if Admits(s.mon, e) { HandleOwned(s, e); }
    case Note(a) => NoteOwned(s, a);
    case _ =>
      OtherwiseSilent(s, act);
      forall m: nat | Closed(s, m) ensures Closed(Next(s, act), m) { StepCloses(s, act, m); }
      StayOwned(s, Next(s, act));
  }

  lemma {:induction false} RunOwned(s: Sys, acts: seq<Action>)
    requires Inv(s) && Owned(s) && Legal(s, acts)
    ensures Inv(Run(s, acts)) && Owned(Run(s, acts))
    decreases |acts|
  {
    if acts != [] {
      NextKeeps(s, acts[0]);
      StepOwned(s, acts[0]);
      RunOwned(Next(s, acts[0]), acts[1..]);
    }
  }

  // ---- Repeats at the grain of the locks ----

  // Sections i and j record the same event for the same instance, with no other record of
  // that instance in between.
  ghost predicate Repeats(log: seq<Section>, i: nat, j: nat) {
    && i < j < |log| && log[i].Recorded? && log[j] == log[i]
    && forall k :: i < k < j && log[k].Recorded? ==> log[k].event.instanceID != log[i].event.instanceID
  }

  // An acceptance between two records of the same event would have been turned away.
  lemma NoneAcceptedBetween(log: seq<Section>, i: nat, j: nat, a: nat)
    requires LogOk(log) && Repeats(log, i, j) && log[i].event.status != DELETED
    requires a < j && log[a].Accepted? && log[a].event == log[j].event
    ensures a < i
  {
    if i < a {
      PublishedStays(log, i, a);
      AcceptedDiffers(log, a);
    }
  }

  lemma RepeatNeedsEarlier(s: Sys, i: nat, j: nat)
    requires Owned(s) && LogOk(s.mon.log) && Repeats(s.mon.log, i, j) && s.mon.log[i].event.status != DELETED
    ensures s.whose[i] != s.whose[j] && AcceptedBy(s, s.whose[j], i)
  {
    assert AcceptedBy(s, s.whose[j], j);
    var a :| 0 <= a < j && s.mon.log[a].Accepted? && s.whose[a] == s.whose[j];
    NoneAcceptedBetween(s.mon.log, i, j, a);
  }

  // In every run, a delivery other than DELETED is repeated only by another ticket that had
  // been accepted before the first one was recorded.
  lemma RepeatWasAcceptedBefore(configuredAttempts: int, interval: int, acts: seq<Action>, s: Sys, i: nat, j: nat)
    requires Reaches(configuredAttempts, interval, acts, s)
    requires Repeats(s.mon.log, i, j) && s.mon.log[i].event.status != DELETED
    ensures Owned(s) && s.whose[i] != s.whose[j] && AcceptedBy(s, s.whose[j], i)
  {
    ReachableOwned(configuredAttempts, interval, acts, s);
    RepeatNeedsEarlier(s, i, j);
  }

  lemma ReachableOwned(configuredAttempts: int, interval: int, acts: seq<Action>, s: Sys)
    requires Reaches(configuredAttempts, interval, acts, s)
    ensures Inv(s) && Owned(s)
  {
    InitInv(configuredAttempts, interval);
    RunOwned(Init(configuredAttempts, interval), acts);
  }
}
