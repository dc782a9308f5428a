/**
 The wire, as the subscriber of one instance sees it, and which tickets are on it: those that
 were acknowledged. A ticket is on the wire before it is recorded, and the order of the wire
 need not be the order of the records.
 */
module Wire {
  import opened Events
  import opened MonitorCore
  import opened Pipeline
  import opened PipelineInvariants
  import opened History
  import D = Debounce

  predicate Of(s: Sys, id: string, n: nat) {
    n < |s.accepted| && s.accepted[n].instanceID == id
  }

  // The events of the instance that were acknowledged, in order.
  function WireOf(accepted: seq<StatusEvent>, wire: seq<nat>, id: string): seq<StatusEvent> {
    if wire == [] then []
    else
      var n := wire[|wire| - 1];
      WireOf(accepted, wire[..|wire| - 1], id)
      + if n < |accepted| && accepted[n].instanceID == id then [accepted[n]] else []
  }

  lemma WireOfGrows(accepted: seq<StatusEvent>, wire: seq<nat>, id: string, n: nat)
    requires n < |accepted|
    ensures WireOf(accepted, wire + [n], id)
         == WireOf(accepted, wire, id) + if accepted[n].instanceID == id then [accepted[n]] else []
  {
    assert (wire + [n])[..|wire|] == wire;
  }

  lemma {:induction false} WireOfStays(accepted: seq<StatusEvent>, wire: seq<nat>, id: string, e: StatusEvent)
    requires forall i :: 0 <= i < |wire| ==> wire[i] < |accepted|
    ensures WireOf(accepted + [e], wire, id) == WireOf(accepted, wire, id)
  {
    if wire != [] {
      WireOfStays(accepted, wire[..|wire| - 1], id, e);
    }
  }

  lemma WireLow(s: Sys)
    requires Conserved(s) && WireMatches(s)
    ensures forall i :: 0 <= i < |s.wire| ==> s.wire[i] < |s.accepted|
  {
    forall i | 0 <= i < |s.wire| ensures s.wire[i] < |s.accepted| {
      var n := s.wire[i];
      assert n in multiset(s.wire);
      assert multiset(s.wire)[n] == s.delivered[n] + AckedNow(s, n);
      assert Places(s, n) == OneIf(n < |s.accepted|);
      if Busy(s, Flush) {
        assert Unflushed(s.stop) == [TicketOf(s, Flush)] + s.stop.batch[s.stop.next + 1..];
      }
    }
  }

  // ---- What each step does to the acknowledgement of an open ticket ----

  lemma FreshNotAcking(s: Sys, e: StatusEvent)
    requires Conserved(s)
    ensures AckedNow(s, |s.accepted|) == 0
    ensures forall m: nat :: AckedNow(HandleNext(s, e), m) == AckedNow(s, m)
  {
    var n := |s.accepted|;
    assert Places(s, n) == OneIf(n < |s.accepted|);
    if Busy(s, Flush) {
      assert Unflushed(s.stop) == [TicketOf(s, Flush)] + s.stop.batch[s.stop.next + 1..];
    }
  }

  lemma PendingNotAcking(s: Sys, n: nat)
    requires Conserved(s) && (Pends(s, n) || n in s.handoff)
    ensures AckedNow(s, n) == 0
  {
    assert Places(s, n) == OneIf(n < |s.accepted|);
    if Busy(s, Flush) {
      assert Unflushed(s.stop) == [TicketOf(s, Flush)] + s.stop.batch[s.stop.next + 1..];
    }
  }

  // Who is acknowledged and not done, after a phase changes.
  lemma MoveAcks(s: Sys, a: Actor, p: Phase, m: nat)
    requires Conserved(s) && Busy(s, a)
    ensures m != TicketOf(s, a) ==> AckedNow(Moved(s, a, p), m) == AckedNow(s, m)
    ensures AckedNow(Moved(s, a, p), TicketOf(s, a)) == OneIf(p.Acked? || p.Noted?)
    ensures AckedNow(s, TicketOf(s, a)) == OneIf(PhaseOf(s, a).Acked? || PhaseOf(s, a).Noted?)
  {
    BusyTicket(s, a);
    if Busy(s, Flush) {
      assert Unflushed(s.stop) == [TicketOf(s, Flush)] + s.stop.batch[s.stop.next + 1..];
    }
  }

  predicate Plain(act: Action) {
    !act.Handle? && !act.Note? && !(act.Publish? && act.ok)
  }

  // What stands in the map for the instance is another ticket than the one being submitted.
  lemma SupersededIsOld(s: Sys, n: nat)
    requires Inv(s) && Enabled(s, Enqueue(n)) && s.accepted[n].instanceID in s.deb.entries
    ensures var p := s.deb.entries[s.accepted[n].instanceID].pending;
            p != n && Of(s, s.accepted[n].instanceID, p) && Pends(s, p) && !s.deb.stopped
  {
    WaitingIsOpen(s, n);
    var p := s.deb.entries[s.accepted[n].instanceID].pending;
    assert p < |s.accepted| && s.accepted[p].instanceID == s.accepted[n].instanceID;
    assert Pends(s, p);
  }

  lemma EnqueueAcks(s: Sys, k: nat, n: nat)
    requires Inv(s) && Enabled(s, Enqueue(k))
    ensures AckedNow(EnqueueNext(s, k), n) == AckedNow(s, n)
    ensures Closes(s, Enqueue(k)) == Some(n) ==> AckedNow(s, n) == 0
  {
    if Closes(s, Enqueue(k)) == Some(n) {
      if !s.deb.stopped { SupersededIsOld(s, k); }
      PendingNotAcking(s, n);
    }
  }

  lemma ClaimAcks(s: Sys, t: nat, n: nat)
    requires Conserved(s) && PendingOk(s) && t in s.deb.fired
    ensures AckedNow(CallbackNext(s, t), n) == AckedNow(s, n)
  {
    if D.Claims(s.deb, t) {
      var p := s.deb.entries[s.deb.fired[t].id].pending;
      assert Places(s, p) == OneIf(p < |s.accepted|);
    }
  }

  lemma FinishAcks(s: Sys, a: Actor, n: nat)
    requires Conserved(s) && Enabled(s, Finish(a)) && n != TicketOf(s, a)
    ensures AckedNow(FinishNext(s, a), n) == AckedNow(s, n)
  {
  }

  lemma SteadyAcks(s: Sys, act: Action, n: nat)
    requires PhasesOk(s) && Enabled(s, act) && (act.Tick? || act.Fire? || act.StopBegin? || act.StopReturn?)
    ensures AckedNow(Next(s, act), n) == AckedNow(s, n)
  {
  }

  // A plain step changes no acknowledgement of an open ticket, and closes none that has one.
  lemma PlainAcks(s: Sys, act: Action, n: nat)
    requires Inv(s) && Enabled(s, act) && Plain(act) && Open(s, n)
    ensures AckedNow(Next(s, act), n) == AckedNow(s, n)
    ensures Closes(s, act) == Some(n) ==> AckedNow(s, n) == 0
  {
    match act
    case Enqueue(k) => EnqueueAcks(s, k, n);
    case RunCallback(t) => ClaimAcks(s, t, n);
    case Publish(a, ok) =>
      var k := PhaseOf(s, a).attempt;
      MoveAcks(s, a, if k < s.maxAttempts then Waiting(k) else Abandoned, n);
    case Retry(a) => MoveAcks(s, a, Trying(PhaseOf(s, a).attempt + 1), n);
    case GiveUp(a) => MoveAcks(s, a, Abandoned, n);
    case Finish(a) => FinishAcks(s, a, n);
    case _ => SteadyAcks(s, act, n);
  }

  lemma PlainWire(s: Sys, act: Action)
    requires Enabled(s, act) && Plain(act)
    ensures Next(s, act).wire == s.wire
  {
    match act
    case Enqueue(_) => assert Next(s, act).wire == s.wire;
    case RunCallback(_) => assert Next(s, act).wire == s.wire;
    case Publish(_, _) => assert Next(s, act).wire == s.wire;
    case Retry(_) => assert Next(s, act).wire == s.wire;
    case GiveUp(_) => assert Next(s, act).wire == s.wire;
    case Finish(_) => assert Next(s, act).wire == s.wire;
    case StopBegin(_) => assert Next(s, act).wire == s.wire;
    case _ =>
  }

  // ---- What the subscriber has seen, and what may still be published ----

  function Sent(s: Sys, id: string): seq<StatusEvent> {
    WireOf(s.accepted, s.wire, id)
  }

  // What the subscriber saw last of the instance.
  predicate LastSent(s: Sys, id: string, e: StatusEvent) {
    var sent := Sent(s, id);
    sent != [] && sent[|sent| - 1] == e
  }

  // Under way for the instance and not yet on the wire.
  predicate Fresh(s: Sys, id: string, n: nat) {
    Open(s, n) && Of(s, id, n) && AckedNow(s, n) == 0
  }

  // The step puts ticket n on the wire.
  predicate Sends(s: Sys, act: Action, n: nat) {
    act.Publish? && act.ok && Busy(s, act.actor) && TicketOf(s, act.actor) == n
  }

  lemma ReportFresh(s: Sys, e: StatusEvent, id: string, n: nat)
    requires Inv(s)
    ensures Fresh(HandleNext(s, e), id, n)
       <==> Fresh(s, id, n) || (Admits(s.mon, e) && e.instanceID == id && n == |s.accepted|)
  {
    HandleCloses(s, e, n);
    if Admits(s.mon, e) {
      FreshIsOpen(s, e);
      FreshNotAcking(s, e);
    }
  }

  lemma ReportSent(s: Sys, e: StatusEvent, id: string)
    requires Inv(s)
    ensures Sent(HandleNext(s, e), id) == Sent(s, id)
  {
    WireLow(s);
    WireOfStays(s.accepted, s.wire, id, e);
  }

  lemma SendingIsFresh(s: Sys, a: Actor)
    requires Inv(s) && Enabled(s, Publish(a, true))
    ensures TicketOf(s, a) < |s.accepted| && Open(s, TicketOf(s, a)) && AckedNow(s, TicketOf(s, a)) == 0
  {
    BusyTicket(s, a);
    MoveCloses(s, a, Acked, TicketOf(s, a));
    MoveAcks(s, a, Acked, TicketOf(s, a));
  }

  lemma MoveFresh(s: Sys, act: Action, n: nat)
    requires Inv(s) && Enabled(s, act) && !act.Handle? && !Plain(act) && Open(s, n) && Open(Next(s, act), n)
    ensures AckedNow(Next(s, act), n) == if Sends(s, act, n) then 1 else AckedNow(s, n)
  {
    match act
    case Publish(a, _) => MoveAcks(s, a, Acked, n);
    case Note(a) => NoteCloses(s, a, n); MoveAcks(s, a, Noted, n);
  }

  // Without a report, a ticket stops being fresh when it is sent or closed, and none becomes it.
  lemma StepFresh(s: Sys, act: Action, id: string, n: nat)
    requires Inv(s) && Enabled(s, act) && !act.Handle?
    ensures Fresh(Next(s, act), id, n) <==> Fresh(s, id, n) && Closes(s, act) != Some(n) && !Sends(s, act, n)
  {
    StepCloses(s, act, n);
    SameAccepted(s, act);
    if Open(s, n) && Open(Next(s, act), n) {
      if Plain(act) { PlainAcks(s, act, n); } else { MoveFresh(s, act, n); }
    }
  }

  // Without a report, only sending a fresh ticket of the instance adds to what it has seen.
  lemma StepSent(s: Sys, act: Action, id: string)
    requires Inv(s) && Enabled(s, act) && !act.Handle?
    ensures if act.Publish? && act.ok && Of(s, id, TicketOf(s, act.actor))
            then Fresh(s, id, TicketOf(s, act.actor))
                 && Sent(Next(s, act), id) == Sent(s, id) + [s.accepted[TicketOf(s, act.actor)]]
            else Sent(Next(s, act), id) == Sent(s, id)
  {
    SameAccepted(s, act);
    if Plain(act) {
      PlainWire(s, act);
    } else if act.Publish? {
      SendingIsFresh(s, act.actor);
      WireOfGrows(s.accepted, s.wire, id, TicketOf(s, act.actor));
    }
  }
}
