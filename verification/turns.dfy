/**
 Runs in which one instance takes turns with itself: nothing of it is accepted while
 something of it is between the locks or being published, and nothing of it is claimed while
 something of it is between the locks. Other instances interleave as they like. For that
 instance such a run is a run of the coarse model.
 */
module Turns {
  import opened Events
  import opened MonitorCore
  import opened Pipeline
  import opened PipelineInvariants
  import opened PipelineSafety
  import opened History
  import opened Wire
  import C = Coarse
  import D = Debounce

  // Nothing of the instance is between the locks.
  ghost predicate Handed(s: Sys, id: string) {
    forall n :: n in s.handoff ==> !Of(s, id, n)
  }

  ghost predicate InTurn(s: Sys, act: Action, id: string) {
    match act
    case Handle(e) =>
      e.instanceID == id && Admits(s.mon, e) ==> forall n: nat :: Open(s, n) && Of(s, id, n) ==> Pends(s, n)
    case RunCallback(t) => t in s.deb.fired && D.Claims(s.deb, t) && s.deb.fired[t].id == id ==> Handed(s, id)
    case StopBegin(_) => id in s.deb.entries ==> Handed(s, id)
    case _ => true
  }

  ghost predicate TakesTurns(s: Sys, acts: seq<Action>, id: string)
    requires Legal(s, acts)
    decreases |acts|
  {
    acts == [] || (InTurn(s, acts[0], id) && TakesTurns(Next(s, acts[0]), acts[1..], id))
  }

  // With nothing between the locks and nothing being published, every step is in turn for
  // every instance; so is every step that neither accepts nor claims.
  lemma IdleIsInTurn(s: Sys, act: Action, id: string)
    requires Conserved(s)
    requires s.handoff == multiset{} && s.flights == map[] && Unflushed(s.stop) == []
    ensures InTurn(s, act, id)
  {
    forall n: nat | Open(s, n) ensures Pends(s, n) {
      assert Places(s, n) == OneIf(n < |s.accepted|);
    }
  }

  // ---- The instance's own view ----

  function Lookup(m: map<string, StatusEvent>, id: string): Option<StatusEvent> {
    if id in m then Some(m[id]) else None
  }

  function LogOf(log: seq<Section>, id: string): seq<Section> {
    if log == [] then []
    else LogOf(log[..|log| - 1], id) + if log[|log| - 1].event.instanceID == id then [log[|log| - 1]] else []
  }

  predicate Views(s: Sys, id: string, c: C.CState) {
    && c.published == Lookup(s.mon.lastPublished, id)
    && c.submitted == Lookup(s.mon.lastSubmitted, id)
    && c.log == LogOf(s.mon.log, id)
  }

  // `cur` is the ticket the coarse model holds pending: between the locks, in the map, or
  // being published. Another one can only be in the map, about to be superseded by it.
  ghost predicate Current(s: Sys, id: string, c: C.CState, cur: Option<nat>) {
    match cur
    case None => c.pending == None && forall m: nat :: Open(s, m) ==> !Of(s, id, m)
    case Some(n) =>
      && Open(s, n) && Of(s, id, n) && c.pending == Some(s.accepted[n])
      && forall m: nat :: Open(s, m) && Of(s, id, m) ==> m == n || (n in s.handoff && Pends(s, m))
  }

  // What the step means to the instance in the coarse model, if anything.
  function Meaning(s: Sys, act: Action, id: string, cur: Option<nat>): Option<C.CAction> {
    if act.Handle? && act.event.instanceID == id then Some(C.Report(act.event))
    else if cur.Some? && Closes(s, act) == cur then Some(C.Publish(act.Note?))
    else None
  }

  function CurAfter(s: Sys, act: Action, id: string, cur: Option<nat>): Option<nat> {
    if act.Handle? && act.event.instanceID == id && Admits(s.mon, act.event) then Some(|s.accepted|)
    else if cur.Some? && Closes(s, act) == cur then None
    else cur
  }

  ghost predicate CanDo(c: C.CState, m: Option<C.CAction>) {
    m.Some? ==> C.CEnabled(c, m.value)
  }

  function Does(c: C.CState, m: Option<C.CAction>): C.CState
    requires CanDo(c, m)
  {
    if m.Some? then C.CNext(c, m.value) else c
  }

  // ---- The maps and the history ----

  lemma LogOfGrows(log: seq<Section>, s: Section, id: string)
    ensures LogOf(log + [s], id) == LogOf(log, id) + if s.event.instanceID == id then [s] else []
  {
    assert (log + [s])[..|log|] == log;
  }

  lemma ReportViews(s: Sys, id: string, c: C.CState, e: StatusEvent)
    requires MInv(s.mon) && Views(s, id, c)
    ensures var c' := if e.instanceID == id then C.CNext(c, C.Report(e)) else c; Views(HandleNext(s, e), id, c')
    ensures e.instanceID == id ==> (C.CAdmits(c, e) <==> Admits(s.mon, e))
  {
    LogOfGrows(s.mon.log, Accepted(e), id);
  }

  lemma RecordOwnViews(s: Sys, id: string, c: C.CState, e: StatusEvent)
    requires Views(s, id, c) && e.instanceID == id && c.pending == Some(e)
    ensures var m, c' := Record(s.mon, e), C.CNext(c, C.Publish(true));
            && c'.published == Lookup(m.lastPublished, id) && c'.submitted == Lookup(m.lastSubmitted, id)
            && c'.log == LogOf(m.log, id)
  {
    LogOfGrows(s.mon.log, Recorded(e), id);
  }

  lemma RecordOtherViews(s: Sys, id: string, c: C.CState, e: StatusEvent)
    requires Views(s, id, c) && e.instanceID != id
    ensures var m := Record(s.mon, e);
            && c.published == Lookup(m.lastPublished, id) && c.submitted == Lookup(m.lastSubmitted, id)
            && c.log == LogOf(m.log, id)
  {
    LogOfGrows(s.mon.log, Recorded(e), id);
  }

  lemma RecordViews(s: Sys, id: string, c: C.CState, a: Actor)
    requires Views(s, id, c) && Enabled(s, Note(a))
    requires EventOf(s, a).instanceID == id ==> c.pending == Some(EventOf(s, a))
    ensures var c' := if EventOf(s, a).instanceID == id then C.CNext(c, C.Publish(true)) else c;
            Views(NoteNext(s, a), id, c')
  {
    if EventOf(s, a).instanceID == id {
      RecordOwnViews(s, id, c, EventOf(s, a));
    } else {
      RecordOtherViews(s, id, c, EventOf(s, a));
    }
  }

  // ---- The current ticket ----

  // A ticket of the instance inside publishFn is the current one.
  lemma PublishingIsCurrent(s: Sys, id: string, c: C.CState, cur: Option<nat>, a: Actor)
    requires Conserved(s) && Current(s, id, c, cur) && Busy(s, a) && !IsOver(PhaseOf(s, a))
    ensures Open(s, TicketOf(s, a)) && !Pends(s, TicketOf(s, a)) && TicketOf(s, a) !in s.handoff
    ensures Of(s, id, TicketOf(s, a)) ==> cur == Some(TicketOf(s, a))
  {
    var n := TicketOf(s, a);
    BusyTicket(s, a);
    MoveCloses(s, a, PhaseOf(s, a), n);
    assert Places(s, n) == OneIf(n < |s.accepted|);
    if a.Flush? {
      assert Unflushed(s.stop) == [n] + s.stop.batch[s.stop.next + 1..];
    }
  }

  lemma ReportOpens(s: Sys, e: StatusEvent, m: nat)
    requires Inv(s) && Admits(s.mon, e)
    ensures Open(HandleNext(s, e), m) <==> Open(s, m) || m == |s.accepted|
    ensures m < |s.accepted| ==> (Pends(HandleNext(s, e), m) <==> Pends(s, m))
  {
    FreshIsOpen(s, e);
    HandleCloses(s, e, m);
  }

  lemma AcceptedCurrent(s: Sys, id: string, c: C.CState, cur: Option<nat>, e: StatusEvent, c': C.CState)
    requires Inv(s) && Current(s, id, c, cur) && InTurn(s, Handle(e), id) && Admits(s.mon, e)
    requires c'.pending == if e.instanceID == id then Some(e) else c.pending
    ensures Current(HandleNext(s, e), id, c', CurAfter(s, Handle(e), id, cur))
  {
    var s' := HandleNext(s, e);
    forall m: nat ensures Open(s', m) <==> Open(s, m) || m == |s.accepted|
                  ensures m < |s.accepted| ==> (Pends(s', m) <==> Pends(s, m))
    {
      ReportOpens(s, e, m);
    }
  }

  lemma ReportCurrent(s: Sys, id: string, c: C.CState, cur: Option<nat>, e: StatusEvent)
    requires Inv(s) && Views(s, id, c) && Current(s, id, c, cur) && InTurn(s, Handle(e), id)
    ensures var c' := if e.instanceID == id then C.CNext(c, C.Report(e)) else c;
            Current(HandleNext(s, e), id, c', CurAfter(s, Handle(e), id, cur))
  {
    ReportViews(s, id, c, e);
    if Admits(s.mon, e) {
      AcceptedCurrent(s, id, c, cur, e, if e.instanceID == id then C.CNext(c, C.Report(e)) else c);
    }
  }

  // Steps that change nothing of the instance.
  lemma ElsewhereCurrent(s: Sys, id: string, c: C.CState, cur: Option<nat>, s': Sys)
    requires Current(s, id, c, cur) && s'.accepted == s.accepted
    requires forall m: nat :: Of(s, id, m) ==> (Open(s', m) <==> Open(s, m))
    requires forall m: nat :: Of(s, id, m) && m in s.handoff && Open(s, m) ==> m in s'.handoff
    requires forall m: nat :: Of(s, id, m) && Pends(s, m) && !Handed(s, id) ==> Pends(s', m)
    ensures Current(s', id, c, cur)
  {
  }

  lemma EnqueueKeepsOther(s: Sys, n: nat, id: string, m: nat)
    requires Inv(s) && Enabled(s, Enqueue(n)) && !Of(s, id, n) && Of(s, id, m)
    ensures Closes(s, Enqueue(n)) != Some(m)
    ensures Open(EnqueueNext(s, n), m) <==> Open(s, m)
    ensures m in s.handoff ==> m in EnqueueNext(s, n).handoff
    ensures Pends(EnqueueNext(s, n), m) <==> Pends(s, m)
  {
    if s.accepted[n].instanceID in s.deb.entries { SupersededIsOld(s, n); }
    EnqueueCloses(s, n, m);
  }

  lemma EnqueueOther(s: Sys, id: string, c: C.CState, cur: Option<nat>, n: nat)
    requires Inv(s) && Current(s, id, c, cur) && Enabled(s, Enqueue(n)) && !Of(s, id, n)
    ensures Current(EnqueueNext(s, n), id, c, cur)
    ensures cur.Some? ==> Closes(s, Enqueue(n)) != cur
  {
    var s' := EnqueueNext(s, n);
    forall m: nat | Of(s, id, m)
      ensures Closes(s, Enqueue(n)) != Some(m) && (Open(s', m) <==> Open(s, m))
      ensures (m in s.handoff ==> m in s'.handoff) && (Pends(s', m) <==> Pends(s, m))
    {
      EnqueueKeepsOther(s, n, id, m);
    }
    ElsewhereCurrent(s, id, c, cur, s');
  }

  lemma EnqueueOwn(s: Sys, id: string, c: C.CState, n: nat)
    requires Inv(s) && Current(s, id, c, Some(n)) && Enabled(s, Enqueue(n)) && Of(s, id, n)
    ensures if s.deb.stopped then Current(EnqueueNext(s, n), id, c.(pending := None), None)
            else Current(EnqueueNext(s, n), id, c, Some(n)) && Closes(s, Enqueue(n)) != Some(n)
  {
    var s' := EnqueueNext(s, n);
    if id in s.deb.entries { SupersededIsOld(s, n); }
    forall m: nat | Of(s, id, m) ensures Open(s', m) ==> m == n
                                 ensures Open(s', m) <==> Open(s, m) && Closes(s, Enqueue(n)) != Some(m)
    {
      EnqueueCloses(s, n, m);
    }
  }

  lemma EnqueueCurrent(s: Sys, id: string, c: C.CState, cur: Option<nat>, n: nat)
    requires Inv(s) && Current(s, id, c, cur) && Enabled(s, Enqueue(n))
    ensures var m := Meaning(s, Enqueue(n), id, cur);
            CanDo(c, m) && Current(EnqueueNext(s, n), id, Does(c, m), CurAfter(s, Enqueue(n), id, cur))
  {
    if Of(s, id, n) {
      WaitingIsOpen(s, n);
      assert cur == Some(n);
      EnqueueOwn(s, id, c, n);
    } else {
      EnqueueOther(s, id, c, cur, n);
    }
  }

  lemma ClaimCurrent(s: Sys, id: string, c: C.CState, cur: Option<nat>, t: nat)
    requires Inv(s) && Current(s, id, c, cur) && t in s.deb.fired && InTurn(s, RunCallback(t), id)
    ensures Current(CallbackNext(s, t), id, c, cur)
  {
    var s' := CallbackNext(s, t);
    forall m: nat ensures Open(s', m) <==> Open(s, m) { ClaimCloses(s, t, m); }
    forall m: nat | Of(s, id, m) && Pends(s, m) && !Handed(s, id) ensures Pends(s', m) {
      assert !D.Claims(s.deb, t) || s.deb.fired[t].id != id;
    }
    ElsewhereCurrent(s, id, c, cur, s');
  }

  lemma StopCurrent(s: Sys, id: string, c: C.CState, cur: Option<nat>, order: seq<string>)
    requires Inv(s) && Current(s, id, c, cur) && Enabled(s, StopBegin(order)) && InTurn(s, StopBegin(order), id)
    ensures Current(StopNext(s, order), id, c, cur)
  {
    var s' := StopNext(s, order);
    forall m: nat ensures Open(s', m) <==> Open(s, m) { SteadyCloses(s, StopBegin(order), m); }
  }

  // The steps that change neither what is between the locks nor what is in the map.
  predicate Inside(act: Action) {
    act.Publish? || act.Retry? || act.GiveUp? || act.Note? || act.Finish? || act.Tick? || act.Fire? || act.StopReturn?
  }

  lemma InsideKeepsPlaces(s: Sys, act: Action)
    requires Enabled(s, act) && Inside(act)
    ensures var s' := Next(s, act);
            s'.accepted == s.accepted && s'.handoff == s.handoff && s'.deb.entries == s.deb.entries
  {
    match act
    case Publish(a, ok) => assert Next(s, act).deb == s.deb;
    case Retry(a) => assert Next(s, act).deb == s.deb;
    case GiveUp(a) => assert Next(s, act).deb == s.deb;
    case Note(a) => assert Next(s, act).deb == s.deb;
    case Finish(a) => assert Next(s, act).deb == D.Done(s.deb);
    case Tick(dt) => assert Next(s, act).deb == D.Tick(s.deb, dt);
    case Fire(t) => assert Next(s, act).deb == D.Fire(s.deb, t);
    case StopReturn => assert Next(s, act).deb == s.deb;
  }

  // Closing a ticket of the instance inside publishFn closes the current one.
  lemma ClosesInside(s: Sys, id: string, c: C.CState, cur: Option<nat>, act: Action)
    requires Conserved(s) && Current(s, id, c, cur) && Enabled(s, act) && Inside(act)
    ensures var n := Closes(s, act);
            n.Some? && Of(s, id, n.value) ==> cur == n && n.value !in s.handoff
  {
    match act
    case Publish(a, ok) => PublishingIsCurrent(s, id, c, cur, a);
    case GiveUp(a) => PublishingIsCurrent(s, id, c, cur, a);
    case Note(a) => PublishingIsCurrent(s, id, c, cur, a);
    case _ =>
  }

  // Closing at most the current ticket.
  lemma ClosingCurrent(s: Sys, id: string, c: C.CState, cur: Option<nat>, s': Sys, c': C.CState, closed: Option<nat>)
    requires Current(s, id, c, cur) && s'.accepted == s.accepted && s'.handoff == s.handoff
    requires forall m: nat :: Open(s', m) <==> Open(s, m) && closed != Some(m)
    requires forall m: nat :: Pends(s', m) == Pends(s, m)
    requires closed.Some? && Of(s, id, closed.value) ==> cur == closed && closed.value !in s.handoff
    requires c'.pending == if cur.Some? && closed == cur then None else c.pending
    ensures Current(s', id, c', if cur.Some? && closed == cur then None else cur)
  {
  }

  lemma InsideCurrent(s: Sys, id: string, c: C.CState, cur: Option<nat>, act: Action)
    requires Inv(s) && Current(s, id, c, cur) && Enabled(s, act) && Inside(act)
    ensures var m := Meaning(s, act, id, cur);
            CanDo(c, m) && Current(Next(s, act), id, Does(c, m), CurAfter(s, act, id, cur))
  {
    var s' := Next(s, act);
    InsideKeepsPlaces(s, act);
    ClosesInside(s, id, c, cur, act);
    forall m: nat ensures Open(s', m) <==> Open(s, m) && Closes(s, act) != Some(m)
                  ensures Pends(s', m) == Pends(s, m)
    {
      StepCloses(s, act, m);
    }
    ClosingCurrent(s, id, c, cur, s', Does(c, Meaning(s, act, id, cur)), Closes(s, act));
  }

  // ---- One step ----

  ghost predicate Simulates(s: Sys, id: string, c: C.CState, cur: Option<nat>) {
    Views(s, id, c) && Current(s, id, c, cur)
  }

  lemma SilentViews(s: Sys, id: string, c: C.CState, cur: Option<nat>, act: Action)
    requires Views(s, id, c) && Enabled(s, act) && !act.Handle? && !act.Note?
    requires CanDo(c, Meaning(s, act, id, cur))
    ensures Views(Next(s, act), id, Does(c, Meaning(s, act, id, cur)))
  {
    OtherwiseSilent(s, act);
  }

  lemma NoteSimulates(s: Sys, id: string, c: C.CState, cur: Option<nat>, a: Actor)
    requires Inv(s) && Simulates(s, id, c, cur) && Enabled(s, Note(a))
    ensures var m := Meaning(s, Note(a), id, cur);
            CanDo(c, m) && Views(NoteNext(s, a), id, Does(c, m))
  {
    PublishingIsCurrent(s, id, c, cur, a);
    RecordViews(s, id, c, a);
  }

  lemma StepCurrent(s: Sys, id: string, c: C.CState, cur: Option<nat>, act: Action)
    requires Inv(s) && Simulates(s, id, c, cur) && Enabled(s, act) && InTurn(s, act, id) && !act.Handle?
    ensures var m := Meaning(s, act, id, cur);
            CanDo(c, m) && Current(Next(s, act), id, Does(c, m), CurAfter(s, act, id, cur))
  {
    match act
    case Enqueue(n) => EnqueueCurrent(s, id, c, cur, n);
    case RunCallback(t) => ClaimCurrent(s, id, c, cur, t);
    case StopBegin(order) => StopCurrent(s, id, c, cur, order);
    case _ => InsideCurrent(s, id, c, cur, act);
  }

  lemma StepSimulates(s: Sys, id: string, c: C.CState, cur: Option<nat>, act: Action)
    requires Inv(s) && Simulates(s, id, c, cur) && Enabled(s, act) && InTurn(s, act, id)
    ensures var m := Meaning(s, act, id, cur);
            CanDo(c, m) && Simulates(Next(s, act), id, Does(c, m), CurAfter(s, act, id, cur))
  {
    if act.Handle? {
      ReportViews(s, id, c, act.event);
      ReportCurrent(s, id, c, cur, act.event);
    } else {
      StepCurrent(s, id, c, cur, act);
      if act.Note? { NoteSimulates(s, id, c, cur, act.actor); } else { SilentViews(s, id, c, cur, act); }
    }
  }

  // ---- The wire ----

  // The current ticket's event, if it is on the wire and not yet recorded.
  function Unrecorded(s: Sys, cur: Option<nat>): seq<StatusEvent> {
    if cur.Some? && cur.value < |s.accepted| && AckedNow(s, cur.value) >= 1 then [s.accepted[cur.value]] else []
  }

  // The instance's events on the wire are its recorded ones, and one more while the current
  // ticket waits to be recorded.
  ghost predicate WireShows(s: Sys, id: string, c: C.CState, cur: Option<nat>) {
    Sent(s, id) == C.Deliveries(c.log) + Unrecorded(s, cur)
  }

  lemma DeliveriesGrow(log: seq<Section>, s: Section)
    ensures C.Deliveries(log + [s]) == C.Deliveries(log) + if s.Recorded? then [s.event] else []
  {
    assert (log + [s])[..|log|] == log;
  }

  // What is accepted is not on the wire, and neither is what it finds pending.
  lemma ReportUnrecorded(s: Sys, id: string, c: C.CState, cur: Option<nat>, e: StatusEvent)
    requires Inv(s) && Current(s, id, c, cur) && InTurn(s, Handle(e), id) && Admits(s.mon, e)
    ensures Unrecorded(HandleNext(s, e), CurAfter(s, Handle(e), id, cur)) == Unrecorded(s, cur)
  {
    FreshNotAcking(s, e);
    if e.instanceID == id && cur.Some? { PendingNotAcking(s, cur.value); }
  }

  lemma ReportShows(s: Sys, id: string, c: C.CState, cur: Option<nat>, e: StatusEvent)
    requires Inv(s) && Simulates(s, id, c, cur) && WireShows(s, id, c, cur) && InTurn(s, Handle(e), id)
    ensures var c' := if e.instanceID == id then C.CNext(c, C.Report(e)) else c;
            WireShows(HandleNext(s, e), id, c', CurAfter(s, Handle(e), id, cur))
  {
    DeliveriesGrow(c.log, Accepted(e));
    if Admits(s.mon, e) {
      WireLow(s);
      WireOfStays(s.accepted, s.wire, id, e);
      ReportUnrecorded(s, id, c, cur, e);
    } else if e.instanceID == id {
      ReportViews(s, id, c, e);
    }
  }

  lemma AckUnrecorded(s: Sys, id: string, c: C.CState, cur: Option<nat>, a: Actor)
    requires Inv(s) && Current(s, id, c, cur) && Enabled(s, Publish(a, true))
    ensures Unrecorded(PublishNext(s, a, true), cur)
         == Unrecorded(s, cur) + if Of(s, id, TicketOf(s, a)) then [s.accepted[TicketOf(s, a)]] else []
  {
    PublishingIsCurrent(s, id, c, cur, a);
    MoveAcks(s, a, Acked, TicketOf(s, a));
    if cur.Some? { MoveAcks(s, a, Acked, cur.value); }
  }

  // One more on the wire, and one more that waits to be recorded.
  lemma ShowsOneMore(s: Sys, id: string, c: C.CState, cur: Option<nat>, s': Sys, more: seq<StatusEvent>)
    requires WireShows(s, id, c, cur)
    requires Sent(s', id) == Sent(s, id) + more && Unrecorded(s', cur) == Unrecorded(s, cur) + more
    ensures WireShows(s', id, c, cur)
  {
  }

  lemma AckShows(s: Sys, id: string, c: C.CState, cur: Option<nat>, a: Actor)
    requires Inv(s) && Simulates(s, id, c, cur) && WireShows(s, id, c, cur) && Enabled(s, Publish(a, true))
    ensures WireShows(PublishNext(s, a, true), id, c, cur)
  {
    var n := TicketOf(s, a);
    StepSent(s, Publish(a, true), id);
    AckUnrecorded(s, id, c, cur, a);
    ShowsOneMore(s, id, c, cur, PublishNext(s, a, true), if Of(s, id, n) then [s.accepted[n]] else []);
  }

  lemma NoteUnrecorded(s: Sys, id: string, c: C.CState, cur: Option<nat>, a: Actor)
    requires Inv(s) && Current(s, id, c, cur) && Enabled(s, Note(a))
    ensures if Of(s, id, TicketOf(s, a))
            then cur == Some(TicketOf(s, a)) && c.pending == Some(s.accepted[TicketOf(s, a)])
                 && Unrecorded(s, cur) == [s.accepted[TicketOf(s, a)]]
            else cur != Some(TicketOf(s, a)) && Unrecorded(NoteNext(s, a), cur) == Unrecorded(s, cur)
  {
    PublishingIsCurrent(s, id, c, cur, a);
    MoveAcks(s, a, Noted, TicketOf(s, a));
    if cur.Some? { MoveAcks(s, a, Noted, cur.value); }
  }

  lemma NoteOwnShows(s: Sys, id: string, c: C.CState, cur: Option<nat>, s': Sys, e: StatusEvent)
    requires WireShows(s, id, c, cur) && Unrecorded(s, cur) == [e] && c.pending == Some(e)
    requires s'.accepted == s.accepted && s'.wire == s.wire
    ensures WireShows(s', id, C.CNext(c, C.Publish(true)), None)
  {
    DeliveriesGrow(c.log, Recorded(e));
  }

  lemma NoteShows(s: Sys, id: string, c: C.CState, cur: Option<nat>, a: Actor)
    requires Inv(s) && Simulates(s, id, c, cur) && WireShows(s, id, c, cur) && Enabled(s, Note(a))
    ensures var m := Meaning(s, Note(a), id, cur);
            CanDo(c, m) && WireShows(NoteNext(s, a), id, Does(c, m), CurAfter(s, Note(a), id, cur))
  {
    NoteUnrecorded(s, id, c, cur, a);
    if Of(s, id, TicketOf(s, a)) {
      NoteOwnShows(s, id, c, cur, NoteNext(s, a), s.accepted[TicketOf(s, a)]);
    }
  }

  // Steps that put nothing on the wire and record nothing.
  lemma SteadyShows(s: Sys, id: string, c: C.CState, cur: Option<nat>, s': Sys, c': C.CState, cur': Option<nat>)
    requires WireShows(s, id, c, cur) && s'.accepted == s.accepted && s'.wire == s.wire && c'.log == c.log
    requires cur' == cur || (cur'.None? && cur.Some? && AckedNow(s, cur.value) == 0)
    requires cur'.Some? ==> AckedNow(s', cur'.value) == AckedNow(s, cur'.value)
    ensures WireShows(s', id, c', cur')
  {
  }

  lemma PlainShows(s: Sys, id: string, c: C.CState, cur: Option<nat>, act: Action)
    requires Inv(s) && Simulates(s, id, c, cur) && WireShows(s, id, c, cur)
    requires Enabled(s, act) && InTurn(s, act, id) && Plain(act)
    ensures var m := Meaning(s, act, id, cur);
            CanDo(c, m) && WireShows(Next(s, act), id, Does(c, m), CurAfter(s, act, id, cur))
  {
    StepCurrent(s, id, c, cur, act);
    OtherwiseSilent(s, act);
    PlainWire(s, act);
    if cur.Some? { PlainAcks(s, act, cur.value); }
    SteadyShows(s, id, c, cur, Next(s, act), Does(c, Meaning(s, act, id, cur)), CurAfter(s, act, id, cur));
  }

  lemma StepShows(s: Sys, id: string, c: C.CState, cur: Option<nat>, act: Action)
    requires Inv(s) && Simulates(s, id, c, cur) && WireShows(s, id, c, cur)
    requires Enabled(s, act) && InTurn(s, act, id)
    ensures var m := Meaning(s, act, id, cur);
            CanDo(c, m) && WireShows(Next(s, act), id, Does(c, m), CurAfter(s, act, id, cur))
  {
    if act.Handle? { ReportShows(s, id, c, cur, act.event); }
    else if act.Note? { NoteShows(s, id, c, cur, act.actor); }
    else if act.Publish? && act.ok { AckShows(s, id, c, cur, act.actor); }
    else { PlainShows(s, id, c, cur, act); }
  }

  // ---- Runs ----

  ghost predicate Coherent(s: Sys, id: string, c: C.CState, cur: Option<nat>) {
    Simulates(s, id, c, cur) && WireShows(s, id, c, cur)
  }

  lemma StepCoherent(s: Sys, id: string, c: C.CState, cur: Option<nat>, act: Action)
    requires Inv(s) && Coherent(s, id, c, cur) && Enabled(s, act) && InTurn(s, act, id)
    ensures var m := Meaning(s, act, id, cur);
            CanDo(c, m) && Coherent(Next(s, act), id, Does(c, m), CurAfter(s, act, id, cur))
  {
    StepSimulates(s, id, c, cur, act);
    StepShows(s, id, c, cur, act);
  }

  // What a run reports of the instance, and what a coarse run reports.
  function ReportsOf(acts: seq<Action>, id: string): seq<StatusEvent> {
    if acts == [] then []
    else (if acts[0].Handle? && acts[0].event.instanceID == id then [acts[0].event] else []) + ReportsOf(acts[1..], id)
  }

  function CReports(coarse: seq<C.CAction>): seq<StatusEvent> {
    if coarse == [] then []
    else (if coarse[0].Report? then [coarse[0].event] else []) + CReports(coarse[1..])
  }

  lemma DoesFirst(c: C.CState, m: Option<C.CAction>, rest: seq<C.CAction>) returns (coarse: seq<C.CAction>)
    requires CanDo(c, m) && C.CLegal(Does(c, m), rest)
    ensures C.CLegal(c, coarse) && C.CRun(c, coarse) == C.CRun(Does(c, m), rest)
    ensures CReports(coarse) == (if m.Some? && m.value.Report? then [m.value.event] else []) + CReports(rest)
  {
    if m.None? {
      coarse := rest;
    } else {
      coarse := [m.value] + rest;
      assert coarse[0] == m.value && coarse[1..] == rest;
    }
  }

  lemma ReportMeans(s: Sys, act: Action, id: string, cur: Option<nat>)
    ensures var m := Meaning(s, act, id, cur);
            (if m.Some? && m.value.Report? then [m.value.event] else [])
            == if act.Handle? && act.event.instanceID == id then [act.event] else []
  {
  }

  lemma {:induction false} RunCoherent(s: Sys, id: string, c: C.CState, cur: Option<nat>, acts: seq<Action>)
    returns (coarse: seq<C.CAction>, cur': Option<nat>)
    requires Inv(s) && Coherent(s, id, c, cur) && Legal(s, acts) && TakesTurns(s, acts, id)
    ensures C.CLegal(c, coarse) && CReports(coarse) == ReportsOf(acts, id)
    ensures Coherent(Run(s, acts), id, C.CRun(c, coarse), cur')
    decreases |acts|
  {
    if acts == [] {
      coarse, cur' := [], cur;
    } else {
      var m := Meaning(s, acts[0], id, cur);
      StepCoherent(s, id, c, cur, acts[0]);
      NextKeeps(s, acts[0]);
      var rest, last := RunCoherent(Next(s, acts[0]), id, Does(c, m), CurAfter(s, acts[0], id, cur), acts[1..]);
      coarse := DoesFirst(c, m, rest);
      cur' := last;
      ReportMeans(s, acts[0], id, cur);
    }
  }

  // A run in which the instance takes turns is, for the instance, a run of the coarse model
  // from its start, with the same reports in the same order.
  lemma TurnsAreCoarse(configuredAttempts: int, interval: int, acts: seq<Action>, s: Sys, id: string)
    returns (coarse: seq<C.CAction>, cur: Option<nat>)
    requires Reaches(configuredAttempts, interval, acts, s)
    requires TakesTurns(Init(configuredAttempts, interval), acts, id)
    ensures C.CLegal(C.CINIT, coarse) && CReports(coarse) == ReportsOf(acts, id)
    ensures Coherent(s, id, C.CRun(C.CINIT, coarse), cur) && C.CInv(C.CRun(C.CINIT, coarse))
  {
    InitInv(configuredAttempts, interval);
    coarse, cur := RunCoherent(Init(configuredAttempts, interval), id, C.CINIT, None, acts);
    C.CRunKeeps(C.CINIT, coarse);
  }

  // Hence its history is sound, its events on the wire repeat none but DELETED, what pends
  // for it was submitted last and differs from what is published, and whatever is published
  // has been submitted.
  lemma TurnsReachTheWire(configuredAttempts: int, interval: int, acts: seq<Action>, s: Sys, id: string)
    requires Reaches(configuredAttempts, interval, acts, s)
    requires TakesTurns(Init(configuredAttempts, interval), acts, id)
    ensures C.LogSound(LogOf(s.mon.log, id))
    ensures var wire, ds := Sent(s, id), C.Deliveries(LogOf(s.mon.log, id));
            && C.NoRepeats(wire)
            && ds <= wire && |wire| <= |ds| + 1
    ensures id in s.mon.lastPublished ==> id in s.mon.lastSubmitted
    ensures forall n: nat :: Pends(s, n) && Of(s, id, n) && Handed(s, id) ==>
              && Lookup(s.mon.lastSubmitted, id) == Some(s.accepted[n])
              && !AlreadyPublished(s.mon.lastPublished, s.accepted[n])
  {
    var coarse, cur := TurnsAreCoarse(configuredAttempts, interval, acts, s, id);
    var c := C.CRun(C.CINIT, coarse);
    ReachableInv(configuredAttempts, interval, acts, s);
    C.SuccessiveDeliveriesDiffer(c.log);
    if cur.Some? { C.PendingDiffers(c); }
    forall n: nat | Pends(s, n) && Of(s, id, n) && Handed(s, id)
      ensures Lookup(s.mon.lastSubmitted, id) == Some(s.accepted[n])
      ensures !AlreadyPublished(s.mon.lastPublished, s.accepted[n])
    {
      WaitingIsOpen(s, n);
      assert cur == Some(n);
    }
  }
}
