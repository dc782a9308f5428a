/** What every step of the pipeline keeps, whatever the interleaving. */
module PipelineInvariants {
  import opened Events
  import opened MonitorCore
  import opened Pipeline
  import D = Debounce

  // ---- Where a ticket is: each of these counts its occurrences in one kind of place ----

  function OneIf(b: bool): nat { if b then 1 else 0 }

  predicate Pends(s: Sys, n: nat) {
    && n < |s.accepted|
    && s.accepted[n].instanceID in s.deb.entries
    && s.deb.entries[s.accepted[n].instanceID].pending == n
  }

  function Unflushed(stop: StopPc): seq<nat> {
    if stop.Flushing? && stop.next <= |stop.batch| then stop.batch[stop.next..] else []
  }

  function Places(s: Sys, n: nat): nat {
    s.handoff[n] + OneIf(Pends(s, n)) + OneIf(n in s.flights) + multiset(Unflushed(s.stop))[n]
    + s.dropped[n] + s.superseded[n] + s.delivered[n] + s.abandoned[n]
  }

  ghost predicate Conserved(s: Sys) {
    forall n: nat :: Places(s, n) == OneIf(n < |s.accepted|)
  }

  // How often the flush or a callback has had ticket `n` acknowledged but is not done with it.
  function AckedNow(s: Sys, n: nat): nat {
    OneIf(n in s.flights && (s.flights[n].Acked? || s.flights[n].Noted?))
    + OneIf(Busy(s, Flush) && TicketOf(s, Flush) == n && (s.stop.phase.Acked? || s.stop.phase.Noted?))
  }

  ghost predicate WireMatches(s: Sys) {
    forall n: nat :: multiset(s.wire)[n] == s.delivered[n] + AckedNow(s, n)
  }

  // ---- The rest of the invariant ----

  predicate PhaseOk(max: nat, p: Phase) {
    match p
    case Trying(k) => 1 <= k <= max
    case Waiting(k) => 1 <= k < max
    case _ => true
  }

  ghost predicate PendingOk(s: Sys) {
    forall id :: id in s.deb.entries ==>
      s.deb.entries[id].pending < |s.accepted| && s.accepted[s.deb.entries[id].pending].instanceID == id
  }

  ghost predicate PhasesOk(s: Sys) {
    && s.maxAttempts >= 1
    && (forall n :: n in s.flights ==> PhaseOk(s.maxAttempts, s.flights[n]))
    && (s.stop.Flushing? ==> s.stop.next <= |s.stop.batch| && PhaseOk(s.maxAttempts, s.stop.phase))
  }

  // The WaitGroup counts the callbacks inside publishFn and the flushes not yet finished.
  ghost predicate BarrierOk(s: Sys) {
    && s.deb.wg == |s.flights| + |Unflushed(s.stop)|
    && (s.deb.stopped <==> !s.stop.Running?)
    && (s.stop.Returned? ==> s.deb.wg == 0)
  }

  function FlushedPart(stop: StopPc): seq<nat> {
    match stop
    case Running => []
    case Flushing(batch, next, _) => if next <= |batch| then batch[..next] else batch
    case Returned(batch) => batch
  }

  ghost predicate FlushOk(s: Sys) {
    forall n :: n in FlushedPart(s.stop) ==> s.delivered[n] + s.abandoned[n] >= 1
  }

  // Whatever was recorded had been acknowledged first.
  ghost predicate RecordsOnWire(s: Sys) {
    forall i :: 0 <= i < |s.mon.log| && s.mon.log[i].Recorded? ==>
      exists n :: n in s.wire && n < |s.accepted| && s.accepted[n] == s.mon.log[i].event
  }

  ghost predicate Inv(s: Sys) {
    && D.DInv(s.deb)
    && MInv(s.mon)
    && Conserved(s)
    && WireMatches(s)
    && PendingOk(s)
    && PhasesOk(s)
    && BarrierOk(s)
    && FlushOk(s)
    && RecordsOnWire(s)
  }

  lemma InitInv(configuredAttempts: int, interval: int)
    ensures Inv(Init(configuredAttempts, interval))
  {
    D.InitKeeps<nat>(interval);
  }

  // A ticket in one place is in no other.
  lemma BusyTicket(s: Sys, a: Actor)
    requires Conserved(s) && Busy(s, a)
    ensures TicketOf(s, a) < |s.accepted|
    ensures a.Flight? ==> TicketOf(s, a) !in Unflushed(s.stop)
    ensures a.Flush? ==> TicketOf(s, a) !in s.flights && TicketOf(s, a) !in s.stop.batch[s.stop.next + 1..]
    ensures s.delivered[TicketOf(s, a)] == 0
  {
    var n := TicketOf(s, a);
    assert Places(s, n) == OneIf(n < |s.accepted|);
    if a.Flush? {
      assert Unflushed(s.stop) == [n] + s.stop.batch[s.stop.next + 1..];
    }
  }

  lemma WireStays(s: Sys, s': Sys)
    requires WireMatches(s)
    requires s'.wire == s.wire && s'.delivered == s.delivered && s'.flights == s.flights
    requires s'.stop == s.stop || (s.stop.Running? && s'.stop.Flushing? && s'.stop.phase.Trying?)
    ensures WireMatches(s')
  {
    forall n: nat ensures multiset(s'.wire)[n] == s'.delivered[n] + AckedNow(s', n) {
      assert AckedNow(s', n) == AckedNow(s, n);
    }
  }

  lemma HandleConserves(s: Sys, e: StatusEvent)
    requires Conserved(s) && PendingOk(s) && Admits(s.mon, e)
    ensures Conserved(HandleNext(s, e))
  {
    var s' := HandleNext(s, e);
    forall n: nat ensures Places(s', n) == OneIf(n < |s'.accepted|) {
      assert Places(s, n) == OneIf(n < |s.accepted|);
      assert Pends(s', n) == Pends(s, n);
    }
  }

  lemma HandleKeeps(s: Sys, e: StatusEvent)
    requires Inv(s)
    ensures Inv(HandleNext(s, e))
  {
    if Admits(s.mon, e) {
      var s' := HandleNext(s, e);
      AcceptKeeps(s.mon, e);
      HandleConserves(s, e);
      WireStays(s, s');
      RecordsStay(s, s');
    }
  }

  lemma RecordsStay(s: Sys, s': Sys)
    requires RecordsOnWire(s) && s.wire <= s'.wire && s.accepted <= s'.accepted
    requires forall i :: 0 <= i < |s'.mon.log| && s'.mon.log[i].Recorded? ==>
               i < |s.mon.log| && s'.mon.log[i] == s.mon.log[i]
    ensures RecordsOnWire(s')
  {
    forall i | 0 <= i < |s'.mon.log| && s'.mon.log[i].Recorded?
      ensures exists n :: n in s'.wire && n < |s'.accepted| && s'.accepted[n] == s'.mon.log[i].event
    {
      var n :| n in s.wire && n < |s.accepted| && s.accepted[n] == s.mon.log[i].event;
      var k :| 0 <= k < |s.wire| && s.wire[k] == n;
      assert s'.wire[k] == n;
    }
  }

  // Submitting moves the ticket into the map and whatever it finds there out of it.
  lemma EnqueueMoves(s: Sys, n: nat, m: nat)
    requires PendingOk(s) && (s.deb.stopped ==> s.deb.entries == map[]) && Enabled(s, Enqueue(n))
    requires !Pends(s, n)
    ensures var s' := EnqueueNext(s, n);
         s'.handoff[m] + OneIf(Pends(s', m)) + s'.dropped[m] + s'.superseded[m]
         == s.handoff[m] + OneIf(Pends(s, m)) + s.dropped[m] + s.superseded[m]
  {
  }

  lemma EnqueueConserves(s: Sys, n: nat)
    requires Conserved(s) && PendingOk(s) && (s.deb.stopped ==> s.deb.entries == map[])
    requires Enabled(s, Enqueue(n))
    ensures Conserved(EnqueueNext(s, n)) && PendingOk(EnqueueNext(s, n))
  {
    var s' := EnqueueNext(s, n);
    assert Places(s, n) == OneIf(n < |s.accepted|);
    forall m: nat ensures Places(s', m) == OneIf(m < |s'.accepted|) {
      assert Places(s, m) == OneIf(m < |s.accepted|);
      EnqueueMoves(s, n, m);
    }
  }

  lemma EnqueueKeeps(s: Sys, n: nat)
    requires Inv(s) && Enabled(s, Enqueue(n))
    ensures Inv(EnqueueNext(s, n))
  {
    var s' := EnqueueNext(s, n);
    D.SubmitKeeps(s.deb, s.accepted[n].instanceID, n);
    EnqueueConserves(s, n);
    WireStays(s, s');
    RecordsStay(s, s');
  }

  lemma ClaimConserves(s: Sys, t: nat)
    requires Conserved(s) && PendingOk(s) && WireMatches(s)
    requires t in s.deb.fired && D.Claims(s.deb, t)
    ensures s.deb.entries[s.deb.fired[t].id].pending !in s.flights
    ensures Conserved(CallbackNext(s, t)) && PendingOk(CallbackNext(s, t)) && WireMatches(CallbackNext(s, t))
  {
    var s' := CallbackNext(s, t);
    var p := s.deb.entries[s.deb.fired[t].id].pending;
    assert Places(s, p) == OneIf(p < |s.accepted|);
    forall m: nat ensures Places(s', m) == OneIf(m < |s'.accepted|) {
      assert Places(s, m) == OneIf(m < |s.accepted|);
    }
    forall m: nat ensures multiset(s'.wire)[m] == s'.delivered[m] + AckedNow(s', m) {
      assert multiset(s.wire)[m] == s.delivered[m] + AckedNow(s, m);
      assert AckedNow(s', m) == AckedNow(s, m);
    }
  }

  lemma CallbackKeeps(s: Sys, t: nat)
    requires Inv(s) && t in s.deb.fired
    ensures Inv(CallbackNext(s, t))
  {
    var s' := CallbackNext(s, t);
    D.CallbackKeeps(s.deb, t);
    if D.Claims(s.deb, t) {
      ClaimConserves(s, t);
      RecordsStay(s, s');
    } else {
      RuntimeKeeps(s, s'.deb);
    }
  }

  // The clock and the runtime's timers touch nothing the places count.
  lemma RuntimeKeeps(s: Sys, deb: D.DState<nat>)
    requires Inv(s) && D.DInv(deb)
    requires deb.entries == s.deb.entries && deb.wg == s.deb.wg && deb.stopped == s.deb.stopped
    ensures Inv(s.(deb := deb))
  {
    var s' := s.(deb := deb);
    forall m: nat ensures Places(s', m) == OneIf(m < |s'.accepted|) {
      assert Places(s, m) == OneIf(m < |s.accepted|);
    }
    WireStays(s, s');
    RecordsStay(s, s');
  }

  lemma MoveConserves(s: Sys, a: Actor, p: Phase)
    requires Conserved(s) && Busy(s, a)
    ensures Conserved(Moved(s, a, p))
  {
    var s' := Moved(s, a, p);
    assert Unflushed(s'.stop) == Unflushed(s.stop) && s'.flights.Keys == s.flights.Keys;
    forall m: nat ensures Places(s', m) == OneIf(m < |s'.accepted|) {
      assert Places(s, m) == OneIf(m < |s.accepted|);
      assert Pends(s', m) == Pends(s, m);
    }
  }

  lemma MoveKeepsBarrier(s: Sys, a: Actor, p: Phase)
    requires BarrierOk(s) && PhasesOk(s) && FlushOk(s) && Busy(s, a) && PhaseOk(s.maxAttempts, p)
    ensures BarrierOk(Moved(s, a, p)) && PhasesOk(Moved(s, a, p)) && FlushOk(Moved(s, a, p))
  {
    var s' := Moved(s, a, p);
    assert Unflushed(s'.stop) == Unflushed(s.stop) && FlushedPart(s'.stop) == FlushedPart(s.stop);
  }

  // Moving an actor between phases that are both unacknowledged, or both acknowledged.
  lemma MoveKeeps(s: Sys, a: Actor, p: Phase)
    requires Inv(s) && Busy(s, a) && PhaseOk(s.maxAttempts, p)
    requires (PhaseOf(s, a).Acked? || PhaseOf(s, a).Noted?) == (p.Acked? || p.Noted?)
    ensures Inv(Moved(s, a, p))
  {
    var s' := Moved(s, a, p);
    MoveConserves(s, a, p);
    MoveKeepsBarrier(s, a, p);
    forall m: nat ensures multiset(s'.wire)[m] == s'.delivered[m] + AckedNow(s', m) {
      assert AckedNow(s', m) == AckedNow(s, m);
    }
    RecordsStay(s, s');
  }

  lemma AckMatches(s: Sys, a: Actor)
    requires Conserved(s) && WireMatches(s) && Busy(s, a) && PhaseOf(s, a).Trying?
    ensures WireMatches(PublishNext(s, a, true))
  {
    var s' := PublishNext(s, a, true);
    BusyTicket(s, a);
    forall m: nat ensures multiset(s'.wire)[m] == s'.delivered[m] + AckedNow(s', m) {
      assert multiset(s.wire)[m] == s.delivered[m] + AckedNow(s, m);
    }
  }

  // The wire is read by nothing but the comparison with what was acknowledged.
  lemma WireApart(s: Sys, wire: seq<nat>)
    requires Conserved(s)
    ensures Conserved(s.(wire := wire))
  {
    var s' := s.(wire := wire);
    forall m: nat ensures Places(s', m) == OneIf(m < |s'.accepted|) {
      assert Places(s, m) == OneIf(m < |s.accepted|);
      assert Pends(s', m) == Pends(s, m);
    }
  }

  lemma AckKeeps(s: Sys, a: Actor)
    requires Inv(s) && Busy(s, a) && PhaseOf(s, a).Trying?
    ensures Inv(PublishNext(s, a, true))
  {
    MoveConserves(s, a, Acked);
    MoveKeepsBarrier(s, a, Acked);
    WireApart(Moved(s, a, Acked), s.wire + [TicketOf(s, a)]);
    AckMatches(s, a);
    RecordsStay(s, PublishNext(s, a, true));
  }

  lemma NoteKeepsRecords(s: Sys, a: Actor)
    requires RecordsOnWire(s) && WireMatches(s) && Enabled(s, Note(a))
    ensures RecordsOnWire(NoteNext(s, a))
  {
    var s', n := NoteNext(s, a), TicketOf(s, a);
    assert n in s.wire by {
      assert multiset(s.wire)[n] == s.delivered[n] + AckedNow(s, n);
    }
    forall i | 0 <= i < |s'.mon.log| && s'.mon.log[i].Recorded?
      ensures exists k :: k in s'.wire && k < |s'.accepted| && s'.accepted[k] == s'.mon.log[i].event
    {
      if i < |s.mon.log| {
        assert s'.mon.log[i] == s.mon.log[i];
      }
    }
  }

  // Recording reads and writes the monitor's half of the state only.
  lemma MonitorApart(s: Sys, mon: MState, whose: seq<nat>)
    requires Inv(s) && MInv(mon) && RecordsOnWire(s.(mon := mon, whose := whose))
    ensures Inv(s.(mon := mon, whose := whose))
  {
    var s' := s.(mon := mon, whose := whose);
    forall m: nat ensures Places(s', m) == OneIf(m < |s'.accepted|) {
      assert Places(s, m) == OneIf(m < |s.accepted|);
    }
    WireStays(s, s');
  }

  lemma NoteKeeps(s: Sys, a: Actor)
    requires Inv(s) && Enabled(s, Note(a))
    ensures Inv(NoteNext(s, a))
  {
    MoveKeeps(s, a, Noted);
    RecordKeeps(s.mon, EventOf(s, a));
    NoteKeepsRecords(s, a);
    MonitorApart(Moved(s, a, Noted), Record(s.mon, EventOf(s, a)), s.whose + [TicketOf(s, a)]);
  }

  lemma FinishConserves(s: Sys, a: Actor)
    requires Conserved(s) && Enabled(s, Finish(a))
    ensures Conserved(FinishNext(s, a))
  {
    var s', n := FinishNext(s, a), TicketOf(s, a);
    forall m: nat ensures Places(s', m) == OneIf(m < |s'.accepted|) {
      assert Places(s, m) == OneIf(m < |s.accepted|);
      assert Pends(s', m) == Pends(s, m);
      FinishMovesOne(s, a, m);
    }
  }

  lemma LeavesOne(s: Sys, a: Actor, m: nat)
    requires Conserved(s) && Busy(s, a)
    ensures var s' := Left(s, a);
         OneIf(m in s.flights) + multiset(Unflushed(s.stop))[m]
         == OneIf(m in s'.flights) + multiset(Unflushed(s'.stop))[m] + OneIf(m == TicketOf(s, a))
  {
    BusyTicket(s, a);
    if a.Flush? {
      assert Unflushed(s.stop) == [TicketOf(s, a)] + Unflushed(Left(s, a).stop);
    }
  }

  // Leaving publishFn, a ticket moves from one place to another.
  lemma FinishMovesOne(s: Sys, a: Actor, m: nat)
    requires Conserved(s) && Enabled(s, Finish(a))
    ensures var s' := FinishNext(s, a);
         OneIf(m in s.flights) + multiset(Unflushed(s.stop))[m] + s.delivered[m] + s.abandoned[m]
         == OneIf(m in s'.flights) + multiset(Unflushed(s'.stop))[m] + s'.delivered[m] + s'.abandoned[m]
  {
    LeavesOne(s, a, m);
  }

  // One publication fewer to wait for.
  lemma LeavesOneFewer(s: Sys, a: Actor)
    requires Busy(s, a)
    ensures |Left(s, a).flights| + |Unflushed(Left(s, a).stop)| + 1 == |s.flights| + |Unflushed(s.stop)|
  {
    if a.Flush? {
      assert Unflushed(s.stop) == [TicketOf(s, a)] + Unflushed(Left(s, a).stop);
    } else {
      assert Left(s, a).flights.Keys == s.flights.Keys - {a.ticket};
      assert |Left(s, a).flights| == |Left(s, a).flights.Keys| && |s.flights| == |s.flights.Keys|;
    }
  }

  lemma FinishKeepsBarrier(s: Sys, a: Actor)
    requires BarrierOk(s) && PhasesOk(s) && Enabled(s, Finish(a))
    ensures BarrierOk(FinishNext(s, a)) && PhasesOk(FinishNext(s, a))
  {
    LeavesOneFewer(s, a);
  }

  lemma FinishKeepsFlushed(s: Sys, a: Actor)
    requires FlushOk(s) && Enabled(s, Finish(a))
    ensures FlushOk(FinishNext(s, a))
  {
    var s', n := FinishNext(s, a), TicketOf(s, a);
    if a.Flush? {
      assert FlushedPart(s'.stop) == FlushedPart(s.stop) + [n];
    } else {
      assert FlushedPart(s'.stop) == FlushedPart(s.stop);
    }
    forall m | m in FlushedPart(s'.stop) ensures s'.delivered[m] + s'.abandoned[m] >= 1 {
      assert m == n || m in FlushedPart(s.stop);
    }
  }

  lemma FinishKeeps(s: Sys, a: Actor)
    requires Inv(s) && Enabled(s, Finish(a))
    ensures Inv(FinishNext(s, a))
  {
    D.DoneKeeps(s.deb);
    FinishConserves(s, a);
    FinishKeepsBarrier(s, a);
    FinishKeepsFlushed(s, a);
    FinishKeepsWire(s, a);
    RecordsStay(s, FinishNext(s, a));
  }

  lemma FinishKeepsWire(s: Sys, a: Actor)
    requires Conserved(s) && WireMatches(s) && Enabled(s, Finish(a))
    ensures WireMatches(FinishNext(s, a))
  {
    var s' := FinishNext(s, a);
    BusyTicket(s, a);
    forall m: nat ensures multiset(s'.wire)[m] == s'.delivered[m] + AckedNow(s', m) {
      assert multiset(s.wire)[m] == s.delivered[m] + AckedNow(s, m);
    }
  }

  // A sequence without repetitions holds each of its members once.
  lemma {:induction false} CountDistinct(xs: seq<nat>, n: nat)
    requires forall i, j :: 0 <= i < j < |xs| ==> xs[i] != xs[j]
    ensures multiset(xs)[n] == OneIf(n in xs)
  {
    if xs != [] {
      var last := |xs| - 1;
      assert xs == xs[..last] + [xs[last]];
      CountDistinct(xs[..last], n);
    }
  }

  // The batch is the pending events, each once.
  lemma BatchIsPending(s: Sys, order: seq<string>, m: nat)
    requires PendingOk(s) && Enabled(s, StopBegin(order))
    ensures multiset(StopNext(s, order).stop.batch)[m] == OneIf(Pends(s, m))
  {
    var batch := StopNext(s, order).stop.batch;
    forall i, j | 0 <= i < j < |batch| ensures batch[i] != batch[j] {
      assert order[i] != order[j] && order[i] in order && order[j] in order;
    }
    CountDistinct(batch, m);
    if Pends(s, m) {
      var i :| 0 <= i < |order| && order[i] == s.accepted[m].instanceID;
      assert batch[i] == m;
    }
    if m in batch {
      var i :| 0 <= i < |batch| && batch[i] == m;
      assert order[i] in order && Pends(s, m);
    }
  }

  lemma StopConserves(s: Sys, order: seq<string>)
    requires Conserved(s) && PendingOk(s) && Enabled(s, StopBegin(order))
    ensures Conserved(StopNext(s, order))
  {
    var s' := StopNext(s, order);
    assert Unflushed(s'.stop) == s'.stop.batch && Unflushed(s.stop) == [];
    forall m: nat ensures Places(s', m) == OneIf(m < |s'.accepted|) {
      assert Places(s, m) == OneIf(m < |s.accepted|);
      BatchIsPending(s, order, m);
    }
  }

  lemma StopKeeps(s: Sys, order: seq<string>)
    requires Inv(s) && Enabled(s, StopBegin(order))
    ensures Inv(StopNext(s, order))
  {
    var s' := StopNext(s, order);
    D.StopKeeps(s.deb, order);
    StopConserves(s, order);
    assert Unflushed(s'.stop) == s'.stop.batch && FlushedPart(s'.stop) == [];
    WireStays(s, s');
    RecordsStay(s, s');
  }

  lemma ReturnKeeps(s: Sys)
    requires Inv(s) && Enabled(s, StopReturn)
    ensures Inv(Next(s, StopReturn))
  {
    var s' := Next(s, StopReturn);
    assert Unflushed(s.stop) == [] && FlushedPart(s.stop) == s.stop.batch;
    forall m: nat ensures Places(s', m) == OneIf(m < |s'.accepted|) {
      assert Places(s, m) == OneIf(m < |s.accepted|);
    }
    forall m: nat ensures multiset(s'.wire)[m] == s'.delivered[m] + AckedNow(s', m) {
      assert AckedNow(s', m) == AckedNow(s, m);
    }
    RecordsStay(s, s');
  }

  lemma PhaseIsOk(s: Sys, a: Actor)
    requires PhasesOk(s) && Busy(s, a)
    ensures PhaseOk(s.maxAttempts, PhaseOf(s, a))
  {
  }

  lemma PublishKeeps(s: Sys, a: Actor, ok: bool)
    requires Inv(s) && Enabled(s, Publish(a, ok))
    ensures Inv(Next(s, Publish(a, ok)))
  {
    PhaseIsOk(s, a);
    var k := PhaseOf(s, a).attempt;
    if ok { AckKeeps(s, a); }
    else { MoveKeeps(s, a, if k < s.maxAttempts then Waiting(k) else Abandoned); }
  }

  lemma RetryMoves(s: Sys, a: Actor)
    requires Inv(s) && Busy(s, a) && PhaseOf(s, a).Waiting?
    ensures Inv(Moved(s, a, Trying(PhaseOf(s, a).attempt + 1)))
  {
    PhaseIsOk(s, a);
    MoveKeeps(s, a, Trying(PhaseOf(s, a).attempt + 1));
  }

  lemma RetryIsMove(s: Sys, a: Actor)
    requires Enabled(s, Retry(a))
    ensures Next(s, Retry(a)) == Moved(s, a, Trying(PhaseOf(s, a).attempt + 1))
  {
  }

  lemma RetryKeeps(s: Sys, a: Actor)
    requires Inv(s) && Enabled(s, Retry(a))
    ensures Inv(Next(s, Retry(a)))
  {
    RetryMoves(s, a);
    RetryIsMove(s, a);
  }

  lemma GiveUpKeeps(s: Sys, a: Actor)
    requires Inv(s) && Enabled(s, GiveUp(a))
    ensures Inv(Next(s, GiveUp(a)))
  {
    MoveKeeps(s, a, Abandoned);
  }

  lemma TickKeeps(s: Sys, dt: nat)
    requires Inv(s)
    ensures Inv(Next(s, Tick(dt)))
  {
    D.TickKeeps(s.deb, dt);
    RuntimeKeeps(s, D.Tick(s.deb, dt));
  }

  lemma FireKeeps(s: Sys, t: nat)
    requires Inv(s) && Enabled(s, Fire(t))
    ensures Inv(Next(s, Fire(t)))
  {
    D.FireKeeps(s.deb, t);
    RuntimeKeeps(s, D.Fire(s.deb, t));
  }

  lemma NextKeeps(s: Sys, act: Action)
    requires Inv(s) && Enabled(s, act)
    ensures Inv(Next(s, act))
  {
    match act
    case Handle(e) => HandleKeeps(s, e);
    case Enqueue(n) => EnqueueKeeps(s, n);
    case Tick(dt) => TickKeeps(s, dt);
    case Fire(t) => FireKeeps(s, t);
    case RunCallback(t) => CallbackKeeps(s, t);
    case Publish(a, ok) => PublishKeeps(s, a, ok);
    case Retry(a) => RetryKeeps(s, a);
    case GiveUp(a) => GiveUpKeeps(s, a);
    case Note(a) => NoteKeeps(s, a);
    case Finish(a) => FinishKeeps(s, a);
    case StopBegin(order) => StopKeeps(s, order);
    case StopReturn => ReturnKeeps(s);
  }

  lemma {:induction false} RunKeeps(s: Sys, acts: seq<Action>)
    requires Inv(s) && Legal(s, acts)
    ensures Inv(Run(s, acts))
    decreases |acts|
  {
    if acts != [] {
      NextKeeps(s, acts[0]);
      RunKeeps(Next(s, acts[0]), acts[1..]);
    }
  }
}
