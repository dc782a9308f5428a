/**
 Work runs out: without new informer callbacks only finitely many steps remain, and a
 pipeline in which nothing can move any more has nothing pending or in flight.
 */
module PipelineProgress {
  import opened MonitorCore
  import opened Pipeline
  import opened PipelineInvariants
  import D = Debounce

  // ---- How much is left to do ----

  // Steps left in one call of publishWithRetry, the WaitGroup's Done included.
  function Weight(max: nat, p: Phase): nat {
    match p
    case Trying(k) => if k <= max then 2 * (max - k) + 3 else 0
    case Waiting(k) => if k <= max then 2 * (max - k) + 2 else 0
    case Acked => 2
    case Noted => 1
    case Abandoned => 1
  }

  // A publication not yet begun.
  function Full(max: nat): nat { 2 * max + 1 }

  function Times(n: nat, w: nat): nat {
    if n == 0 then 0 else w + Times(n - 1, w)
  }

  // The flights among tickets below `n`.
  function FlightWork(max: nat, flights: map<nat, Phase>, n: nat): nat {
    if n == 0 then 0
    else FlightWork(max, flights, n - 1) + (if n - 1 in flights then Weight(max, flights[n - 1]) else 0)
  }

  function FlushWork(max: nat, stop: StopPc): nat {
    if stop.Flushing? && stop.next < |stop.batch|
    then Weight(max, stop.phase) + Times(|stop.batch| - stop.next - 1, Full(max))
    else 0
  }

  // What Stop waits for.
  function WaitWork(s: Sys): nat {
    FlightWork(s.maxAttempts, s.flights, |s.accepted|) + FlushWork(s.maxAttempts, s.stop)
  }

  function StopWork(stop: StopPc): nat {
    match stop case Running => 2 case Flushing(_, _, _) => 1 case Returned(_) => 0
  }

  function TimerWork(max: nat, d: D.DState<nat>): nat {
    Times(|d.entries|, Full(max)) + 2 * |d.armed| + |d.fired|
  }

  function Work(s: Sys): nat {
    Times(|s.handoff|, Full(s.maxAttempts) + 3) + TimerWork(s.maxAttempts, s.deb) + WaitWork(s) + StopWork(s.stop)
  }

  // Only informer callbacks bring in work, and the clock does none.
  predicate Internal(act: Action) { !act.Handle? && !act.Tick? }

  predicate Publishing(act: Action) {
    act.Publish? || act.Retry? || act.GiveUp? || act.Note? || act.Finish?
  }

  // ---- Sizes ----

  lemma RemoveSize<K, V>(m: map<K, V>, k: K)
    ensures |m - {k}| == |m| - (if k in m then 1 else 0)
  {
    assert (m - {k}).Keys == m.Keys - {k};
  }

  lemma {:induction false} SubsetSize<T>(a: set<T>, b: set<T>)
    requires a <= b
    ensures |a| <= |b|
    decreases a
  {
    if a != {} {
      var x :| x in a;
      SubsetSize(a - {x}, b - {x});
    }
  }

  lemma {:induction false} FlightWorkAgrees(max: nat, a: map<nat, Phase>, b: map<nat, Phase>, n: nat)
    requires forall k :: k < n ==> (k in a <==> k in b) && (k in a ==> a[k] == b[k])
    ensures FlightWork(max, a, n) == FlightWork(max, b, n)
  {
    if n > 0 { FlightWorkAgrees(max, a, b, n - 1); }
  }

  // Changing one flight changes the sum by that flight's own weight.
  lemma {:induction false} FlightWorkMoves(max: nat, a: map<nat, Phase>, b: map<nat, Phase>, n: nat, k: nat)
    requires k < n
    requires forall i :: i < n && i != k ==> (i in a <==> i in b) && (i in a ==> a[i] == b[i])
    ensures FlightWork(max, b, n) - FlightWork(max, a, n)
         == (if k in b then Weight(max, b[k]) else 0) - (if k in a then Weight(max, a[k]) else 0)
  {
    if k == n - 1 {
      FlightWorkAgrees(max, a, b, n - 1);
    } else {
      FlightWorkMoves(max, a, b, n - 1, k);
    }
  }

  lemma {:induction false} FlightWorkGrows(max: nat, flights: map<nat, Phase>, n: nat, more: nat)
    requires n <= more && forall k :: k in flights ==> k < n
    ensures FlightWork(max, flights, more) == FlightWork(max, flights, n)
  {
    if n < more { FlightWorkGrows(max, flights, n, more - 1); }
  }

  ghost predicate FlightsLow(s: Sys) {
    forall n :: n in s.flights ==> n < |s.accepted|
  }

  lemma FlightsBelow(s: Sys)
    requires Conserved(s)
    ensures FlightsLow(s)
  {
    forall n | n in s.flights ensures n < |s.accepted| {
      assert Places(s, n) == OneIf(n < |s.accepted|);
    }
  }

  // ---- Publishing always gets closer to its end ----

  lemma MoveWork(s: Sys, a: Actor, p: Phase)
    requires FlightsLow(s) && Busy(s, a) && Weight(s.maxAttempts, p) < Weight(s.maxAttempts, PhaseOf(s, a))
    ensures WaitWork(Moved(s, a, p)) < WaitWork(s)
  {
    match a
    case Flight(n) => FlightWorkMoves(s.maxAttempts, s.flights, s.flights[n := p], |s.accepted|, n);
    case Flush =>
  }

  lemma LeaveWork(s: Sys, a: Actor)
    requires FlightsLow(s) && Busy(s, a) && Weight(s.maxAttempts, PhaseOf(s, a)) == 1
    ensures WaitWork(Left(s, a)) < WaitWork(s)
  {
    match a
    case Flight(n) => FlightWorkMoves(s.maxAttempts, s.flights, s.flights - {n}, |s.accepted|, n);
    case Flush =>
  }

  lemma PublishingWaits(s: Sys, act: Action)
    requires FlightsLow(s) && PhasesOk(s) && Enabled(s, act) && Publishing(act)
    ensures WaitWork(Next(s, act)) < WaitWork(s)
  {
    match act
    case Publish(a, ok) =>
      var k := PhaseOf(s, a).attempt;
      assert PhaseOk(s.maxAttempts, PhaseOf(s, a));
      MoveWork(s, a, if ok then Acked else if k < s.maxAttempts then Waiting(k) else Abandoned);
    case Retry(a) =>
      assert PhaseOk(s.maxAttempts, PhaseOf(s, a));
      MoveWork(s, a, Trying(PhaseOf(s, a).attempt + 1));
    case GiveUp(a) =>
      assert PhaseOk(s.maxAttempts, PhaseOf(s, a));
      MoveWork(s, a, Abandoned);
    case Note(a) => MoveWork(s, a, Noted);
    case Finish(a) => LeaveWork(s, a);
  }

  lemma PublishingWorks(s: Sys, act: Action)
    requires FlightsLow(s) && PhasesOk(s) && Enabled(s, act) && Publishing(act)
    ensures WaitWork(Next(s, act)) < WaitWork(s)
    ensures Work(Next(s, act)) < Work(s)
  {
    PublishingWaits(s, act);
    var s' := Next(s, act);
    assert s'.handoff == s.handoff && s'.maxAttempts == s.maxAttempts;
    assert TimerWork(s'.maxAttempts, s'.deb) == TimerWork(s.maxAttempts, s.deb);
    assert StopWork(s'.stop) == StopWork(s.stop);
  }

  // ---- So does everything else ----

  lemma SubmitWork(max: nat, d: D.DState<nat>, id: string, n: nat)
    ensures TimerWork(max, D.Submit(d, id, n)) <= TimerWork(max, d) + Full(max) + 2
  {
    if !d.stopped {
      var d' := D.Submit(d, id, n);
      if id in d.entries {
        RemoveSize(d.armed, d.entries[id].timer);
        assert |d'.entries| == |d.entries|;
      } else {
        assert |d'.entries| == |d.entries| + 1;
      }
      assert |d'.armed| <= |d.armed| + 1;
    }
  }

  lemma HandoffWork(handoff: multiset<nat>, n: nat, w: nat)
    requires n in handoff
    ensures Times(|handoff - multiset{n}|, w) + w == Times(|handoff|, w)
  {
    assert |handoff - multiset{n}| == |handoff| - 1;
  }

  lemma EnqueueApart(s: Sys, n: nat)
    requires Enabled(s, Enqueue(n))
    ensures Work(EnqueueNext(s, n))
         == Times(|s.handoff - multiset{n}|, Full(s.maxAttempts) + 3)
          + TimerWork(s.maxAttempts, D.Submit(s.deb, s.accepted[n].instanceID, n))
          + WaitWork(s) + StopWork(s.stop)
  {
    assert WaitWork(EnqueueNext(s, n)) == WaitWork(s);
  }

  lemma EnqueueWorks(s: Sys, n: nat)
    requires Enabled(s, Enqueue(n))
    ensures Work(EnqueueNext(s, n)) < Work(s)
  {
    EnqueueApart(s, n);
    HandoffWork(s.handoff, n, Full(s.maxAttempts) + 3);
    SubmitWork(s.maxAttempts, s.deb, s.accepted[n].instanceID, n);
  }

  lemma ClaimWork(max: nat, d: D.DState<nat>, t: nat)
    requires t in d.fired
    ensures TimerWork(max, D.Callback(d, t)) < TimerWork(max, d)
    ensures D.Claims(d, t) ==> TimerWork(max, D.Callback(d, t)) + Full(max) < TimerWork(max, d)
  {
    RemoveSize(d.fired, t);
    RemoveSize(d.entries, d.fired[t].id);
  }

  lemma FireWork(max: nat, d: D.DState<nat>, t: nat)
    requires t in d.armed && t !in d.fired
    ensures TimerWork(max, D.Fire(d, t)) < TimerWork(max, d)
  {
    RemoveSize(d.armed, t);
  }

  lemma TimersApart(s: Sys, deb: D.DState<nat>)
    ensures Work(s.(deb := deb)) - Work(s) == TimerWork(s.maxAttempts, deb) - TimerWork(s.maxAttempts, s.deb)
  {
    var s' := s.(deb := deb);
    assert WaitWork(s') == WaitWork(s);
  }

  lemma LaunchWork(s: Sys, p: nat)
    requires s.maxAttempts >= 1 && p !in s.flights && p < |s.accepted|
    ensures Work(s.(flights := s.flights[p := Trying(1)])) == Work(s) + Full(s.maxAttempts)
  {
    FlightWorkMoves(s.maxAttempts, s.flights, s.flights[p := Trying(1)], |s.accepted|, p);
  }

  lemma CallbackWorks(s: Sys, t: nat)
    requires Conserved(s) && PendingOk(s) && WireMatches(s) && s.maxAttempts >= 1 && t in s.deb.fired
    ensures Work(CallbackNext(s, t)) < Work(s)
  {
    ClaimWork(s.maxAttempts, s.deb, t);
    TimersApart(s, D.Callback(s.deb, t));
    if D.Claims(s.deb, t) {
      ClaimConserves(s, t);
      LaunchWork(s.(deb := D.Callback(s.deb, t)), s.deb.entries[s.deb.fired[t].id].pending);
    }
  }

  lemma {:induction false} DistinctSize(order: seq<string>, keys: set<string>)
    requires D.Enumerates(order, keys)
    ensures |order| == |keys|
    decreases |order|
  {
    if order == [] {
      assert keys == {};
    } else {
      var last := |order| - 1;
      assert order == order[..last] + [order[last]];
      assert forall k :: k in order[..last] ==> k in order && k != order[last];
      DistinctSize(order[..last], keys - {order[last]});
    }
  }

  lemma FewerKeys<K, V>(a: map<K, V>, b: map<K, V>)
    requires a.Keys <= b.Keys
    ensures |a| <= |b|
  {
    SubsetSize(a.Keys, b.Keys);
    assert |a| == |a.Keys| && |b| == |b.Keys|;
  }

  // The flag turns the pending events into a batch of the same size.
  lemma StopTimers(max: nat, d: D.DState<nat>, order: seq<string>)
    requires D.Enumerates(order, d.entries.Keys)
    ensures TimerWork(max, D.Stop(d, order)) + Times(|order|, Full(max)) <= TimerWork(max, d)
  {
    DistinctSize(order, d.entries.Keys);
    assert |d.entries| == |d.entries.Keys|;
    FewerKeys(D.Stop(d, order).armed, d.armed);
  }

  lemma BatchWork(max: nat, batch: seq<nat>)
    requires max >= 1
    ensures FlushWork(max, Flushing(batch, 0, Trying(1))) == Times(|batch|, Full(max))
  {
  }

  lemma StopWaits(s: Sys, order: seq<string>)
    requires s.maxAttempts >= 1 && Enabled(s, StopBegin(order))
    ensures WaitWork(StopNext(s, order)) == WaitWork(s) + Times(|order|, Full(s.maxAttempts))
  {
    BatchWork(s.maxAttempts, StopNext(s, order).stop.batch);
  }

  lemma StopWorks(s: Sys, order: seq<string>)
    requires s.maxAttempts >= 1 && Enabled(s, StopBegin(order))
    ensures Work(StopNext(s, order)) < Work(s)
  {
    StopTimers(s.maxAttempts, s.deb, order);
    StopWaits(s, order);
  }

  lemma InternalWorks(s: Sys, act: Action)
    requires Inv(s) && Enabled(s, act) && Internal(act)
    ensures Work(Next(s, act)) < Work(s)
  {
    FlightsBelow(s);
    match act
    case Enqueue(n) => EnqueueWorks(s, n);
    case Fire(t) => FireWork(s.maxAttempts, s.deb, t); TimersApart(s, D.Fire(s.deb, t));
    case RunCallback(t) => CallbackWorks(s, t);
    case StopBegin(order) => StopWorks(s, order);
    case StopReturn => ReturnWorks(s);
    case _ => PublishingWorks(s, act);
  }

  lemma ReturnWorks(s: Sys)
    requires Enabled(s, StopReturn)
    ensures Work(Next(s, StopReturn)) < Work(s)
  {
  }

  lemma StepWorks(s: Sys, act: Action)
    requires Inv(s) && Enabled(s, act) && !act.Handle?
    ensures Inv(Next(s, act)) && OneIf(Internal(act)) + Work(Next(s, act)) <= Work(s)
  {
    NextKeeps(s, act);
    if act.Tick? { TimersApart(s, D.Tick(s.deb, act.dt)); } else { InternalWorks(s, act); }
  }

  function InternalSteps(acts: seq<Action>): nat {
    if acts == [] then 0 else OneIf(Internal(acts[0])) + InternalSteps(acts[1..])
  }

  // Between informer callbacks, a run takes no more internal steps than it has work left.
  lemma {:induction false} WorkBoundsRuns(s: Sys, acts: seq<Action>)
    requires Inv(s) && Legal(s, acts) && forall i :: 0 <= i < |acts| ==> !acts[i].Handle?
    ensures InternalSteps(acts) + Work(Run(s, acts)) <= Work(s)
    decreases |acts|
  {
    if acts != [] {
      StepWorks(s, acts[0]);
      WorkBoundsRuns(Next(s, acts[0]), acts[1..]);
    }
  }

  // ---- Stop's wait ----

  // Once the flag is set nothing adds to what Stop waits for, and publishing takes from it.
  lemma WaitShrinks(s: Sys, act: Action)
    requires Inv(s) && !s.stop.Running? && Enabled(s, act)
    ensures WaitWork(Next(s, act)) <= WaitWork(s)
    ensures Publishing(act) ==> WaitWork(Next(s, act)) < WaitWork(s)
    ensures Next(s, act).deb.wg <= s.deb.wg
  {
    FlightsBelow(s);
    if Publishing(act) {
      PublishingWaits(s, act);
    } else if act.Handle? && Admits(s.mon, act.event) {
      FlightWorkGrows(s.maxAttempts, s.flights, |s.accepted|, |s.accepted| + 1);
    }
  }

  // What can be done next for an actor inside publishFn.
  function NextPublishing(s: Sys, a: Actor): (act: Action)
    requires Busy(s, a)
    ensures Publishing(act)
  {
    match PhaseOf(s, a)
    case Trying(_) => Publish(a, true)
    case Waiting(_) => Retry(a)
    case Acked => Note(a)
    case _ => Finish(a)
  }

  lemma PublishingEnabled(s: Sys, a: Actor)
    requires Inv(s) && Busy(s, a)
    ensures Enabled(s, NextPublishing(s, a))
  {
    BusyTicket(s, a);
  }

  // While Stop has not returned, either it can return or some publication can go on.
  lemma WaitProgresses(s: Sys)
    requires Inv(s) && s.stop.Flushing?
    ensures Enabled(s, StopReturn) || exists act :: Publishing(act) && Enabled(s, act)
  {
    if Busy(s, Flush) {
      PublishingEnabled(s, Flush);
    } else if s.flights != map[] {
      var n :| n in s.flights;
      assert Busy(s, Flight(n));
      PublishingEnabled(s, Flight(n));
    } else {
      assert Unflushed(s.stop) == [];
    }
  }

  // ---- Nothing gets stuck ----

  ghost predicate Quiescent(s: Sys) {
    s.handoff == multiset{} && s.deb.entries == map[] && s.flights == map[] && Unflushed(s.stop) == []
  }

  // An internal step other than calling Stop, possible once `dt` has gone by.
  ghost predicate Possible(s: Sys, dt: nat, act: Action) {
    Internal(act) && !act.StopBegin? && Enabled(Next(s, Tick(dt)), act)
  }

  // As long as something is between the locks, pending, or in flight, some internal step is
  // possible now or once a timer has had time to run out.
  lemma NothingStuck(s: Sys)
    requires Inv(s) && !Quiescent(s)
    ensures exists dt, act :: Possible(s, dt, act)
  {
    if s.handoff != multiset{} {
      var n :| n in s.handoff;
      assert Places(s, n) == OneIf(n < |s.accepted|);
      assert Possible(s, 0, Enqueue(n));
    } else if s.deb.entries != map[] {
      var id :| id in s.deb.entries;
      EntryMoves(s, id);
    } else if s.flights != map[] {
      var n :| n in s.flights;
      assert Busy(s, Flight(n));
      PublishingEnabled(s, Flight(n));
      assert Possible(s, 0, NextPublishing(s, Flight(n)));
    } else {
      assert Busy(s, Flush);
      PublishingEnabled(s, Flush);
      assert Possible(s, 0, NextPublishing(s, Flush));
    }
  }

  lemma EntryMoves(s: Sys, id: string)
    requires D.DInv(s.deb) && id in s.deb.entries
    ensures exists dt, act :: Possible(s, dt, act)
  {
    var t := s.deb.entries[id].timer;
    assert D.EntryOk(s.deb, id);
    if t in s.deb.fired {
      assert Possible(s, 0, RunCallback(t));
    } else {
      var due := s.deb.armed[t].due;
      var dt: nat := if due <= s.deb.now then 0 else due - s.deb.now;
      assert Possible(s, dt, Fire(t));
    }
  }

  predicate Unprompted(acts: seq<Action>) {
    forall i :: 0 <= i < |acts| ==> !acts[i].Handle? && !acts[i].StopBegin?
  }

  lemma SomeMove(s: Sys) returns (dt: nat, act: Action)
    requires Inv(s) && !Quiescent(s)
    ensures !act.Handle? && !act.StopBegin? && Enabled(Next(s, Tick(dt)), act)
    ensures Inv(Next(Next(s, Tick(dt)), act)) && Work(Next(Next(s, Tick(dt)), act)) < Work(s)
  {
    NothingStuck(s);
    dt, act :| Possible(s, dt, act);
    StepWorks(s, Tick(dt));
    StepWorks(Next(s, Tick(dt)), act);
  }

  lemma MoveFirst(s: Sys, dt: nat, act: Action, rest: seq<Action>)
    requires Enabled(Next(s, Tick(dt)), act) && Legal(Next(Next(s, Tick(dt)), act), rest)
    requires !act.Handle? && !act.StopBegin? && Unprompted(rest)
    ensures var acts := [Tick(dt)] + ([act] + rest);
            Legal(s, acts) && Run(s, acts) == Run(Next(Next(s, Tick(dt)), act), rest) && Unprompted(acts)
  {
    RunCons(Next(s, Tick(dt)), act, rest);
    RunCons(s, Tick(dt), [act] + rest);
  }

  // So every state can be driven to rest without another informer callback.
  lemma {:induction false} Drains(s: Sys, work: nat) returns (acts: seq<Action>)
    requires Inv(s) && work == Work(s)
    ensures Legal(s, acts) && Quiescent(Run(s, acts)) && Unprompted(acts)
    decreases work
  {
    if Quiescent(s) {
      acts := [];
    } else {
      var dt, act := SomeMove(s);
      var s2 := Next(Next(s, Tick(dt)), act);
      var rest := Drains(s2, Work(s2));
      MoveFirst(s, dt, act, rest);
      acts := [Tick(dt)] + ([act] + rest);
    }
  }
}
