/** Driving chosen tickets through a running pipeline, by steps that lose nothing. */
module Steering {
  import opened MonitorCore
  import opened Pipeline
  import opened PipelineInvariants
  import opened PipelineProgress
  import opened History
  import D = Debounce

  // No report, no failure for good, no Stop.
  predicate Calm(act: Action) {
    match act
    case Publish(_, ok) => ok
    case _ => !act.Handle? && !act.GiveUp? && !act.StopBegin? && !act.StopReturn?
  }

  ghost predicate Steered(s: Sys, acts: seq<Action>, s': Sys) {
    && Legal(s, acts) && Run(s, acts) == s'
    && forall i :: 0 <= i < |acts| ==> Calm(acts[i])
  }

  lemma SteerOn(s: Sys, acts: seq<Action>, s1: Sys, more: seq<Action>, s2: Sys)
    requires Steered(s, acts, s1) && Steered(s1, more, s2)
    ensures Steered(s, acts + more, s2)
  {
    RunJoins(s, acts, more);
  }

  lemma SteerStep(s: Sys, acts: seq<Action>, s1: Sys, act: Action)
    requires Steered(s, acts, s1) && Enabled(s1, act) && Calm(act)
    ensures Steered(s, acts + [act], Next(s1, act))
  {
    RunCons(s1, act, []);
    assert [act] + [] == [act];
    SteerOn(s, acts, s1, [act], Next(s1, act));
  }

  // ---- Into publishFn ----

  // In a running pipeline an open ticket is between the locks, pending, or in flight.
  lemma OpenPlaces(s: Sys, n: nat)
    requires Conserved(s) && s.stop.Running? && Open(s, n)
    ensures n in s.handoff || Pends(s, n) || (n in s.flights && !IsOver(s.flights[n]))
    ensures Pends(s, n) ==> n !in s.handoff && n !in s.flights
  {
    assert Places(s, n) == OneIf(n < |s.accepted|);
  }

  // What driving ticket n leaves alone.
  ghost predicate Spared(s: Sys, s': Sys, n: nat) {
    && s'.mon == s.mon && s'.accepted == s.accepted && s'.whose == s.whose && s'.stop == s.stop && s'.wire == s.wire
    && (forall m :: m in s.flights ==> m in s'.flights && s'.flights[m] == s.flights[m])
    && (forall m :: m in s.handoff && m != n ==> m in s'.handoff)
  }

  lemma Expires(s: Sys, n: nat) returns (acts: seq<Action>, s': Sys)
    requires D.DInv(s.deb) && Pends(s, n)
    ensures Steered(s, acts, s') && s' == s.(deb := s'.deb)
    ensures s'.deb.entries == s.deb.entries && s'.deb.stopped == s.deb.stopped
    ensures s.deb.entries[s.accepted[n].instanceID].timer in s'.deb.fired
    ensures s'.deb.fired[s.deb.entries[s.accepted[n].instanceID].timer].id == s.accepted[n].instanceID
    ensures s'.deb.fired[s.deb.entries[s.accepted[n].instanceID].timer].ver
         == s.deb.entries[s.accepted[n].instanceID].ver
  {
    var en := s.deb.entries[s.accepted[n].instanceID];
    assert D.EntryOk(s.deb, s.accepted[n].instanceID);
    acts, s' := [], s;
    if en.timer in s.deb.armed {
      var due := s.deb.armed[en.timer].due;
      var dt: nat := if due <= s.deb.now then 0 else due - s.deb.now;
      SteerStep(s, acts, s', Tick(dt));
      acts, s' := acts + [Tick(dt)], s'.(deb := D.Tick(s'.deb, dt));
      SteerStep(s, acts, s', Fire(en.timer));
      acts, s' := acts + [Fire(en.timer)], s'.(deb := D.Fire(s'.deb, en.timer));
    }
  }

  lemma ClaimPending(s: Sys, n: nat) returns (acts: seq<Action>, s': Sys)
    requires Inv(s) && s.stop.Running? && Pends(s, n)
    ensures Steered(s, acts, s') && Spared(s, s', n)
    ensures n in s'.flights && s'.flights[n] == Trying(1)
  {
    var t := s.deb.entries[s.accepted[n].instanceID].timer;
    acts, s' := Expires(s, n);
    assert Places(s, n) == OneIf(n < |s.accepted|);
    SteerStep(s, acts, s', RunCallback(t));
    acts, s' := acts + [RunCallback(t)], CallbackNext(s', t);
  }

  lemma EnqueueAndClaim(s: Sys, n: nat) returns (acts: seq<Action>, s': Sys)
    requires Inv(s) && s.stop.Running? && n in s.handoff && n < |s.accepted|
    ensures Steered(s, acts, s') && Spared(s, s', n)
    ensures n in s'.flights && s'.flights[n] == Trying(1)
  {
    EnqueueKeeps(s, n);
    SteerStep(s, [], s, Enqueue(n));
    assert [] + [Enqueue(n)] == [Enqueue(n)];
    var more, s2 := ClaimPending(EnqueueNext(s, n), n);
    SteerOn(s, [Enqueue(n)], EnqueueNext(s, n), more, s2);
    acts, s' := [Enqueue(n)] + more, s2;
  }

  lemma ToFlight(s: Sys, n: nat) returns (acts: seq<Action>, s': Sys)
    requires Inv(s) && s.stop.Running? && Open(s, n)
    ensures Steered(s, acts, s') && Spared(s, s', n) && Inv(s')
    ensures n in s'.flights && !IsOver(s'.flights[n])
  {
    OpenPlaces(s, n);
    if n in s.handoff {
      acts, s' := EnqueueAndClaim(s, n);
    } else if Pends(s, n) {
      acts, s' := ClaimPending(s, n);
    } else {
      acts, s' := [], s;
    }
    RunKeeps(s, acts);
  }

  lemma BothToFlight(s: Sys, a: nat, b: nat) returns (acts: seq<Action>, s': Sys)
    requires Inv(s) && s.stop.Running? && Open(s, a) && Open(s, b) && a != b && !Pends(s, b)
    ensures Steered(s, acts, s') && Inv(s') && s'.stop.Running? && s'.mon == s.mon && s'.accepted == s.accepted
    ensures s'.wire == s.wire
    ensures forall n :: n in {a, b} ==> n in s'.flights && !IsOver(s'.flights[n])
  {
    OpenPlaces(s, b);
    var front, s1 := ToFlight(s, a);
    PlacedIsOpen(s1, b);
    var back, s2 := ToFlight(s1, b);
    SteerOn(s, front, s1, back, s2);
    acts, s' := front + back, s2;
  }

  // ---- Out of it, recorded ----

  lemma RetryIs(s: Sys, n: nat)
    requires n in s.flights && s.flights[n].Waiting?
    ensures Enabled(s, Retry(Flight(n)))
    ensures Next(s, Retry(Flight(n))) == s.(flights := s.flights[n := Trying(s.flights[n].attempt + 1)])
  {
  }

  lemma AckIs(s: Sys, n: nat)
    requires n in s.flights && s.flights[n].Trying?
    ensures Enabled(s, Publish(Flight(n), true))
    ensures Next(s, Publish(Flight(n), true)) == s.(flights := s.flights[n := Acked], wire := s.wire + [n])
  {
  }

  lemma NoteIs(s: Sys, n: nat)
    requires n in s.flights && s.flights[n].Acked? && n < |s.accepted|
    ensures Enabled(s, Note(Flight(n)))
    ensures Next(s, Note(Flight(n)))
         == s.(flights := s.flights[n := Noted], mon := Record(s.mon, s.accepted[n]), whose := s.whose + [n])
  {
  }

  // One more internal step, after others.
  lemma OneMore(s: Sys, acts: seq<Action>, s1: Sys, act: Action)
    requires Steered(s, acts, s1) && Inv(s1) && Enabled(s1, act) && Calm(act) && Internal(act) && Work(s1) <= Work(s)
    ensures Steered(s, acts + [act], Next(s1, act)) && Inv(Next(s1, act)) && Work(Next(s1, act)) < Work(s)
  {
    SteerStep(s, acts, s1, act);
    StepWorks(s1, act);
  }

  lemma AckTrying(s: Sys, acts: seq<Action>, s1: Sys, n: nat) returns (acts': seq<Action>, s': Sys)
    requires Steered(s, acts, s1) && Inv(s1) && Work(s1) <= Work(s) && n in s1.flights && s1.flights[n].Trying?
    ensures Steered(s, acts', s') && Inv(s') && Work(s') <= Work(s)
    ensures s' == s1.(flights := s1.flights[n := Acked], wire := s1.wire + [n])
  {
    AckIs(s1, n);
    OneMore(s, acts, s1, Publish(Flight(n), true));
    acts', s' := acts + [Publish(Flight(n), true)], Next(s1, Publish(Flight(n), true));
  }

  lemma RetryWaiting(s: Sys, n: nat) returns (acts: seq<Action>, s': Sys)
    requires Inv(s) && n in s.flights && s.flights[n].Waiting?
    ensures Steered(s, acts, s') && Inv(s') && Work(s') <= Work(s)
    ensures s' == s.(flights := s.flights[n := Trying(s.flights[n].attempt + 1)])
  {
    RetryIs(s, n);
    OneMore(s, [], s, Retry(Flight(n)));
    acts, s' := [] + [Retry(Flight(n))], Next(s, Retry(Flight(n)));
  }

  // The wire once ticket n is acknowledged.
  function WireWith(s: Sys, n: nat): seq<nat>
    requires n in s.flights
  {
    if s.flights[n].Acked? then s.wire else s.wire + [n]
  }

  lemma ToAcked(s: Sys, n: nat) returns (acts: seq<Action>, s': Sys)
    requires Inv(s) && n in s.flights && !IsOver(s.flights[n])
    ensures Steered(s, acts, s') && Inv(s') && Work(s') <= Work(s)
    ensures s' == s.(flights := s.flights[n := Acked], wire := WireWith(s, n))
  {
    if s.flights[n].Acked? {
      acts, s' := [], s;
      assert s.flights[n := Acked] == s.flights;
    } else if s.flights[n].Trying? {
      acts, s' := AckTrying(s, [], s, n);
    } else {
      var front, s1 := RetryWaiting(s, n);
      acts, s' := AckTrying(s, front, s1, n);
      assert s.flights[n := Trying(s.flights[n].attempt + 1)][n := Acked] == s.flights[n := Acked];
    }
  }

  // What delivering ticket n changes.
  ghost predicate Delivered(s: Sys, s': Sys, n: nat)
    requires n in s.flights
  {
    && s'.wire == WireWith(s, n)
    && n < |s.accepted| && s'.mon == Record(s.mon, s.accepted[n]) && s'.whose == s.whose + [n]
    && s'.accepted == s.accepted && s'.handoff == s.handoff && s'.deb == s.deb && s'.stop == s.stop
    && s'.flights == s.flights[n := Noted]
  }

  lemma DeliveredFrom(s: Sys, s1: Sys, n: nat)
    requires n in s.flights && n < |s.accepted|
    requires s1 == s.(flights := s.flights[n := Acked], wire := WireWith(s, n))
    ensures Delivered(s, s1.(flights := s1.flights[n := Noted], mon := Record(s1.mon, s1.accepted[n]),
                             whose := s1.whose + [n]), n)
  {
    assert s.flights[n := Acked][n := Noted] == s.flights[n := Noted];
  }

  lemma Deliver(s: Sys, n: nat) returns (acts: seq<Action>, s': Sys)
    requires Inv(s) && s.stop.Running? && n in s.flights && !IsOver(s.flights[n])
    ensures Steered(s, acts, s') && Inv(s') && Delivered(s, s', n) && Work(s') < Work(s)
  {
    BusyTicket(s, Flight(n));
    var front, s1 := ToAcked(s, n);
    NoteIs(s1, n);
    OneMore(s, front, s1, Note(Flight(n)));
    DeliveredFrom(s, s1, n);
    acts, s' := front + [Note(Flight(n))], Next(s1, Note(Flight(n)));
  }

  // ---- All of them but some ----

  // Without reports no ticket is opened.
  lemma {:induction false} OpenShrinks(s: Sys, acts: seq<Action>, m: nat)
    requires Inv(s) && Legal(s, acts) && forall i :: 0 <= i < |acts| ==> !acts[i].Handle?
    ensures Run(s, acts).accepted == s.accepted
    ensures Open(Run(s, acts), m) ==> Open(s, m)
    decreases |acts|
  {
    if acts != [] {
      NextKeeps(s, acts[0]);
      StepCloses(s, acts[0], m);
      SameAccepted(s, acts[0]);
      OpenShrinks(Next(s, acts[0]), acts[1..], m);
    }
  }

  lemma DriveOne(s: Sys, m: nat) returns (acts: seq<Action>, s': Sys)
    requires Inv(s) && s.stop.Running? && Open(s, m)
    ensures Steered(s, acts, s') && Inv(s') && s'.stop.Running? && s'.accepted == s.accepted
    ensures forall k :: k in s.flights && k != m ==> k in s'.flights && s'.flights[k] == s.flights[k]
    ensures s'.mon == Record(s.mon, s.accepted[m])
    ensures Work(s') < Work(s)
  {
    var front, s1 := ToFlight(s, m);
    WorkBoundsRuns(s, front);
    var back, s2 := Deliver(s1, m);
    SteerOn(s, front, s1, back, s2);
    acts, s' := front + back, s2;
  }

  ghost predicate KeptFlying(s: Sys, keep: set<nat>) {
    forall k :: k in keep ==> k in s.flights && !IsOver(s.flights[k])
  }

  // Every open ticket not in `keep` is delivered; those in `keep` stay in flight as they are.
  lemma {:induction false} DrainBut(s: Sys, keep: set<nat>, work: nat) returns (acts: seq<Action>, s': Sys)
    requires Inv(s) && s.stop.Running? && KeptFlying(s, keep) && work == Work(s)
    ensures Steered(s, acts, s') && Inv(s') && s'.stop.Running? && s'.accepted == s.accepted && KeptFlying(s', keep)
    ensures forall k :: k in keep ==> s'.flights[k] == s.flights[k]
    ensures forall m :: Open(s', m) ==> m in keep
    ensures forall e :: Latched(s'.mon.lastSubmitted, e) ==> Latched(s.mon.lastSubmitted, e)
    decreases work
  {
    if m :| Open(s, m) && m !in keep {
      var front, s1 := DriveOne(s, m);
      var back, s2 := DrainBut(s1, keep, Work(s1));
      SteerOn(s, front, s1, back, s2);
      acts, s' := front + back, s2;
    } else {
      acts, s' := [], s;
    }
  }
}
