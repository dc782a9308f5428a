/**
 How often an event is tried: over every run, the attempts made for a ticket, its
 acknowledgement and its giving up are counted from the steps of the run, whether a callback
 or the flush is publishing it.
 */
module Attempts {
  import opened Events
  import opened Pipeline
  import opened PipelineInvariants
  import opened PipelineSafety
  import D = Debounce

  datatype Counts = Counts(failed: nat, acked: nat, quit: nat)

  const NONE := Counts(0, 0, 0)

  // The step is taken by whoever publishes ticket n.
  predicate On(s: Sys, a: Actor, n: nat) {
    Busy(s, a) && TicketOf(s, a) == n
  }

  function Counted(s: Sys, act: Action, n: nat, c: Counts): Counts {
    match act
    case Publish(a, ok) =>
      if !On(s, a, n) then c else if ok then c.(acked := c.acked + 1) else c.(failed := c.failed + 1)
    case GiveUp(a) => if On(s, a, n) then c.(quit := c.quit + 1) else c
    case _ => c
  }

  // What a run does for ticket n, added to what was done before it.
  ghost function CountedOver(s: Sys, acts: seq<Action>, n: nat, c: Counts): Counts
    requires Legal(s, acts)
    decreases |acts|
  {
    if acts == [] then c else CountedOver(Next(s, acts[0]), acts[1..], n, Counted(s, acts[0], n, c))
  }

  // ---- What the counts say about the ticket ----

  predicate GivenUp(max: nat, c: Counts) {
    c.acked == 0 && ((c.quit == 1 && 1 <= c.failed < max) || (c.quit == 0 && c.failed == max))
  }

  predicate Succeeded(max: nat, c: Counts) {
    c.acked == 1 && c.quit == 0 && c.failed < max
  }

  predicate PhaseCounts(max: nat, p: Phase, c: Counts) {
    match p
    case Trying(k) => 1 <= k <= max && c == Counts(k - 1, 0, 0)
    case Waiting(k) => 1 <= k < max && c == Counts(k, 0, 0)
    case Acked => Succeeded(max, c)
    case Noted => Succeeded(max, c)
    case Abandoned => GivenUp(max, c)
  }

  predicate AtHead(s: Sys, n: nat) { On(s, Flush, n) }

  // A ticket is being published, or was, or has not been yet.
  predicate CountsFit(s: Sys, n: nat, c: Counts) {
    if n in s.flights then PhaseCounts(s.maxAttempts, s.flights[n], c)
    else if AtHead(s, n) then PhaseCounts(s.maxAttempts, s.stop.phase, c)
    else if s.delivered[n] >= 1 then Succeeded(s.maxAttempts, c)
    else if s.abandoned[n] >= 1 then GivenUp(s.maxAttempts, c)
    else c == NONE
  }

  // ---- Each step keeps them ----

  // Whoever publishes ticket n, its phase is the one counted.
  lemma PhaseFits(s: Sys, a: Actor, n: nat, c: Counts)
    requires Conserved(s) && On(s, a, n)
    ensures CountsFit(s, n, c) <==> PhaseCounts(s.maxAttempts, PhaseOf(s, a), c)
    ensures s.delivered[n] == 0 && s.abandoned[n] == 0
    ensures (n in s.flights <==> a == Flight(n)) && (AtHead(s, n) <==> a == Flush)
  {
    BusyTicket(s, a);
    assert Places(s, n) == OneIf(n < |s.accepted|);
    if Busy(s, Flush) {
      assert Unflushed(s.stop) == [TicketOf(s, Flush)] + s.stop.batch[s.stop.next + 1..];
    }
  }

  // A step of an actor's phase.
  lemma MoveFits(s: Sys, a: Actor, p: Phase, n: nat, c: Counts, c': Counts)
    requires Conserved(s) && Busy(s, a) && CountsFit(s, n, c)
    requires if On(s, a, n) then PhaseCounts(s.maxAttempts, p, c') else c' == c
    ensures CountsFit(Moved(s, a, p), n, c')
  {
    if On(s, a, n) { PhaseFits(s, a, n, c); }
  }

  lemma PublishFits(s: Sys, a: Actor, ok: bool, n: nat, c: Counts)
    requires Conserved(s) && PhasesOk(s) && CountsFit(s, n, c) && Enabled(s, Publish(a, ok))
    ensures CountsFit(PublishNext(s, a, ok), n, Counted(s, Publish(a, ok), n, c))
  {
    PhaseIsOk(s, a);
    if On(s, a, n) { PhaseFits(s, a, n, c); }
    var k := PhaseOf(s, a).attempt;
    var p := if ok then Acked else if k < s.maxAttempts then Waiting(k) else Abandoned;
    MoveFits(s, a, p, n, c, Counted(s, Publish(a, ok), n, c));
  }

  lemma RetryFits(s: Sys, a: Actor, n: nat, c: Counts)
    requires Conserved(s) && PhasesOk(s) && CountsFit(s, n, c) && Enabled(s, Retry(a))
    ensures CountsFit(Next(s, Retry(a)), n, c)
  {
    PhaseIsOk(s, a);
    if On(s, a, n) { PhaseFits(s, a, n, c); }
    MoveFits(s, a, Trying(PhaseOf(s, a).attempt + 1), n, c, c);
    RetryIsMove(s, a);
  }

  lemma GiveUpFits(s: Sys, a: Actor, n: nat, c: Counts)
    requires Conserved(s) && CountsFit(s, n, c) && Enabled(s, GiveUp(a))
    ensures CountsFit(Next(s, GiveUp(a)), n, Counted(s, GiveUp(a), n, c))
  {
    if On(s, a, n) { PhaseFits(s, a, n, c); }
    MoveFits(s, a, Abandoned, n, c, Counted(s, GiveUp(a), n, c));
  }

  lemma NoteFits(s: Sys, a: Actor, n: nat, c: Counts)
    requires Conserved(s) && CountsFit(s, n, c) && Enabled(s, Note(a))
    ensures CountsFit(NoteNext(s, a), n, c)
  {
    if On(s, a, n) { PhaseFits(s, a, n, c); }
    MoveFits(s, a, Noted, n, c, c);
  }

  // A ticket that waits in the batch has not been tried.
  lemma NextInBatch(s: Sys, n: nat, c: Counts)
    requires Conserved(s) && CountsFit(s, n, c) && Busy(s, Flush) && n in s.stop.batch[s.stop.next + 1..]
    ensures c == NONE && n !in s.flights && !AtHead(s, n)
  {
    assert Places(s, n) == OneIf(n < |s.accepted|);
    assert Unflushed(s.stop) == [TicketOf(s, Flush)] + s.stop.batch[s.stop.next + 1..];
  }

  lemma FinishFits(s: Sys, a: Actor, n: nat, c: Counts)
    requires Conserved(s) && PhasesOk(s) && CountsFit(s, n, c) && Enabled(s, Finish(a))
    ensures CountsFit(FinishNext(s, a), n, c)
  {
    var s' := FinishNext(s, a);
    if On(s, a, n) {
      PhaseFits(s, a, n, c);
      BusyTicket(s, a);
      assert n !in s'.flights && !AtHead(s', n);
    } else if a.Flush? && AtHead(s', n) {
      assert s'.stop.batch[s'.stop.next] in s.stop.batch[s.stop.next + 1..];
      NextInBatch(s, n, c);
    }
  }

  lemma ClaimFits(s: Sys, t: nat, n: nat, c: Counts)
    requires Conserved(s) && PendingOk(s) && PhasesOk(s) && CountsFit(s, n, c) && t in s.deb.fired
    ensures CountsFit(CallbackNext(s, t), n, c)
  {
    if D.Claims(s.deb, t) && n == s.deb.entries[s.deb.fired[t].id].pending {
      assert Places(s, n) == OneIf(n < |s.accepted|);
      if Busy(s, Flush) {
        assert Unflushed(s.stop) == [TicketOf(s, Flush)] + s.stop.batch[s.stop.next + 1..];
      }
    }
  }

  lemma StopFits(s: Sys, order: seq<string>, n: nat, c: Counts)
    requires Conserved(s) && PendingOk(s) && PhasesOk(s) && CountsFit(s, n, c) && Enabled(s, StopBegin(order))
    ensures CountsFit(StopNext(s, order), n, c)
  {
    if AtHead(StopNext(s, order), n) {
      assert order[0] in s.deb.entries && Pends(s, n);
      assert Places(s, n) == OneIf(n < |s.accepted|);
    }
  }

  // The remaining steps neither publish nor change who does.
  lemma IdleFits(s: Sys, act: Action, n: nat, c: Counts)
    requires CountsFit(s, n, c) && Enabled(s, act)
    requires act.Handle? || act.Enqueue? || act.Tick? || act.Fire? || act.StopReturn?
    ensures CountsFit(Next(s, act), n, c)
  {
  }

  lemma StepFits(s: Sys, act: Action, n: nat, c: Counts)
    requires Inv(s) && CountsFit(s, n, c) && Enabled(s, act)
    ensures CountsFit(Next(s, act), n, Counted(s, act, n, c))
  {
    match act
    case Publish(a, ok) => PublishFits(s, a, ok, n, c);
    case Retry(a) => RetryFits(s, a, n, c);
    case GiveUp(a) => GiveUpFits(s, a, n, c);
    case Note(a) => NoteFits(s, a, n, c);
    case Finish(a) => FinishFits(s, a, n, c);
    case RunCallback(t) => ClaimFits(s, t, n, c);
    case StopBegin(order) => StopFits(s, order, n, c);
    case _ => IdleFits(s, act, n, c);
  }

  lemma {:induction false} RunFits(s: Sys, acts: seq<Action>, n: nat, c: Counts)
    requires Inv(s) && CountsFit(s, n, c) && Legal(s, acts)
    ensures CountsFit(Run(s, acts), n, CountedOver(s, acts, n, c)) && Run(s, acts).maxAttempts == s.maxAttempts
    decreases |acts|
  {
    if acts != [] {
      NextKeeps(s, acts[0]);
      StepFits(s, acts[0], n, c);
      SameMaximum(s, acts[0]);
      RunFits(Next(s, acts[0]), acts[1..], n, Counted(s, acts[0], n, c));
    }
  }

  lemma SameMaximum(s: Sys, act: Action)
    requires Enabled(s, act)
    ensures Next(s, act).maxAttempts == s.maxAttempts
  {
    match act
    case Handle(e) => assert Next(s, act).maxAttempts == s.maxAttempts;
    case Enqueue(_) => assert Next(s, act).maxAttempts == s.maxAttempts;
    case RunCallback(_) => assert Next(s, act).maxAttempts == s.maxAttempts;
    case Publish(_, _) => assert Next(s, act).maxAttempts == s.maxAttempts;
    case Note(_) => assert Next(s, act).maxAttempts == s.maxAttempts;
    case Finish(_) => assert Next(s, act).maxAttempts == s.maxAttempts;
    case _ =>
  }

  // ---- Over every run ----

  // A ticket's publication is over without success.
  ghost predicate Lost(s: Sys, n: nat) {
    || s.abandoned[n] >= 1
    || (exists a :: On(s, a, n) && PhaseOf(s, a).Abandoned?)
  }

  ghost predicate Acknowledged(s: Sys, n: nat) {
    || s.delivered[n] >= 1
    || (exists a :: On(s, a, n) && (PhaseOf(s, a).Acked? || PhaseOf(s, a).Noted?))
  }

  lemma CountsTell(s: Sys, n: nat, c: Counts)
    requires Inv(s) && CountsFit(s, n, c)
    ensures Lost(s, n) <==> c.acked == 0 && (c.quit == 1 || c.failed == s.maxAttempts)
    ensures Acknowledged(s, n) <==> c.acked == 1
    ensures c.failed <= s.maxAttempts && c.acked <= 1 && c.quit <= 1
    ensures c.acked + c.quit <= 1 && (c.failed == s.maxAttempts ==> c.acked + c.quit == 0)
  {
    if a :| On(s, a, n) {
      PhaseFits(s, a, n, c);
    } else {
      assert !On(s, Flight(n), n) && !On(s, Flush, n);
      assert Places(s, n) == OneIf(n < |s.accepted|);
    }
  }

  // A publication is tried only while it has neither succeeded nor been given up, and given up
  // only after a failure that was not the last allowed one.
  lemma TryTells(s: Sys, a: Actor, n: nat, c: Counts)
    requires Conserved(s) && CountsFit(s, n, c) && On(s, a, n)
    ensures PhaseOf(s, a).Trying? ==> c.failed < s.maxAttempts && c.acked == 0 && c.quit == 0
    ensures PhaseOf(s, a).Waiting? ==> 1 <= c.failed < s.maxAttempts && c.acked == 0 && c.quit == 0
  {
    PhaseFits(s, a, n, c);
  }

  lemma ReachableFits(configuredAttempts: int, interval: int, acts: seq<Action>, s: Sys, n: nat)
    requires Reaches(configuredAttempts, interval, acts, s)
    ensures Inv(s) && s.maxAttempts == EffectiveAttempts(configuredAttempts)
    ensures CountsFit(s, n, CountedOver(Init(configuredAttempts, interval), acts, n, NONE))
  {
    InitInv(configuredAttempts, interval);
    RunFits(Init(configuredAttempts, interval), acts, n, NONE);
    ReachableInv(configuredAttempts, interval, acts, s);
  }

  // Over every run: a publication is lost if and only if it was never acknowledged and was
  // either given up in a wait, once, or failed as often as attempts are allowed; it is never
  // tried more often, and never again once acknowledged or given up.
  lemma AttemptsOverRuns(configuredAttempts: int, interval: int, acts: seq<Action>, s: Sys, n: nat)
    requires Reaches(configuredAttempts, interval, acts, s)
    ensures var max := if configuredAttempts < 1 then 5 else configuredAttempts;
            var c := CountedOver(Init(configuredAttempts, interval), acts, n, NONE);
            && (Lost(s, n) <==> c.acked == 0 && (c.quit == 1 || c.failed == max))
            && (Acknowledged(s, n) <==> c.acked == 1)
            && c.failed <= max && c.acked + c.quit <= 1 && (c.failed == max ==> c.acked + c.quit == 0)
            && (forall a, ok :: Enabled(s, Publish(a, ok)) && TicketOf(s, a) == n ==>
                  c.failed < max && c.acked == 0 && c.quit == 0)
            && (forall a :: Enabled(s, GiveUp(a)) && TicketOf(s, a) == n ==>
                  1 <= c.failed < max && c.acked == 0 && c.quit == 0)
  {
    var c := CountedOver(Init(configuredAttempts, interval), acts, n, NONE);
    ReachableFits(configuredAttempts, interval, acts, s, n);
    CountsTell(s, n, c);
    forall a | On(s, a, n)
      ensures PhaseOf(s, a).Trying? ==> c.failed < s.maxAttempts && c.acked == 0 && c.quit == 0
      ensures PhaseOf(s, a).Waiting? ==> 1 <= c.failed < s.maxAttempts && c.acked == 0 && c.quit == 0
    {
      TryTells(s, a, n, c);
    }
  }

  lemma FailedStep(s: Sys, a: Actor)
    requires Enabled(s, Publish(a, false))
    ensures var s', k := Next(s, Publish(a, false)), PhaseOf(s, a).attempt;
            && Busy(s', a) && TicketOf(s', a) == TicketOf(s, a)
            && (Enabled(s', Retry(a)) <==> k < s.maxAttempts) && (Enabled(s', GiveUp(a)) <==> k < s.maxAttempts)
            && (Enabled(s', Finish(a)) <==> k >= s.maxAttempts)
  {
  }

  lemma TryingTells(s: Sys, a: Actor, n: nat, c: Counts)
    requires Conserved(s) && CountsFit(s, n, c) && On(s, a, n) && PhaseOf(s, a).Trying?
    ensures PhaseOf(s, a).attempt == c.failed + 1 <= s.maxAttempts
  {
    PhaseFits(s, a, n, c);
  }

  // After a failed attempt the publication can go on, or be given up, if and only if fewer have
  // failed than are allowed, for the flush as for a callback.
  lemma FailedGoesOn(configuredAttempts: int, interval: int, acts: seq<Action>, s: Sys, a: Actor)
    requires Reaches(configuredAttempts, interval, acts, s) && Enabled(s, Publish(a, false))
    ensures var max := if configuredAttempts < 1 then 5 else configuredAttempts;
            var n, s' := TicketOf(s, a), Next(s, Publish(a, false));
            var failed := CountedOver(Init(configuredAttempts, interval), acts, n, NONE).failed + 1;
            && Busy(s', a) && TicketOf(s', a) == n
            && (Enabled(s', Retry(a)) <==> failed < max) && (Enabled(s', GiveUp(a)) <==> failed < max)
            && (Enabled(s', Finish(a)) <==> failed == max)
  {
    var n := TicketOf(s, a);
    ReachableFits(configuredAttempts, interval, acts, s, n);
    TryingTells(s, a, n, CountedOver(Init(configuredAttempts, interval), acts, n, NONE));
    FailedStep(s, a);
  }
}
