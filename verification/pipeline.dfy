/**
 The status pipeline, interleaved at the grain of its locks: informer callbacks, the
 runtime's timers, publications in flight and Stop all take steps of their own.

 An accepted event is named by its ticket, its position in `accepted`. Between the two
 locks a ticket waits in `handoff`; the multisets at the end of `Sys` record what became
 of each ticket and decide no step. Nor does `whose`, which gives the ticket of every
 section in the monitor's history.
 */
module Pipeline {
  import opened Events
  import opened MonitorCore
  import D = Debounce

  // Where one call of publishWithRetry stands.
  datatype Phase = Trying(attempt: nat) | Waiting(attempt: nat) | Acked | Noted | Abandoned

  // Where Debouncer.Stop stands: `batch` is flushed one event at a time, then it waits.
  datatype StopPc = Running | Flushing(batch: seq<nat>, next: nat, phase: Phase) | Returned(batch: seq<nat>)

  // Who is inside publishFn: the callback that claimed a ticket, or the flush.
  datatype Actor = Flight(ticket: nat) | Flush

  datatype Sys = Sys(
    maxAttempts: nat,
    mon: MState,
    accepted: seq<StatusEvent>,
    whose: seq<nat>,
    handoff: multiset<nat>,
    deb: D.DState<nat>,
    flights: map<nat, Phase>,
    stop: StopPc,
    wire: seq<nat>,
    dropped: multiset<nat>,
    superseded: multiset<nat>,
    delivered: multiset<nat>,
    abandoned: multiset<nat>)

  datatype Action =
    | Handle(event: StatusEvent)
    | Enqueue(ticket: nat)
    | Tick(dt: nat)
    | Fire(timer: nat)
    | RunCallback(timer: nat)
    | Publish(actor: Actor, ok: bool)
    | Retry(actor: Actor)
    | GiveUp(actor: Actor)
    | Note(actor: Actor)
    | Finish(actor: Actor)
    | StopBegin(order: seq<string>)
    | StopReturn

  // A configured maximum below one means the default.
  function EffectiveAttempts(configured: int): (max: nat)
    ensures max >= 1 && (configured >= 1 ==> max == configured) && (configured < 1 ==> max == 5)
  {
    if configured < 1 then 5 else configured
  }

  function Init(configuredAttempts: int, interval: int): Sys {
    Sys(EffectiveAttempts(configuredAttempts), FRESH, [], [], multiset{}, D.Init(interval), map[], Running, [],
        multiset{}, multiset{}, multiset{}, multiset{})
  }

  // ---- Actors ----

  predicate Busy(s: Sys, a: Actor) {
    match a
    case Flight(n) => n in s.flights
    case Flush => s.stop.Flushing? && s.stop.next < |s.stop.batch|
  }

  function PhaseOf(s: Sys, a: Actor): Phase
    requires Busy(s, a)
  {
    match a
    case Flight(n) => s.flights[n]
    case Flush => s.stop.phase
  }

  function TicketOf(s: Sys, a: Actor): nat
    requires Busy(s, a)
  {
    match a
    case Flight(n) => n
    case Flush => s.stop.batch[s.stop.next]
  }

  function Moved(s: Sys, a: Actor, p: Phase): Sys
    requires Busy(s, a)
  {
    match a
    case Flight(n) => s.(flights := s.flights[n := p])
    case Flush => s.(stop := s.stop.(phase := p))
  }

  function Left(s: Sys, a: Actor): Sys
    requires Busy(s, a)
  {
    match a
    case Flight(n) => s.(flights := s.flights - {n})
    case Flush => s.(stop := Flushing(s.stop.batch, s.stop.next + 1, Trying(1)))
  }

  function EventOf(s: Sys, a: Actor): StatusEvent
    requires Busy(s, a) && TicketOf(s, a) < |s.accepted|
  {
    s.accepted[TicketOf(s, a)]
  }

  // ---- Steps ----

  ghost predicate Enabled(s: Sys, act: Action) {
    match act
    case Handle(_) => true
    case Enqueue(n) => n in s.handoff && n < |s.accepted|
    case Tick(_) => true
    case Fire(t) => t in s.deb.armed && s.deb.armed[t].due <= s.deb.now
    case RunCallback(t) => t in s.deb.fired
    case Publish(a, _) => Busy(s, a) && PhaseOf(s, a).Trying?
    case Retry(a) => Busy(s, a) && PhaseOf(s, a).Waiting?
    case GiveUp(a) => Busy(s, a) && PhaseOf(s, a).Waiting?
    case Note(a) => Busy(s, a) && PhaseOf(s, a).Acked? && TicketOf(s, a) < |s.accepted|
    case Finish(a) => Busy(s, a) && (PhaseOf(s, a).Noted? || PhaseOf(s, a).Abandoned?)
    case StopBegin(order) => s.stop.Running? && D.Enumerates(order, s.deb.entries.Keys)
    case StopReturn => s.stop.Flushing? && s.stop.next == |s.stop.batch| && s.deb.wg == 0
  }

  function HandleNext(s: Sys, e: StatusEvent): Sys {
    if Admits(s.mon, e) then
      s.(mon := Accept(s.mon, e), accepted := s.accepted + [e], whose := s.whose + [|s.accepted|],
         handoff := s.handoff + multiset{|s.accepted|})
    else s
  }

  function EnqueueNext(s: Sys, n: nat): Sys
    requires n < |s.accepted|
  {
    var id := s.accepted[n].instanceID;
    var s' := s.(handoff := s.handoff - multiset{n}, deb := D.Submit(s.deb, id, n));
    if s.deb.stopped then s'.(dropped := s.dropped + multiset{n})
    else if id in s.deb.entries then s'.(superseded := s.superseded + multiset{s.deb.entries[id].pending})
    else s'
  }

  function CallbackNext(s: Sys, t: nat): Sys
    requires t in s.deb.fired
  {
    var s' := s.(deb := D.Callback(s.deb, t));
    if D.Claims(s.deb, t) then
      s'.(flights := s.flights[s.deb.entries[s.deb.fired[t].id].pending := Trying(1)])
    else s'
  }

  function PublishNext(s: Sys, a: Actor, ok: bool): Sys
    requires Busy(s, a) && PhaseOf(s, a).Trying?
  {
    var k := PhaseOf(s, a).attempt;
    if ok then Moved(s, a, Acked).(wire := s.wire + [TicketOf(s, a)])
    else Moved(s, a, if k < s.maxAttempts then Waiting(k) else Abandoned)
  }

  function NoteNext(s: Sys, a: Actor): Sys
    requires Busy(s, a) && TicketOf(s, a) < |s.accepted|
  {
    Moved(s, a, Noted).(mon := Record(s.mon, EventOf(s, a)), whose := s.whose + [TicketOf(s, a)])
  }

  function FinishNext(s: Sys, a: Actor): Sys
    requires Busy(s, a)
  {
    var s' := Left(s, a).(deb := D.Done(s.deb));
    if PhaseOf(s, a).Noted? then s'.(delivered := s.delivered + multiset{TicketOf(s, a)})
    else s'.(abandoned := s.abandoned + multiset{TicketOf(s, a)})
  }

  ghost function StopNext(s: Sys, order: seq<string>): Sys
    requires forall k :: k in order ==> k in s.deb.entries
  {
    var batch := seq(|order|, i requires 0 <= i < |order| => s.deb.entries[order[i]].pending);
    s.(deb := D.Stop(s.deb, order), stop := Flushing(batch, 0, Trying(1)))
  }

  ghost function Next(s: Sys, act: Action): Sys
    requires Enabled(s, act)
  {
    match act
    case Handle(e) => HandleNext(s, e)
    case Enqueue(n) => EnqueueNext(s, n)
    case Tick(dt) => s.(deb := D.Tick(s.deb, dt))
    case Fire(t) => s.(deb := D.Fire(s.deb, t))
    case RunCallback(t) => CallbackNext(s, t)
    case Publish(a, ok) => PublishNext(s, a, ok)
    case Retry(a) => Moved(s, a, Trying(PhaseOf(s, a).attempt + 1))
    case GiveUp(a) => Moved(s, a, Abandoned)
    case Note(a) => NoteNext(s, a)
    case Finish(a) => FinishNext(s, a)
    case StopBegin(order) => StopNext(s, order)
    case StopReturn => s.(stop := Returned(s.stop.batch))
  }

  // ---- Runs ----

  ghost predicate Legal(s: Sys, acts: seq<Action>)
    decreases |acts|
  {
    acts == [] || (Enabled(s, acts[0]) && Legal(Next(s, acts[0]), acts[1..]))
  }

  ghost function Run(s: Sys, acts: seq<Action>): Sys
    requires Legal(s, acts)
    decreases |acts|
  {
    if acts == [] then s else Run(Next(s, acts[0]), acts[1..])
  }

  lemma RunCons(s: Sys, act: Action, rest: seq<Action>)
    requires Enabled(s, act) && Legal(Next(s, act), rest)
    ensures Legal(s, [act] + rest) && Run(s, [act] + rest) == Run(Next(s, act), rest)
  {
    assert ([act] + rest)[0] == act && ([act] + rest)[1..] == rest;
  }

  lemma {:induction false} RunSplits(s: Sys, front: seq<Action>, back: seq<Action>)
    requires Legal(s, front + back)
    ensures Legal(s, front) && Legal(Run(s, front), back)
    ensures Run(s, front + back) == Run(Run(s, front), back)
    decreases |front|
  {
    if front == [] {
      assert front + back == back;
    } else {
      assert (front + back)[0] == front[0] && (front + back)[1..] == front[1..] + back;
      RunSplits(Next(s, front[0]), front[1..], back);
    }
  }

  lemma {:induction false} RunJoins(s: Sys, front: seq<Action>, back: seq<Action>)
    requires Legal(s, front) && Legal(Run(s, front), back)
    ensures Legal(s, front + back) && Run(s, front + back) == Run(Run(s, front), back)
    decreases |front|
  {
    if front == [] {
      assert front + back == back;
    } else {
      assert (front + back)[0] == front[0] && (front + back)[1..] == front[1..] + back;
      RunJoins(Next(s, front[0]), front[1..], back);
    }
  }
}
