/** When the quiet window of an entry can be cut short: the exact condition on the state. */
module CutWindow {
  import opened Debounce
  import opened DebounceGuarantees

  datatype Step<E> = Submits(id: string, event: E) | Ticks(dt: nat) | Fires(t: nat) | Runs(t: nat)

  // Possible, and not a claim of this instance's entry.
  predicate Leaves<E>(d: DState<E>, step: Step<E>, id: string) {
    match step
    case Submits(_, _) => true
    case Ticks(_) => true
    case Fires(t) => t in d.armed && d.armed[t].due <= d.now
    case Runs(t) => t in d.fired && !(Claims(d, t) && d.fired[t].id == id)
  }

  function After<E>(d: DState<E>, step: Step<E>, id: string): DState<E>
    requires Leaves(d, step, id)
  {
    match step
    case Submits(i, event) => Submit(d, i, event)
    case Ticks(dt) => Tick(d, dt)
    case Fires(t) => Fire(d, t)
    case Runs(t) => Callback(d, t)
  }

  // Steps that leave the entry unclaimed.
  ghost predicate AllLeave<E>(d: DState<E>, steps: seq<Step<E>>, id: string)
    decreases |steps|
  {
    steps == [] || (Leaves(d, steps[0], id) && AllLeave(After(d, steps[0], id), steps[1..], id))
  }

  ghost function AfterAll<E>(d: DState<E>, steps: seq<Step<E>>, id: string): DState<E>
    requires AllLeave(d, steps, id)
    decreases |steps|
  {
    if steps == [] then d else AfterAll(After(d, steps[0], id), steps[1..], id)
  }

  // The entry is there, and its versions and those of its instance's timers are told apart by
  // their words.
  ghost predicate Narrow<E>(d: DState<E>, id: string) {
    && !d.stopped && id in d.entries && d.entries[id].ver < VERSION_SPACE
    && forall t :: Live(d, t) && TimerOf(d, t).id == id ==> TimerOf(d, t).ver < VERSION_SPACE
  }

  // A callback claims the entry less than an interval after its newest submission.
  ghost predicate Cuts<E>(d: DState<E>, id: string, t: nat)
    requires DInv(d) && id in d.entries
  {
    assert EntryOk(d, id);
    && t in d.fired && d.fired[t].id == id && Claims(d, t)
    && d.now < d.subs[d.entries[id].timer].at + d.interval
  }

  // The next claim of the entry can be one that cuts the window, with fewer than 2^64
  // submissions for the entry until then.
  ghost predicate CanBeCut<E(!new)>(d: DState<E>, id: string) {
    exists steps: seq<Step<E>>, t: nat :: CutBy(d, steps, id, t)
  }

  ghost predicate CutBy<E>(d: DState<E>, steps: seq<Step<E>>, id: string, t: nat) {
    && AllLeave(d, steps, id)
    && var d' := AfterAll(d, steps, id); DInv(d') && Narrow(d', id) && Cuts(d', id, t)
  }

  // When the newest submission's own timer is due.
  ghost function OwnDue<E>(d: DState<E>, id: string): int
    requires DInv(d) && id in d.entries
  {
    assert EntryOk(d, id);
    d.subs[d.entries[id].timer].at + d.interval
  }

  function Later(a: int, b: int): int { if a >= b then a else b }

  // A timer left over from another lifetime is ahead of the entry's version, or equal to it
  // and able to run before the entry's own.
  ghost predicate Threatens<E>(d: DState<E>, id: string, t: nat)
    requires DInv(d) && id in d.entries
  {
    && Live(d, t) && TimerOf(d, t).id == id && TimerOf(d, t).born != d.entries[id].born
    && (|| (TimerOf(d, t).ver > d.entries[id].ver && d.interval > 0)
        || (TimerOf(d, t).ver == d.entries[id].ver && Later(d.now, TimerOf(d, t).due) < OwnDue(d, id)))
  }

  ghost predicate Threatened<E>(d: DState<E>, id: string)
    requires DInv(d) && id in d.entries
  {
    exists t: nat :: Threatens(d, id, t)
  }

  // ---- Without a threat there is no cut ----

  lemma CutIsThreat<E>(d: DState<E>, id: string, t: nat)
    requires DInv(d) && Narrow(d, id) && Cuts(d, id, t)
    ensures Threatens(d, id, t)
  {
    assert Live(d, t) && TimerOk(d, t) && EntryOk(d, id);
    OwnCallbackIffSameLife(d, t);
  }

  lemma AfterKeeps<E>(d: DState<E>, step: Step<E>, id: string)
    requires DInv(d) && Leaves(d, step, id)
    ensures DInv(After(d, step, id))
  {
    match step
    case Submits(i, event) => SubmitKeeps(d, i, event);
    case Ticks(dt) => TickKeeps(d, dt);
    case Fires(t) => FireKeeps(d, t);
    case Runs(t) => CallbackKeeps(d, t);
  }

  lemma SubmitNoThreat<E>(d: DState<E>, i: string, event: E, id: string, t: nat)
    requires DInv(d) && !d.stopped && id in d.entries && DInv(Submit(d, i, event))
    requires Threatens(Submit(d, i, event), id, t)
    ensures Threatens(d, id, t)
  {
    assert EntryOk(d, id);
    if i in d.entries { assert EntryOk(d, i); }
    if i != id { SubmitIsolation(d, i, event, id); }
    assert t != |d.subs|;
    assert Live(d, t) && TimerOf(Submit(d, i, event), t) == TimerOf(d, t);
  }

  lemma CallbackNoThreat<E>(d: DState<E>, u: nat, id: string, t: nat)
    requires DInv(d) && id in d.entries && Leaves(d, Runs(u), id) && DInv(Callback(d, u))
    requires id in Callback(d, u).entries && Threatens(Callback(d, u), id, t)
    ensures Threatens(d, id, t)
  {
    assert EntryOk(d, id);
  }

  // A step that leaves the entry unclaimed keeps it, and brings no threat.
  lemma StepNoThreat<E>(d: DState<E>, step: Step<E>, id: string, t: nat)
    requires DInv(d) && !d.stopped && id in d.entries && Leaves(d, step, id)
    ensures DInv(After(d, step, id)) && !After(d, step, id).stopped && id in After(d, step, id).entries
    ensures Threatens(After(d, step, id), id, t) ==> Threatens(d, id, t)
  {
    AfterKeeps(d, step, id);
    if Threatens(After(d, step, id), id, t) {
      match step
      case Submits(i, event) => SubmitNoThreat(d, i, event, id, t);
      case Ticks(_) =>
      case Fires(_) =>
      case Runs(u) => CallbackNoThreat(d, u, id, t);
    }
  }

  lemma {:induction false} CutWasThreat<E>(d: DState<E>, steps: seq<Step<E>>, id: string, t: nat)
    requires DInv(d) && !d.stopped && id in d.entries && CutBy(d, steps, id, t)
    ensures Threatens(d, id, t)
    decreases |steps|
  {
    if steps == [] {
      CutIsThreat(d, id, t);
    } else {
      StepNoThreat(d, steps[0], id, t);
      CutWasThreat(After(d, steps[0], id), steps[1..], id, t);
    }
  }

  // ---- A threat can be carried out ----

  lemma CutFirst<E>(d: DState<E>, step: Step<E>, steps: seq<Step<E>>, id: string, t: nat)
    requires Leaves(d, step, id) && CutBy(After(d, step, id), steps, id, t)
    ensures CutBy(d, [step] + steps, id, t)
  {
    assert ([step] + steps)[0] == step && ([step] + steps)[1..] == steps;
  }

  // The left-over callback has started: submit until the versions are equal.
  lemma {:induction false} CutByFired<E>(d: DState<E>, id: string, event: E, t: nat, ahead: nat)
    returns (steps: seq<Step<E>>)
    requires DInv(d) && Narrow(d, id) && t in d.fired && Threatens(d, id, t)
    requires ahead == d.fired[t].ver - d.entries[id].ver
    ensures CutBy(d, steps, id, t)
    decreases ahead
  {
    if ahead == 0 {
      steps := [];
    } else {
      SubmitKeeps(d, id, event);
      SubmitThreatens(d, id, event, t);
      var rest := CutByFired(Submit(d, id, event), id, event, t, ahead - 1);
      CutFirst(d, Submits(id, event), rest, id, t);
      steps := [Submits(id, event)] + rest;
    }
  }

  lemma SubmitThreatens<E>(d: DState<E>, id: string, event: E, t: nat)
    requires DInv(d) && Narrow(d, id) && t in d.fired && Threatens(d, id, t) && d.fired[t].ver > d.entries[id].ver
    requires DInv(Submit(d, id, event))
    ensures Narrow(Submit(d, id, event), id) && Threatens(Submit(d, id, event), id, t)
  {
    var d' := Submit(d, id, event);
    assert Live(d, t) && TimerOk(d, t) && EntryOk(d, id);
    forall u | Live(d', u) && TimerOf(d', u).id == id ensures TimerOf(d', u).ver < VERSION_SPACE {
      if u != |d.subs| { assert Live(d, u) && TimerOk(d, u) && TimerOf(d', u) == TimerOf(d, u); }
    }
  }

  // The left-over timer is still armed: wait for it first.
  lemma FireThreatens<E>(d: DState<E>, id: string, t: nat, dt: nat)
    requires DInv(d) && Narrow(d, id) && t in d.armed && Threatens(d, id, t)
    requires d.now + dt == Later(d.now, d.armed[t].due)
    ensures var d' := Fire(Tick(d, dt), t); DInv(d') && Narrow(d', id) && t in d'.fired && Threatens(d', id, t)
  {
    TickKeeps(d, dt);
    FireKeeps(Tick(d, dt), t);
    var d' := Fire(Tick(d, dt), t);
    forall u | Live(d', u) && TimerOf(d', u).id == id ensures TimerOf(d', u).ver < VERSION_SPACE {
      assert Live(d, u) && TimerOf(d', u) == TimerOf(d, u);
    }
  }

  lemma ThreatCuts<E>(d: DState<E>, id: string, t: nat) returns (steps: seq<Step<E>>)
    requires DInv(d) && Narrow(d, id) && Threatens(d, id, t)
    ensures CutBy(d, steps, id, t)
  {
    var event := d.entries[id].pending;
    if t in d.fired {
      steps := CutByFired(d, id, event, t, d.fired[t].ver - d.entries[id].ver);
    } else {
      var dt: nat := Later(d.now, d.armed[t].due) - d.now;
      FireThreatens(d, id, t, dt);
      var d1 := Tick(d, dt);
      var d2 := Fire(d1, t);
      var rest := CutByFired(d2, id, event, t, d2.fired[t].ver - d2.entries[id].ver);
      CutFirst(d1, Fires(t), rest, id, t);
      CutFirst(d, Ticks(dt), [Fires(t)] + rest, id, t);
      steps := [Ticks(dt)] + ([Fires(t)] + rest);
    }
  }

  // ---- The exact condition ----

  // The quiet window of an entry can be cut by its next claim, within fewer than 2^64
  // submissions, if and only if some unrun timer of the instance is left over from another
  // lifetime and is ahead of the entry's version, or equal to it and able to run before the
  // entry's own timer is due.
  lemma CutIffThreatened<E(!new)>(d: DState<E>, id: string)
    requires DInv(d) && Narrow(d, id)
    ensures CanBeCut(d, id) <==> Threatened(d, id)
  {
    if CanBeCut(d, id) {
      var steps: seq<Step<E>>, t: nat :| CutBy(d, steps, id, t);
      CutWasThreat(d, steps, id, t);
    }
    if Threatened(d, id) {
      var t: nat :| Threatens(d, id, t);
      var steps := ThreatCuts(d, id, t);
    }
  }
}
