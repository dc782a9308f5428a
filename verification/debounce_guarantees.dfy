/** What the debouncer's invariants mean for its callers. */
module DebounceGuarantees {
  import opened Debounce

  // The callback captured the version in the same lifetime that the entry is in now.
  predicate SameLife<E>(d: DState<E>, t: nat)
    requires t in d.fired && d.fired[t].id in d.entries
  {
    d.fired[t].born == d.entries[d.fired[t].id].born
  }

  // A callback that claims is the newest submission's own exactly when it was armed in the
  // entry's present lifetime with the version counted now; of the same lifetime, it can only
  // be another's if 2^64 submissions came in between. An own callback always finds the quiet
  // window elapsed.
  lemma OwnCallbackIffSameLife<E>(d: DState<E>, t: nat)
    requires DInv(d) && t in d.fired && Claims(d, t)
    ensures var en := d.entries[d.fired[t].id];
            && (en.timer == t <==> SameLife(d, t) && d.fired[t].ver == en.ver)
            && (SameLife(d, t) && d.fired[t].ver != en.ver ==> en.ver >= d.fired[t].ver + VERSION_SPACE)
            && (en.timer == t ==> d.now >= d.subs[t].at + d.interval)
  {
    var id := d.fired[t].id;
    assert Live(d, t) && TimerOk(d, t);
    assert EntryOk(d, id);
    if SameLife(d, t) && d.fired[t].ver != d.entries[id].ver {
      SameWordFarApart(d.fired[t].ver, d.entries[id].ver);
    }
  }

  lemma SameWordFarApart(a: nat, b: nat)
    requires a < b && SameVersion(a, b)
    ensures b >= a + VERSION_SPACE
  {
    assert a == a / VERSION_SPACE * VERSION_SPACE + Word(a);
    assert b == b / VERSION_SPACE * VERSION_SPACE + Word(b);
  }

  // Hence, when no unrun callback outlives the entry it was armed for, every claim takes an
  // event that has been left alone for a whole interval.
  lemma QuietWindow<E>(d: DState<E>, t: nat)
    requires DInv(d) && t in d.fired && Claims(d, t)
    requires d.entries[d.fired[t].id].ver < d.fired[t].ver + VERSION_SPACE
    requires SameLife(d, t)
    ensures var c := Callback(d, t).claims[|d.claims|];
            && c.sub == t
            && c.event == d.subs[t].event
            && d.now >= d.subs[t].at + d.interval
            && forall m :: t < m < |d.subs| ==> d.subs[m].id != d.subs[t].id
  {
    OwnCallbackIffSameLife(d, t);
    assert Live(d, t) && TimerOk(d, t);
    assert EntryOk(d, d.fired[t].id);
  }

  // A submission left alone until its timer's callback has started.
  function Ripened(d: DState<nat>, id: string, event: nat): DState<nat>
    requires !d.stopped && d.interval > 0
  {
    Fire(Tick(Submit(d, id, event), d.interval), |d.subs|)
  }

  lemma RipenedKeeps(d: DState<nat>, id: string, event: nat)
    requires DInv(d) && !d.stopped && d.interval > 0
    ensures DInv(Ripened(d, id, event))
  {
    SubmitKeeps(d, id, event);
    TickKeeps(Submit(d, id, event), d.interval);
    FireKeeps(Tick(Submit(d, id, event), d.interval), |d.subs|);
  }

  // Without that proviso the window can be cut short: versions restart when an entry is
  // recreated, so a callback left over from an earlier lifetime takes the third submission
  // in the very instant it is made, and its own timer stays behind.
  lemma StaleCallbackCutsWindow(interval: int, id: string)
    requires interval > 0
    ensures
      var d2 := Ripened(Ripened(Init<nat>(interval), id, 10), id, 11);
      var d3 := Submit(Callback(d2, 1), id, 12);
      && DInv(d3) && 0 in d3.fired && Claims(d3, 0) && !SameLife(d3, 0)
      && Callback(d3, 0).claims[1].event == 12
      && d3.now == d3.subs[2].at
      && 2 in Callback(d3, 0).armed && id !in Callback(d3, 0).entries
  {
    var d0 := Init<nat>(interval);
    InitKeeps<nat>(interval);
    RipenedKeeps(d0, id, 10);
    RipenedKeeps(Ripened(d0, id, 10), id, 11);
    var d2 := Ripened(Ripened(d0, id, 10), id, 11);
    CallbackKeeps(d2, 1);
    SubmitKeeps(Callback(d2, 1), id, 12);
  }

  // While running, every pending event has a timer of its own that will claim it.
  lemma NoOrphan<E>(d: DState<E>, id: string)
    requires DInv(d) && id in d.entries
    ensures var t := d.entries[id].timer;
            && Live(d, t)
            && (t in d.fired ==> Claims(d, t) && id !in Callback(d, t).entries)
            && (t in d.armed && d.armed[t].due <= d.now ==>
                  t in Fire(d, t).fired && Claims(Fire(d, t), t))
  {
    assert EntryOk(d, id);
  }

  // What an instance hands out is a subsequence of what was submitted for it, each claim
  // newer than the one before and the newest submission of its moment.
  lemma ClaimOrder<E>(d: DState<E>, j: nat, k: nat)
    requires DInv(d) && j < k < |d.claims| && d.claims[j].id == d.claims[k].id
    ensures d.claims[j].sub < d.claims[j].seen <= d.claims[k].sub < d.claims[k].seen <= |d.subs|
    ensures forall c :: c in [d.claims[j], d.claims[k]] ==>
              && d.subs[c.sub] == Submission(c.id, c.event, d.subs[c.sub].at)
              && forall m :: c.sub < m < c.seen ==> d.subs[m].id != c.id
  {
    assert ClaimOk(d, d.claims[j]) && ClaimOk(d, d.claims[k]);
  }

  // What one instance sees of a step: its entry and the entry's own timer.
  ghost predicate Untouched<E>(d: DState<E>, d': DState<E>, other: string) {
    && (other in d'.entries <==> other in d.entries)
    && (other in d.entries ==>
          && d'.entries[other] == d.entries[other]
          && Live(d, d.entries[other].timer) && Live(d', d.entries[other].timer)
          && TimerOf(d', d.entries[other].timer) == TimerOf(d, d.entries[other].timer))
  }

  // A submission for one instance leaves every other instance's entry and timer as they are.
  lemma SubmitIsolation<E>(d: DState<E>, id: string, event: E, other: string)
    requires DInv(d) && other != id
    ensures Untouched(d, Submit(d, id, event), other)
  {
    if other in d.entries { assert EntryOk(d, other); }
    if id in d.entries { assert EntryOk(d, id); }
  }

  // So does a callback, claiming or stale.
  lemma CallbackIsolation<E>(d: DState<E>, t: nat, other: string)
    requires DInv(d) && t in d.fired && other != d.fired[t].id
    ensures Untouched(d, Callback(d, t), other)
  {
    if other in d.entries { assert EntryOk(d, other); }
    assert Live(d, t) && TimerOk(d, t);
  }
}
