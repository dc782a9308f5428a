/**
 The per-instance debouncer as a state machine over its critical sections.

 Every section that the program runs under the debouncer's mutex is one function on
 `DState`; the clock and the runtime's timers, which act without that mutex, are steps of
 their own. A submission is named by its position in `subs`, and the timer it arms bears
 the same name. `subs`, `claims` and the `born` marks are history: no step reads them to
 decide anything.
 */
module Debounce {

  // Versions are machine words: a callback compares them modulo 2^64.
  const VERSION_SPACE: nat := 0x1_0000_0000_0000_0000

  function Word(count: nat): (w: nat)
    ensures w < VERSION_SPACE && (count < VERSION_SPACE ==> w == count)
  {
    count % VERSION_SPACE
  }

  predicate SameVersion(a: nat, b: nat) {
    Word(a) == Word(b)
  }

  // Incrementing the machine word keeps it in step with the count.
  lemma WordSteps(count: nat)
    ensures Word(count + 1) == if Word(count) + 1 == VERSION_SPACE then 0 else Word(count) + 1
  {
    var q := count / VERSION_SPACE;
    assert count == q * VERSION_SPACE + Word(count);
    if Word(count) + 1 == VERSION_SPACE {
      assert count + 1 == (q + 1) * VERSION_SPACE;
    } else {
      assert count + 1 == q * VERSION_SPACE + (Word(count) + 1);
    }
  }

  // `ver` counts the submissions since the entry was created; `born` is its first submission.
  datatype Entry<E> = Entry(pending: E, ver: nat, timer: nat, born: nat)

  datatype Timer = Timer(id: string, ver: nat, born: nat, due: int)

  datatype Submission<E> = Submission(id: string, event: E, at: int)

  // One event taken out of the map, by a callback or by the final flush: `sub` is its
  // submission and `seen` counts the submissions made before it was taken.
  datatype Claim<E> = Claim(id: string, event: E, sub: nat, seen: nat)

  datatype DState<E> = DState(
    interval: int,
    now: int,
    entries: map<string, Entry<E>>,
    armed: map<nat, Timer>,
    fired: map<nat, Timer>,
    stopped: bool,
    wg: int,
    subs: seq<Submission<E>>,
    claims: seq<Claim<E>>)

  function Init<E>(interval: int): DState<E> {
    DState(interval, 0, map[], map[], map[], false, 0, [], [])
  }

  // ---- The critical sections and the runtime's steps ----

  function Submit<E>(d: DState<E>, id: string, event: E): DState<E> {
    if d.stopped then d
    else
      var n := |d.subs|;
      var known := id in d.entries;
      var ver := if known then d.entries[id].ver + 1 else 1;
      var born := if known then d.entries[id].born else n;
      var armed := if known then d.armed - {d.entries[id].timer} else d.armed;
      d.(entries := d.entries[id := Entry(event, ver, n, born)],
         armed := armed[n := Timer(id, ver, born, d.now + d.interval)],
         subs := d.subs + [Submission(id, event, d.now)])
  }

  function Tick<E>(d: DState<E>, dt: nat): DState<E> {
    d.(now := d.now + dt)
  }

  // The runtime starts a callback; from here on Timer.Stop no longer has an effect on it.
  function Fire<E>(d: DState<E>, t: nat): DState<E>
    requires t in d.armed
  {
    d.(armed := d.armed - {t}, fired := d.fired[t := d.armed[t]])
  }

  predicate Claims<E>(d: DState<E>, t: nat)
    requires t in d.fired
  {
    && !d.stopped
    && d.fired[t].id in d.entries
    && SameVersion(d.entries[d.fired[t].id].ver, d.fired[t].ver)
  }

  // The locked half of a timer callback.
  function Callback<E>(d: DState<E>, t: nat): DState<E>
    requires t in d.fired
  {
    var id := d.fired[t].id;
    if Claims(d, t) then
      var en := d.entries[id];
      d.(fired := d.fired - {t},
         entries := d.entries - {id},
         wg := d.wg + 1,
         claims := d.claims + [Claim(id, en.pending, en.timer, |d.subs|)])
    else
      d.(fired := d.fired - {t})
  }

  function Done<E>(d: DState<E>): DState<E> {
    d.(wg := d.wg - 1)
  }

  // An order in which a loop over a Go map may meet its keys.
  ghost predicate Enumerates(order: seq<string>, keys: set<string>) {
    && (forall i, j :: 0 <= i < j < |order| ==> order[i] != order[j])
    && (forall k :: k in order <==> k in keys)
  }

  function Handles<E>(entries: map<string, Entry<E>>): set<nat> {
    set id | id in entries :: entries[id].timer
  }

  // The locked half of Stop: every pending event is set aside for the flush, in `order`.
  ghost function Stop<E>(d: DState<E>, order: seq<string>): DState<E>
    requires forall k :: k in order ==> k in d.entries
  {
    d.(stopped := true,
       entries := map[],
       armed := d.armed - Handles(d.entries),
       wg := d.wg + |order|,
       claims := d.claims + FlushClaims(d, order))
  }

  ghost function FlushClaims<E>(d: DState<E>, order: seq<string>): seq<Claim<E>>
    requires forall k :: k in order ==> k in d.entries
  {
    seq(|order|, i requires 0 <= i < |order| =>
      var en := d.entries[order[i]]; Claim(order[i], en.pending, en.timer, |d.subs|))
  }

  // ---- What every step keeps ----

  predicate Live<E>(d: DState<E>, t: nat) {
    t in d.armed || t in d.fired
  }

  function TimerOf<E>(d: DState<E>, t: nat): Timer
    requires Live(d, t)
  {
    if t in d.armed then d.armed[t] else d.fired[t]
  }

  // Each unrun timer belongs to its submission, and within one lifetime of an entry only
  // the newest submission's timer bears the entry's version.
  ghost predicate TimerOk<E>(d: DState<E>, t: nat)
    requires Live(d, t)
  {
    var tm := TimerOf(d, t);
    && tm.born <= t < |d.subs|
    && tm.id == d.subs[t].id
    && tm.due == d.subs[t].at + d.interval
    && (tm.id in d.entries && tm.born == d.entries[tm.id].born ==>
          && tm.ver <= d.entries[tm.id].ver
          && (tm.ver == d.entries[tm.id].ver ==> t == d.entries[tm.id].timer))
  }

  ghost predicate TimersOk<E>(d: DState<E>) {
    && d.armed.Keys !! d.fired.Keys
    && (forall t :: Live(d, t) ==> TimerOk(d, t))
    && (forall t :: t in d.fired ==> d.fired[t].due <= d.now)
  }

  // Each entry holds the newest submission of its instance, and that submission's timer
  // has not run yet.
  ghost predicate EntryOk<E>(d: DState<E>, id: string)
    requires id in d.entries
  {
    var en := d.entries[id];
    && en.born <= en.timer < |d.subs|
    && d.subs[en.timer].id == id
    && d.subs[en.timer].event == en.pending
    && (forall m :: en.timer < m < |d.subs| ==> d.subs[m].id != id)
    && Live(d, en.timer)
    && TimerOf(d, en.timer).id == id
    && TimerOf(d, en.timer).ver == en.ver
    && TimerOf(d, en.timer).born == en.born
  }

  ghost predicate EntriesOk<E>(d: DState<E>) {
    && (forall id :: id in d.entries ==> EntryOk(d, id))
    && (d.stopped ==> d.entries == map[])
  }

  // Each claim took the newest submission of its instance at that moment.
  ghost predicate ClaimOk<E>(d: DState<E>, c: Claim<E>) {
    && c.sub < c.seen <= |d.subs|
    && d.subs[c.sub].id == c.id
    && d.subs[c.sub].event == c.event
    && (forall m :: c.sub < m < c.seen ==> d.subs[m].id != c.id)
  }

  ghost predicate ClaimsOk<E>(d: DState<E>) {
    && (forall k :: 0 <= k < |d.claims| ==> ClaimOk(d, d.claims[k]))
    && (forall j, k :: 0 <= j < k < |d.claims| && d.claims[j].id == d.claims[k].id ==>
          d.claims[j].seen <= d.claims[k].sub)
    && (forall k :: 0 <= k < |d.claims| && d.claims[k].id in d.entries ==>
          d.claims[k].seen <= d.entries[d.claims[k].id].timer)
  }

  ghost predicate DInv<E>(d: DState<E>) {
    TimersOk(d) && EntriesOk(d) && ClaimsOk(d)
  }

  lemma InitKeeps<E>(interval: int)
    ensures DInv(Init<E>(interval))
  {
  }

  lemma SubmitKeepsTimers<E>(d: DState<E>, id: string, event: E)
    requires DInv(d) && !d.stopped
    ensures TimersOk(Submit(d, id, event))
  {
    var n, d' := |d.subs|, Submit(d, id, event);
    forall t | t in d.fired ensures t < n { assert Live(d, t) && TimerOk(d, t); }
    assert forall m :: 0 <= m < n ==> d'.subs[m] == d.subs[m];
    forall t | Live(d', t) ensures TimerOk(d', t) {
      if t != n {
        assert Live(d, t) && TimerOk(d, t);
        assert TimerOf(d', t) == TimerOf(d, t);
      }
    }
  }

  lemma SubmitKeepsEntries<E>(d: DState<E>, id: string, event: E)
    requires DInv(d) && !d.stopped
    ensures EntriesOk(Submit(d, id, event))
  {
    var n, d' := |d.subs|, Submit(d, id, event);
    assert forall m :: 0 <= m < n ==> d'.subs[m] == d.subs[m];
    forall i | i in d'.entries ensures EntryOk(d', i) {
      if i != id {
        var t := d.entries[i].timer;
        assert EntryOk(d, i) && TimerOk(d, t);
        if id in d.entries { assert EntryOk(d, id); }
        assert Live(d', t) && TimerOf(d', t) == TimerOf(d, t);
      } else if id in d.entries {
        assert EntryOk(d, id);
      }
    }
  }

  lemma SubmitKeepsClaims<E>(d: DState<E>, id: string, event: E)
    requires DInv(d) && !d.stopped
    ensures ClaimsOk(Submit(d, id, event))
  {
    var d' := Submit(d, id, event);
    forall k | 0 <= k < |d'.claims| ensures ClaimOk(d', d'.claims[k]) {
      assert ClaimOk(d, d.claims[k]);
    }
  }

  lemma SubmitKeeps<E>(d: DState<E>, id: string, event: E)
    requires DInv(d)
    ensures DInv(Submit(d, id, event))
  {
    if !d.stopped {
      SubmitKeepsTimers(d, id, event);
      SubmitKeepsEntries(d, id, event);
      SubmitKeepsClaims(d, id, event);
    }
  }

  lemma TickKeeps<E>(d: DState<E>, dt: nat)
    requires DInv(d)
    ensures DInv(Tick(d, dt))
  {
    var d' := Tick(d, dt);
    forall t | Live(d', t) ensures TimerOk(d', t) { assert TimerOk(d, t); }
    forall i | i in d'.entries ensures EntryOk(d', i) { assert EntryOk(d, i); }
    forall k | 0 <= k < |d'.claims| ensures ClaimOk(d', d'.claims[k]) { assert ClaimOk(d, d.claims[k]); }
  }

  lemma FireKeeps<E>(d: DState<E>, t: nat)
    requires DInv(d) && t in d.armed && d.armed[t].due <= d.now
    ensures DInv(Fire(d, t))
  {
    var d' := Fire(d, t);
    forall u | Live(d', u) ensures TimerOk(d', u) { assert Live(d, u) && TimerOk(d, u); }
    forall i | i in d'.entries ensures EntryOk(d', i) { assert EntryOk(d, i); }
    forall k | 0 <= k < |d'.claims| ensures ClaimOk(d', d'.claims[k]) { assert ClaimOk(d, d.claims[k]); }
  }

  lemma CallbackKeepsTimers<E>(d: DState<E>, t: nat)
    requires DInv(d) && t in d.fired
    ensures TimersOk(Callback(d, t))
  {
    var d' := Callback(d, t);
    forall u | Live(d', u) ensures TimerOk(d', u) {
      assert Live(d, u) && TimerOk(d, u) && TimerOf(d', u) == TimerOf(d, u);
    }
  }

  // An entry that stays is not the one whose own timer has just run: that one matches.
  lemma CallbackKeepsEntries<E>(d: DState<E>, t: nat)
    requires DInv(d) && t in d.fired
    ensures EntriesOk(Callback(d, t))
  {
    var d' := Callback(d, t);
    forall i | i in d'.entries ensures EntryOk(d', i) {
      var u := d.entries[i].timer;
      assert EntryOk(d, i);
      assert u != t;
      assert Live(d', u) && TimerOf(d', u) == TimerOf(d, u);
    }
  }

  lemma CallbackKeepsClaims<E>(d: DState<E>, t: nat)
    requires DInv(d) && t in d.fired
    ensures ClaimsOk(Callback(d, t))
  {
    var d' := Callback(d, t);
    if Claims(d, t) { assert EntryOk(d, d.fired[t].id); }
    forall k | 0 <= k < |d'.claims| ensures ClaimOk(d', d'.claims[k]) {
      if k < |d.claims| {
        assert d'.claims[k] == d.claims[k] && ClaimOk(d, d.claims[k]);
      }
    }
  }

  lemma CallbackKeeps<E>(d: DState<E>, t: nat)
    requires DInv(d) && t in d.fired
    ensures DInv(Callback(d, t))
  {
    CallbackKeepsTimers(d, t);
    CallbackKeepsEntries(d, t);
    CallbackKeepsClaims(d, t);
  }

  lemma FlushedClaim<E>(d: DState<E>, order: seq<string>, k: nat)
    requires DInv(d) && Enumerates(order, d.entries.Keys) && |d.claims| <= k < |d.claims| + |order|
    ensures var c := Stop(d, order).claims[k];
            && c.id == order[k - |d.claims|] && ClaimOk(d, c)
            && c.sub == d.entries[c.id].timer && c.seen == |d.subs|
  {
    assert EntryOk(d, order[k - |d.claims|]);
  }

  lemma StopKeepsClaims<E>(d: DState<E>, order: seq<string>)
    requires DInv(d) && Enumerates(order, d.entries.Keys)
    ensures ClaimsOk(Stop(d, order))
  {
    var d' := Stop(d, order);
    var base := |d.claims|;
    forall k | 0 <= k < |d'.claims| ensures ClaimOk(d', d'.claims[k]) {
      if k < base {
        assert d'.claims[k] == d.claims[k] && ClaimOk(d, d.claims[k]);
      } else {
        FlushedClaim(d, order, k);
      }
    }
    forall j, k | 0 <= j < k < |d'.claims| && d'.claims[j].id == d'.claims[k].id
      ensures d'.claims[j].seen <= d'.claims[k].sub
    {
      if base <= k {
        FlushedClaim(d, order, k);
        assert j < base;
      }
    }
  }

  lemma StopKeeps<E>(d: DState<E>, order: seq<string>)
    requires DInv(d) && Enumerates(order, d.entries.Keys)
    ensures DInv(Stop(d, order))
  {
    var d' := Stop(d, order);
    StopKeepsClaims(d, order);
    forall u | Live(d', u) ensures TimerOk(d', u) { assert Live(d, u) && TimerOk(d, u); }
  }

  lemma DoneKeeps<E>(d: DState<E>)
    requires DInv(d)
    ensures DInv(Done(d))
  {
    var d' := Done(d);
    forall t | Live(d', t) ensures TimerOk(d', t) { assert TimerOk(d, t); }
    forall i | i in d'.entries ensures EntryOk(d', i) { assert EntryOk(d, i); }
    forall k | 0 <= k < |d'.claims| ensures ClaimOk(d', d'.claims[k]) { assert ClaimOk(d, d.claims[k]); }
  }
}
