/**
 The Debouncer object. Its fields are updated in place; each critical section is a method,
 and its contract is the step of the state machine in `Debounce` that it carries out. The
 clock and the runtime's timers are ghost: the program only holds handles to them.
 */
module DebouncerObject {
  import opened Events
  import D = Debounce

  ghost function HandlesOf<E>(entries: map<string, D.Entry<E>>, ids: set<string>): set<nat> {
    set id | id in ids && id in entries :: entries[id].timer
  }

  lemma OneMoreKey<E>(entries: map<string, D.Entry<E>>, order: seq<string>, gone: set<string>, id: string)
    requires D.Enumerates(order, gone) && id !in gone && id in entries
    ensures D.Enumerates(order + [id], gone + {id})
    ensures HandlesOf(entries, gone + {id}) == HandlesOf(entries, gone) + {entries[id].timer}
  {
  }

  lemma MinusTwice<K, V>(m: map<K, V>, a: set<K>, k: K)
    ensures m - a - {k} == m - (a + {k})
  {
  }

  class InstanceState<E> {
    var timer: Option<nat>
    var pending: E
    var ver: nat

    constructor (event: E)
      ensures timer == None && pending == event && ver == 0
    {
      timer, pending, ver := None, event, 0;
    }

    // A newer event takes the place of the pending one; the version is a machine word.
    method Replace(event: E)
      modifies this`pending, this`ver
      ensures pending == event
      ensures ver == if old(ver) + 1 == D.VERSION_SPACE then 0 else old(ver) + 1
    {
      pending := event;
      ver := if ver + 1 == D.VERSION_SPACE then 0 else ver + 1;
    }

    // What the entry of the state machine says about this object.
    ghost predicate Shows(en: D.Entry<E>)
      reads this
    {
      timer == Some(en.timer) && pending == en.pending && ver == D.Word(en.ver)
    }
  }

  class Debouncer<E> {
    const interval: int
    var instances: map<string, InstanceState<E>>
    var stopped: bool
    var wg: int
    var handles: nat
    ghost var entries: map<string, D.Entry<E>>
    ghost var now: int
    ghost var armed: map<nat, D.Timer>
    ghost var fired: map<nat, D.Timer>
    ghost var subs: seq<D.Submission<E>>
    ghost var claims: seq<D.Claim<E>>

    ghost function States(): set<InstanceState<E>>
      reads this
    {
      set id | id in instances :: instances[id]
    }

    ghost predicate Valid()
      reads this, States()
    {
      && handles == |subs|
      && instances.Keys == entries.Keys
      && (forall i, j :: i in instances && j in instances && i != j ==> instances[i] != instances[j])
      && (forall id :: id in instances ==> instances[id].Shows(entries[id]))
    }

    ghost function Abs(): D.DState<E>
      reads this
    {
      D.DState(interval, now, entries, armed, fired, stopped, wg, subs, claims)
    }

    constructor (interval: int)
      ensures Valid() && Abs() == D.Init(interval) && States() == {}
    {
      this.interval := interval;
      instances, stopped, wg, handles := map[], false, 0, 0;
      entries, now, armed, fired, subs, claims := map[], 0, map[], map[], [], [];
    }

    // time.AfterFunc for the newest submission of an instance.
    method AfterFunc(id: string, ghost ver: nat, ghost born: nat) returns (handle: nat)
      modifies this`handles, this`armed
      ensures handle == old(handles) && handles == old(handles) + 1
      ensures armed == old(armed)[handle := D.Timer(id, ver, born, now + interval)]
    {
      handle := handles;
      handles := handles + 1;
      armed := armed[handle := D.Timer(id, ver, born, now + interval)];
    }

    // Stops the timer the state holds, if any, and gives it a new one.
    method Rearm(id: string, state: InstanceState<E>, ghost ver: nat, ghost born: nat)
      modifies this`handles, this`armed, state`timer
      ensures state.timer == Some(old(handles)) && handles == old(handles) + 1
      ensures armed == (if old(state.timer).Some? then old(armed) - {old(state.timer).value} else old(armed))
                       [old(handles) := D.Timer(id, ver, born, now + interval)]
    {
      if state.timer.Some? {
        armed := armed - {state.timer.value};
      }
      var handle := AfterFunc(id, ver, born);
      state.timer := Some(handle);
    }

    // The instance's state, created if this is its first event since the last claim.
    method StateFor(id: string, event: E) returns (state: InstanceState<E>)
      modifies this`instances
      ensures instances == old(instances)[id := state]
      ensures if id in old(instances) then state == old(instances)[id]
              else fresh(state) && state.timer == None && state.ver == 0
    {
      if id in instances {
        state := instances[id];
      } else {
        state := new InstanceState(event);
        instances := instances[id := state];
      }
    }

    // The event, its version and its timer replace what the state held.
    method Renew(id: string, event: E, state: InstanceState<E>) returns (ghost en: D.Entry<E>)
      requires handles == |subs| && !stopped
      requires id in entries ==> state.Shows(entries[id])
      requires id !in entries ==> state.timer == None && state.ver == 0
      modifies this`handles, this`armed, this`subs, state
      ensures state.Shows(en) && en == D.Submit(old(Abs()), id, event).entries[id]
      ensures handles == |subs|
      ensures Abs() == D.Submit(old(Abs()), id, event).(entries := entries)
    {
      ghost var ver := if id in entries then entries[id].ver + 1 else 1;
      ghost var born := if id in entries then entries[id].born else |subs|;
      D.WordSteps(ver - 1);
      state.Replace(event);
      Rearm(id, state, ver, born);
      subs := subs + [D.Submission(id, event, now)];
      en := D.Entry(event, ver, |subs| - 1, born);
    }

    method Hold(id: string, event: E, state: InstanceState<E>)
      requires handles == |subs| && !stopped
      requires instances.Keys == entries.Keys + {id} && instances[id] == state
      requires forall i, j :: i in instances && j in instances && i != j ==> instances[i] != instances[j]
      requires forall i :: i in entries ==> instances[i].Shows(entries[i])
      requires id !in entries ==> state.timer == None && state.ver == 0
      modifies this`handles, this`armed, this`subs, this`entries, state
      ensures Valid() && Abs() == D.Submit(old(Abs()), id, event)
    {
      ghost var en := Renew(id, event, state);
      forall i | i in instances && i != id ensures instances[i].Shows(entries[i]) {
        assert instances[i] != state && unchanged(instances[i]);
      }
      entries := entries[id := en];
    }

    method Submit(id: string, event: E)
      requires Valid()
      modifies this, States()
      ensures Valid() && fresh(States() - old(States()))
      ensures Abs() == D.Submit(old(Abs()), id, event)
    {
      if !stopped {
        var state := StateFor(id, event);
        Hold(id, event, state);
      }
    }

    // The locked half of the callback of timer `t`, which captured `id` and `ver`.
    method Callback(ghost t: nat, id: string, ver: nat) returns (latest: Option<E>)
      requires Valid()
      requires t in fired && fired[t].id == id && D.Word(fired[t].ver) == ver
      modifies this
      ensures Valid() && States() <= old(States())
      ensures Abs() == D.Callback(old(Abs()), t)
      ensures latest == if old(D.Claims(Abs(), t)) then Some(old(Abs()).entries[id].pending) else None
    {
      fired := fired - {t};
      if stopped { return None; }
      if id !in instances || instances[id].ver != ver { return None; }
      var cur := instances[id];
      latest := Some(cur.pending);
      claims := claims + [D.Claim(id, cur.pending, cur.timer.value, |subs|)];
      instances, entries := instances - {id}, entries - {id};
      wg := wg + 1;
    }

    method Done()
      requires Valid()
      modifies this`wg
      ensures Valid() && Abs() == D.Done(old(Abs()))
    {
      wg := wg - 1;
    }

    // The runtime: time passes, and a timer that is due starts its callback.
    ghost method Advance(dt: nat)
      requires Valid()
      modifies this`now
      ensures Valid() && Abs() == D.Tick(old(Abs()), dt)
    {
      now := now + dt;
    }

    ghost method Expire(t: nat)
      requires Valid() && t in armed && armed[t].due <= now
      modifies this`armed, this`fired
      ensures Valid() && Abs() == D.Fire(old(Abs()), t)
    {
      fired := fired[t := armed[t]];
      armed := armed - {t};
    }

    // The loop of Stop: timers are stopped, events set aside and entries deleted, in whatever
    // order the loop meets the keys of the map.
    method TakeAll() returns (toFlush: seq<E>, ghost order: seq<string>)
      requires Valid()
      modifies this`instances, this`armed
      ensures instances == map[] && armed == old(armed) - D.Handles(entries)
      ensures D.Enumerates(order, entries.Keys) && |toFlush| == |order|
      ensures forall i :: 0 <= i < |order| ==> toFlush[i] == entries[order[i]].pending
    {
      ghost var instances0, armed0 := instances, armed;
      ghost var gone: set<string> := {};
      toFlush, order := [], [];
      while instances != map[]
        invariant gone <= instances0.Keys && instances == instances0 - gone
        invariant D.Enumerates(order, gone)
        invariant armed == armed0 - HandlesOf(entries, gone)
        invariant |toFlush| == |order|
        invariant forall i :: 0 <= i < |order| ==> toFlush[i] == entries[order[i]].pending
        decreases instances.Keys
      {
        var id :| id in instances;
        var state := instances[id];
        assert state.Shows(entries[id]);
        if state.timer.Some? {
          armed := armed - {state.timer.value};
        }
        OneMoreKey(entries, order, gone, id);
        MinusTwice(armed0, HandlesOf(entries, gone), entries[id].timer);
        MinusTwice(instances0, gone, id);
        toFlush, order, gone := toFlush + [state.pending], order + [id], gone + {id};
        instances := instances - {id};
      }
      assert instances0.Keys - gone == (instances0 - gone).Keys == {};
      assert HandlesOf(entries, gone) == D.Handles(entries);
    }

    // The locked half of Stop.
    method StopLocked() returns (toFlush: seq<E>, ghost order: seq<string>)
      requires Valid()
      modifies this
      ensures Valid() && States() == {}
      ensures D.Enumerates(order, old(Abs()).entries.Keys)
      ensures Abs() == D.Stop(old(Abs()), order)
      ensures |toFlush| == |order|
      ensures forall i :: 0 <= i < |order| ==> toFlush[i] == old(Abs()).entries[order[i]].pending
    {
      ghost var d0 := Abs();
      stopped := true;
      toFlush, order := TakeAll();
      entries := map[];
      wg := wg + |toFlush|;
      claims := claims + D.FlushClaims(d0, order);
    }

    // Stop up to its wait: it hands each pending event to publishFn once, one after the other,
    // and is left with the publications that were under way before.
    method Stop() returns (published: seq<E>, ghost order: seq<string>)
      requires Valid()
      modifies this
      ensures Valid() && stopped && wg == old(wg) && instances == map[]
      ensures D.Enumerates(order, old(Abs()).entries.Keys)
      ensures |published| == |order|
      ensures forall i :: 0 <= i < |order| ==> published[i] == old(Abs()).entries[order[i]].pending
    {
      var toFlush: seq<E>;
      toFlush, order := StopLocked();
      published := [];
      for i := 0 to |toFlush|
        invariant Valid() && stopped && instances == map[]
        invariant published == toFlush[..i] && wg == old(wg) + |toFlush| - i
      {
        published := published + [toFlush[i]];
        Done();
      }
    }
  }
}
