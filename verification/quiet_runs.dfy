/** The quiet window over whole runs of the pipeline. */
module QuietRuns {
  import opened Pipeline
  import opened PipelineInvariants
  import opened PipelineSafety
  import opened DebounceGuarantees
  import D = Debounce

  // The step creates no entry while a callback of its instance has started and not run.
  ghost predicate Clear(s: Sys, act: Action)
    requires Enabled(s, act)
  {
    act.Enqueue? && s.accepted[act.ticket].instanceID !in s.deb.entries ==>
      forall t :: t in s.deb.fired ==> s.deb.fired[t].id != s.accepted[act.ticket].instanceID
  }

  ghost predicate ClearRun(s: Sys, acts: seq<Action>)
    requires Legal(s, acts)
    decreases |acts|
  {
    acts == [] || (Clear(s, acts[0]) && ClearRun(Next(s, acts[0]), acts[1..]))
  }

  // Armed timers belong to the entries they were armed for, and so do started callbacks that
  // find an entry.
  ghost predicate Tidy(d: D.DState<nat>) {
    && (forall t :: t in d.armed ==> d.armed[t].id in d.entries && d.entries[d.armed[t].id].timer == t)
    && (forall t :: t in d.fired && d.fired[t].id in d.entries ==> SameLife(d, t))
    && (forall id :: id in d.entries ==> d.entries[id].ver <= |d.subs|)
  }

  lemma SubmitTidy(d: D.DState<nat>, id: string, n: nat)
    requires D.DInv(d) && Tidy(d)
    requires id !in d.entries ==> forall t :: t in d.fired ==> d.fired[t].id != id
    ensures Tidy(D.Submit(d, id, n))
  {
    if !d.stopped {
      var d' := D.Submit(d, id, n);
      forall t | t in d'.armed ensures d'.armed[t].id in d'.entries && d'.entries[d'.armed[t].id].timer == t {
        if t != |d.subs| { assert D.Live(d, t) && D.TimerOk(d, t); }
      }
    }
  }

  lemma CallbackTidy(d: D.DState<nat>, t: nat)
    requires D.DInv(d) && Tidy(d) && t in d.fired && |d.subs| < D.VERSION_SPACE
    ensures Tidy(D.Callback(d, t))
  {
    if D.Claims(d, t) {
      OwnCallbackIffSameLife(d, t);
      forall u | u in d.armed ensures d.armed[u].id != d.fired[t].id { }
    }
  }

  lemma FireTidy(d: D.DState<nat>, t: nat)
    requires D.DInv(d) && Tidy(d) && t in d.armed
    ensures Tidy(D.Fire(d, t))
  {
    assert D.Live(d, t) && D.EntryOk(d, d.armed[t].id);
  }

  lemma StopTidy(d: D.DState<nat>, order: seq<string>)
    requires Tidy(d) && forall k :: k in order ==> k in d.entries
    ensures Tidy(D.Stop(d, order))
  {
    forall t | t in d.armed ensures t in D.Handles(d.entries) { assert d.armed[t].id in d.entries; }
  }

  predicate SameTimers(d: D.DState<nat>, d': D.DState<nat>) {
    d'.entries == d.entries && d'.armed == d.armed && d'.fired == d.fired && d'.subs == d.subs
  }

  lemma SameTimersTidy(d: D.DState<nat>, d': D.DState<nat>)
    requires Tidy(d) && SameTimers(d, d')
    ensures Tidy(d')
  {
  }

  lemma OtherwiseSame(s: Sys, act: Action)
    requires Enabled(s, act)
    requires !act.Enqueue? && !act.RunCallback? && !act.Fire? && !act.StopBegin?
    ensures SameTimers(s.deb, Next(s, act).deb)
  {
    match act
    case Tick(dt) => assert Next(s, act).deb == D.Tick(s.deb, dt);
    case Finish(a) => assert Next(s, act).deb == D.Done(s.deb);
    case Handle(e) => assert Next(s, act).deb == s.deb;
    case Publish(a, ok) => assert Next(s, act).deb == s.deb;
    case Retry(a) => assert Next(s, act).deb == s.deb;
    case GiveUp(a) => assert Next(s, act).deb == s.deb;
    case Note(a) => assert Next(s, act).deb == s.deb;
    case StopReturn => assert Next(s, act).deb == s.deb;
  }

  lemma StepTidy(s: Sys, act: Action)
    requires D.DInv(s.deb) && Tidy(s.deb) && Enabled(s, act) && Clear(s, act) && |s.deb.subs| < D.VERSION_SPACE
    ensures Tidy(Next(s, act).deb)
  {
    match act
    case Enqueue(n) => SubmitTidy(s.deb, s.accepted[n].instanceID, n);
    case RunCallback(t) => CallbackTidy(s.deb, t);
    case Fire(t) => FireTidy(s.deb, t);
    case StopBegin(order) => StopTidy(s.deb, order);
    case _ => OtherwiseSame(s, act); SameTimersTidy(s.deb, Next(s, act).deb);
  }

  lemma {:induction false} SubsGrow(s: Sys, acts: seq<Action>)
    requires Legal(s, acts)
    ensures |s.deb.subs| <= |Run(s, acts).deb.subs|
    decreases |acts|
  {
    if acts != [] { SubsGrow(Next(s, acts[0]), acts[1..]); }
  }

  lemma {:induction false} RunTidy(s: Sys, acts: seq<Action>)
    requires Inv(s) && Tidy(s.deb) && Legal(s, acts) && ClearRun(s, acts)
    requires |Run(s, acts).deb.subs| < D.VERSION_SPACE
    ensures Tidy(Run(s, acts).deb)
    decreases |acts|
  {
    if acts != [] {
      SubsGrow(s, acts);
      NextKeeps(s, acts[0]);
      StepTidy(s, acts[0]);
      RunTidy(Next(s, acts[0]), acts[1..]);
    }
  }

  // In a run that never creates an entry while a callback of its instance is still to run,
  // each claim is made by the newest submission's own callback, a whole interval after that
  // submission.
  lemma QuietWindowOverRuns(configuredAttempts: int, interval: int, acts: seq<Action>, s: Sys, t: nat)
    requires Reaches(configuredAttempts, interval, acts, s) && ClearRun(Init(configuredAttempts, interval), acts)
    requires |s.deb.subs| < D.VERSION_SPACE && t in s.deb.fired && D.Claims(s.deb, t)
    ensures var c := D.Callback(s.deb, t).claims[|s.deb.claims|];
            && c.sub == t < |s.deb.subs|
            && c.event == s.deb.subs[t].event
            && s.deb.now >= s.deb.subs[t].at + interval
            && forall m :: t < m < |s.deb.subs| ==> s.deb.subs[m].id != s.deb.subs[t].id
  {
    ReachableInv(configuredAttempts, interval, acts, s);
    RunTidy(Init(configuredAttempts, interval), acts);
    SameInterval(Init(configuredAttempts, interval), acts);
    QuietWindow(s.deb, t);
  }

  lemma {:induction false} SameInterval(s: Sys, acts: seq<Action>)
    requires Legal(s, acts)
    ensures Run(s, acts).deb.interval == s.deb.interval
    decreases |acts|
  {
    if acts != [] { SameInterval(Next(s, acts[0]), acts[1..]); }
  }
}
