/**
 The pipeline of one instance as it would be if accepting and enqueueing were one step, and
 claiming through recording another. `Turns` says which runs of the pipeline are its runs.
 */
module Coarse {
  import opened Events
  import opened MonitorCore

  // What the two maps and the debouncer hold for the instance, and its sections so far.
  datatype CState = CState(
    published: Option<StatusEvent>, submitted: Option<StatusEvent>, pending: Option<StatusEvent>, log: seq<Section>)

  datatype CAction = Report(event: StatusEvent) | Publish(ok: bool)

  const CINIT := CState(None, None, None, [])

  predicate SameStatus(a: StatusEvent, b: StatusEvent) {
    a.status == b.status && a.message == b.message
  }

  predicate CAdmits(c: CState, e: StatusEvent) {
    && !(c.published.Some? && SameStatus(c.published.value, e))
    && !(c.submitted.Some? && c.submitted.value.status == FAILED && e.status == PROVISIONING)
  }

  predicate CEnabled(c: CState, a: CAction) {
    a.Publish? ==> c.pending.Some?
  }

  function CNext(c: CState, a: CAction): CState
    requires CEnabled(c, a)
  {
    match a
    case Report(e) =>
      if CAdmits(c, e) then CState(c.published, Some(e), Some(e), c.log + [Accepted(e)]) else c
    case Publish(ok) =>
      var e := c.pending.value;
      if !ok then c.(pending := None)
      else if e.status == DELETED then CState(None, None, None, c.log + [Recorded(e)])
      else CState(Some(e), c.submitted, None, c.log + [Recorded(e)])
  }

  ghost predicate CLegal(c: CState, acts: seq<CAction>)
    decreases |acts|
  {
    acts == [] || (CEnabled(c, acts[0]) && CLegal(CNext(c, acts[0]), acts[1..]))
  }

  ghost function CRun(c: CState, acts: seq<CAction>): CState
    requires CLegal(c, acts)
    decreases |acts|
  {
    if acts == [] then c else CRun(CNext(c, acts[0]), acts[1..])
  }

  // ---- Reading the history ----

  function LastAccepted(log: seq<Section>): Option<StatusEvent> {
    if log == [] then None
    else if log[|log| - 1].Accepted? then Some(log[|log| - 1].event)
    else LastAccepted(log[..|log| - 1])
  }

  function LastDelivered(log: seq<Section>): Option<StatusEvent> {
    if log == [] then None
    else if log[|log| - 1].Recorded? then Some(log[|log| - 1].event)
    else LastDelivered(log[..|log| - 1])
  }

  // An accepted PROVISIONING does not follow an accepted FAILED; a delivery is of the newest
  // accepted event and repeats the delivery before it only when both are DELETED.
  predicate SectionSound(before: seq<Section>, s: Section) {
    match s
    case Accepted(e) =>
      e.status == PROVISIONING ==> LastAccepted(before).None? || LastAccepted(before).value.status != FAILED
    case Recorded(e) =>
      && LastAccepted(before) == Some(e)
      && (LastDelivered(before).Some? && SameStatus(LastDelivered(before).value, e) ==> e.status == DELETED)
  }

  ghost predicate LogSound(log: seq<Section>) {
    forall m :: 0 <= m < |log| ==> SectionSound(log[..m], log[m])
  }

  // ---- The invariant ----

  // What is pending was the last thing submitted and differs from what stands as published;
  // the last accepted event stands as submitted, and the last delivered one as published,
  // unless that was DELETED; whatever is published has been submitted.
  ghost predicate CInv(c: CState) {
    && (c.pending.Some? ==> c.submitted == c.pending)
    && (c.pending.Some? && c.published.Some? ==> !SameStatus(c.published.value, c.pending.value))
    && (if c.submitted.Some? then LastAccepted(c.log) == c.submitted
        else LastAccepted(c.log).Some? ==> LastAccepted(c.log).value.status == DELETED)
    && (if c.published.Some? then LastDelivered(c.log) == c.published && c.published.value.status != DELETED
        else LastDelivered(c.log).Some? ==> LastDelivered(c.log).value.status == DELETED)
    && (c.published.Some? ==> c.submitted.Some?)
    && LogSound(c.log)
  }

  lemma LastOf(log: seq<Section>, s: Section)
    ensures LastAccepted(log + [s]) == if s.Accepted? then Some(s.event) else LastAccepted(log)
    ensures LastDelivered(log + [s]) == if s.Recorded? then Some(s.event) else LastDelivered(log)
  {
    assert (log + [s])[..|log|] == log;
  }

  lemma SoundGrows(log: seq<Section>, s: Section)
    requires LogSound(log) && SectionSound(log, s)
    ensures LogSound(log + [s])
  {
    assert (log + [s])[..|log|] == log;
    assert forall m :: 0 <= m < |log| ==> (log + [s])[..m] == log[..m] && (log + [s])[m] == log[m];
  }

  lemma CNextKeeps(c: CState, a: CAction)
    requires CInv(c) && CEnabled(c, a)
    ensures CInv(CNext(c, a))
  {
    if CNext(c, a).log != c.log {
      var s := if a.Report? then Accepted(a.event) else Recorded(c.pending.value);
      LastOf(c.log, s);
      SoundGrows(c.log, s);
    }
  }

  lemma {:induction false} CRunKeeps(c: CState, acts: seq<CAction>)
    requires CInv(c) && CLegal(c, acts)
    ensures CInv(CRun(c, acts))
    decreases |acts|
  {
    if acts != [] {
      CNextKeeps(c, acts[0]);
      CRunKeeps(CNext(c, acts[0]), acts[1..]);
    }
  }

  // ---- What the invariant says ----

  // Delivering DELETED leaves no trace of the instance.
  lemma DeletedForgets(c: CState)
    requires CInv(c) && c.pending.Some? && c.pending.value.status == DELETED
    ensures CNext(c, Publish(true)) == CINIT.(log := c.log + [Recorded(c.pending.value)])
    ensures forall e :: CAdmits(CNext(c, Publish(true)), e)
  {
  }

  // Without an acceptance of a third status, the newest accepted status stays FAILED.
  lemma {:induction false} FailedStays(log: seq<Section>, i: nat, n: nat)
    requires LogSound(log) && i <= n <= |log|
    requires LastAccepted(log[..i]).Some? && LastAccepted(log[..i]).value.status == FAILED
    requires forall k :: i <= k < n && log[k].Accepted? ==> log[k].event.status in {FAILED, PROVISIONING}
    ensures LastAccepted(log[..n]).Some? && LastAccepted(log[..n]).value.status == FAILED
  {
    if i < n {
      FailedStays(log, i, n - 1);
      assert log[..n] == log[..n - 1] + [log[n - 1]];
      LastOf(log[..n - 1], log[n - 1]);
      assert SectionSound(log[..n - 1], log[n - 1]);
    }
  }

  // A PROVISIONING delivered after a FAILED: something else was accepted in between, even
  // if it was coalesced away and never delivered.
  lemma ThirdStatusBetween(log: seq<Section>, i: nat, j: nat)
    requires LogSound(log) && i < j < |log|
    requires log[i].Recorded? && log[i].event.status == FAILED
    requires log[j].Recorded? && log[j].event.status == PROVISIONING
    ensures exists k :: i < k < j && log[k].Accepted? && log[k].event.status !in {FAILED, PROVISIONING}
  {
    assert SectionSound(log[..i], log[i]) && SectionSound(log[..j], log[j]);
    if forall k :: i <= k < j && log[k].Accepted? ==> log[k].event.status in {FAILED, PROVISIONING} {
      FailedStays(log, i, j);
    }
  }

  // An accepted FAILED is never directly followed by an accepted PROVISIONING.
  lemma LatchWithoutException(log: seq<Section>, i: nat, j: nat)
    requires LogSound(log) && i < j < |log|
    requires log[i].Accepted? && log[i].event.status == FAILED && log[j].Accepted?
    requires forall k :: i < k < j ==> !log[k].Accepted?
    ensures log[j].event.status != PROVISIONING
  {
    LastAcceptedIs(log, i, j);
    assert SectionSound(log[..j], log[j]);
  }

  lemma {:induction false} LastAcceptedIs(log: seq<Section>, i: nat, n: nat)
    requires i < n <= |log| && log[i].Accepted? && forall k :: i < k < n ==> !log[k].Accepted?
    ensures LastAccepted(log[..n]) == Some(log[i].event)
  {
    assert log[..n] == log[..n - 1] + [log[n - 1]];
    LastOf(log[..n - 1], log[n - 1]);
    if i < n - 1 {
      LastAcceptedIs(log, i, n - 1);
    }
  }

  // ---- Deliveries ----

  function Deliveries(log: seq<Section>): seq<StatusEvent> {
    if log == [] then []
    else Deliveries(log[..|log| - 1]) + if log[|log| - 1].Recorded? then [log[|log| - 1].event] else []
  }

  ghost predicate NoRepeats(events: seq<StatusEvent>) {
    forall k :: 0 <= k < |events| - 1 && SameStatus(events[k], events[k + 1]) ==> events[k].status == DELETED
  }

  lemma {:induction false} LastDeliveryIs(log: seq<Section>)
    ensures LastDelivered(log) == var ds := Deliveries(log); if ds == [] then None else Some(ds[|ds| - 1])
  {
    if log != [] { LastDeliveryIs(log[..|log| - 1]); }
  }

  // Two successive deliveries differ, unless both are DELETED.
  lemma {:induction false} SuccessiveDeliveriesDiffer(log: seq<Section>)
    requires LogSound(log)
    ensures NoRepeats(Deliveries(log))
  {
    if log != [] {
      var n := |log| - 1;
      assert forall m :: 0 <= m < n ==> log[..n][..m] == log[..m] && log[..n][m] == log[m];
      SuccessiveDeliveriesDiffer(log[..n]);
      LastDeliveryIs(log[..n]);
      assert SectionSound(log[..n], log[n]);
    }
  }

  // A delivery under way continues them in the same way.
  lemma PendingDiffers(c: CState)
    requires CInv(c) && c.pending.Some?
    ensures NoRepeats(Deliveries(c.log) + [c.pending.value])
  {
    SuccessiveDeliveriesDiffer(c.log);
    LastDeliveryIs(c.log);
  }
}
