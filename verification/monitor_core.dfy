/**
 The monitor's bookkeeping as a state machine over the sections run under its mutex, with
 the history of those sections.
 */
module MonitorCore {
  import opened Events

  datatype Section = Accepted(event: StatusEvent) | Recorded(event: StatusEvent)

  datatype MState = MState(
    lastPublished: map<string, StatusEvent>,
    lastSubmitted: map<string, StatusEvent>,
    log: seq<Section>)

  const FRESH := MState(map[], map[], [])

  predicate AlreadyPublished(pub: map<string, StatusEvent>, e: StatusEvent) {
    && e.instanceID in pub
    && pub[e.instanceID].status == e.status
    && pub[e.instanceID].message == e.message
  }

  predicate Latched(sub: map<string, StatusEvent>, e: StatusEvent) {
    e.instanceID in sub && sub[e.instanceID].status == FAILED && e.status == PROVISIONING
  }

  // Does submitIfChanged let the event through?
  predicate Admits(m: MState, e: StatusEvent) {
    !AlreadyPublished(m.lastPublished, e) && !Latched(m.lastSubmitted, e)
  }

  function Accept(m: MState, e: StatusEvent): MState {
    m.(lastSubmitted := m.lastSubmitted[e.instanceID := e], log := m.log + [Accepted(e)])
  }

  function Record(m: MState, e: StatusEvent): MState {
    m.(lastPublished := if e.status == DELETED then m.lastPublished - {e.instanceID}
                        else m.lastPublished[e.instanceID := e],
       lastSubmitted := if e.status == DELETED then m.lastSubmitted - {e.instanceID}
                        else m.lastSubmitted,
       log := m.log + [Recorded(e)])
  }

  // ---- The maps as a replay of the history ----

  function SubmittedAfter(log: seq<Section>): map<string, StatusEvent> {
    if log == [] then map[]
    else
      var before := SubmittedAfter(log[..|log| - 1]);
      match log[|log| - 1]
      case Accepted(e) => before[e.instanceID := e]
      case Recorded(e) => if e.status == DELETED then before - {e.instanceID} else before
  }

  function PublishedAfter(log: seq<Section>): map<string, StatusEvent> {
    if log == [] then map[]
    else
      var before := PublishedAfter(log[..|log| - 1]);
      match log[|log| - 1]
      case Accepted(_) => before
      case Recorded(e) =>
        if e.status == DELETED then before - {e.instanceID} else before[e.instanceID := e]
  }

  function StateAfter(log: seq<Section>): MState {
    MState(PublishedAfter(log), SubmittedAfter(log), log)
  }

  // Every acceptance was admitted by the maps as they stood then.
  ghost predicate LogOk(log: seq<Section>) {
    forall j :: 0 <= j < |log| && log[j].Accepted? ==> Admits(StateAfter(log[..j]), log[j].event)
  }

  ghost predicate MInv(m: MState) {
    m == StateAfter(m.log) && LogOk(m.log)
  }

  lemma AcceptKeeps(m: MState, e: StatusEvent)
    requires MInv(m) && Admits(m, e)
    ensures MInv(Accept(m, e))
  {
    var log := m.log + [Accepted(e)];
    assert log[..|m.log|] == m.log;
    assert forall j :: 0 <= j < |m.log| ==> log[..j] == m.log[..j] && log[j] == m.log[j];
  }

  lemma RecordKeeps(m: MState, e: StatusEvent)
    requires MInv(m)
    ensures MInv(Record(m, e))
  {
    var log := m.log + [Recorded(e)];
    assert log[..|m.log|] == m.log;
    assert forall j :: 0 <= j < |m.log| ==> log[..j] == m.log[..j] && log[j] == m.log[j];
  }

  // ---- What the history shows ----

  predicate AcceptsFor(s: Section, id: string) {
    s.Accepted? && s.event.instanceID == id
  }

  predicate ErasesFor(s: Section, id: string) {
    s.Recorded? && s.event.instanceID == id && s.event.status == DELETED
  }

  lemma {:induction false} SubmittedStays(log: seq<Section>, i: nat, j: nat)
    requires i < j <= |log| && log[i].Accepted?
    requires forall k :: i < k < j ==>
               !AcceptsFor(log[k], log[i].event.instanceID) && !ErasesFor(log[k], log[i].event.instanceID)
    ensures var id := log[i].event.instanceID;
            id in SubmittedAfter(log[..j]) && SubmittedAfter(log[..j])[id] == log[i].event
  {
    assert log[..j][..j - 1] == log[..j - 1];
    if j > i + 1 {
      SubmittedStays(log, i, j - 1);
    }
  }

  // The FAILED latch: an accepted FAILED is not directly followed by an accepted
  // PROVISIONING of the same instance, unless a DELETED was recorded in between.
  lemma FailedLatch(log: seq<Section>, i: nat, j: nat)
    requires LogOk(log) && i < j < |log|
    requires log[i].Accepted? && log[i].event.status == FAILED
    requires AcceptsFor(log[j], log[i].event.instanceID) && log[j].event.status == PROVISIONING
    requires forall k :: i < k < j ==> !AcceptsFor(log[k], log[i].event.instanceID)
    ensures exists k :: i < k < j && ErasesFor(log[k], log[i].event.instanceID)
  {
    if forall k :: i < k < j ==> !ErasesFor(log[k], log[i].event.instanceID) {
      SubmittedStays(log, i, j);
    }
  }

  lemma {:induction false} ErasedStays(log: seq<Section>, id: string, k: nat, j: nat)
    requires k < j <= |log| && ErasesFor(log[k], id)
    requires forall m :: k < m < j ==> !AcceptsFor(log[m], id)
    ensures id !in SubmittedAfter(log[..j])
  {
    assert log[..j][..j - 1] == log[..j - 1];
    if j > k + 1 {
      ErasedStays(log, id, k, j - 1);
    }
  }

  // As long as nothing else is accepted for the instance, the latch of an accepted FAILED
  // holds back PROVISIONING exactly until a DELETED is recorded.
  lemma LatchHoldsUntilErased(log: seq<Section>, i: nat, j: nat, e: StatusEvent)
    requires i < j <= |log| && log[i].Accepted? && log[i].event.status == FAILED
    requires e.instanceID == log[i].event.instanceID && e.status == PROVISIONING
    requires forall k :: i < k < j ==> !AcceptsFor(log[k], e.instanceID)
    ensures Latched(SubmittedAfter(log[..j]), e) <==> !exists k :: i < k < j && ErasesFor(log[k], e.instanceID)
  {
    if k :| i < k < j && ErasesFor(log[k], e.instanceID) {
      ErasedStays(log, e.instanceID, k, j);
    } else {
      SubmittedStays(log, i, j);
    }
  }

  // What lastPublished holds for an instance is its newest recorded event, never DELETED.
  lemma {:induction false} PublishedIsNewestRecord(log: seq<Section>, id: string)
    requires id in PublishedAfter(log)
    ensures var e := PublishedAfter(log)[id];
            && e.status != DELETED && e.instanceID == id
            && exists k :: 0 <= k < |log| && log[k] == Recorded(e)
                 && forall m :: k < m < |log| && log[m].Recorded? ==> log[m].event.instanceID != id
  {
    var n := |log| - 1;
    if log[n].Recorded? && log[n].event.instanceID == id {
    } else {
      PublishedIsNewestRecord(log[..n], id);
      var e := PublishedAfter(log[..n])[id];
      var k :| 0 <= k < n && log[..n][k] == Recorded(e)
               && forall m :: k < m < n && log[..n][m].Recorded? ==> log[..n][m].event.instanceID != id;
      assert log[k] == Recorded(e);
      assert forall m :: 0 <= m < n ==> log[m] == log[..n][m];
    }
  }

  // What was recorded stands as published until the instance's next record.
  lemma {:induction false} PublishedStays(log: seq<Section>, i: nat, j: nat)
    requires i < j <= |log| && log[i].Recorded? && log[i].event.status != DELETED
    requires forall k :: i < k < j && log[k].Recorded? ==> log[k].event.instanceID != log[i].event.instanceID
    ensures var id := log[i].event.instanceID;
            id in PublishedAfter(log[..j]) && PublishedAfter(log[..j])[id] == log[i].event
  {
    assert log[..j][..j - 1] == log[..j - 1];
    if j > i + 1 {
      PublishedStays(log, i, j - 1);
    }
  }

  // An event accepted while some event of its instance stands as published differs from it.
  lemma AcceptedDiffers(log: seq<Section>, j: nat)
    requires LogOk(log) && j < |log| && log[j].Accepted?
    ensures var id := log[j].event.instanceID;
            id in PublishedAfter(log[..j]) ==> PublishedAfter(log[..j])[id] != log[j].event
  {
    assert Admits(StateAfter(log[..j]), log[j].event);
  }
}
