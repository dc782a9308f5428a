/** The StatusMonitor object: its maps, the callbacks that feed it, and its publish loop. */
module StatusMonitorObject {
  import opened Events
  import opened MonitorCore
  import opened Volumes
  import opened Reports
  import opened Backoff
  import opened DebouncerObject
  import P = Pipeline
  import D = Debounce

  // The attempt after which the loop stops: it succeeds, is the last allowed, or the context
  // is done by the end of the wait after it.
  predicate EndsAt(max: nat, publish: nat -> bool, cancelled: nat -> bool, k: nat) {
    publish(k) || k >= max || cancelled(k)
  }

  class StatusMonitor {
    const namespace: string
    const publishMaxAttempts: int
    var lastPublished: map<string, StatusEvent>
    var lastSubmitted: map<string, StatusEvent>
    ghost var log: seq<Section>

    constructor (namespace: string, publishMaxAttempts: int)
      ensures Abs() == FRESH && MInv(Abs())
      ensures this.namespace == namespace && this.publishMaxAttempts == publishMaxAttempts
    {
      this.namespace, this.publishMaxAttempts := namespace, publishMaxAttempts;
      lastPublished, lastSubmitted, log := map[], map[], [];
    }

    ghost function Abs(): MState
      reads this
    {
      MState(lastPublished, lastSubmitted, log)
    }

    // What one report does to the monitor and to the debouncer behind it.
    twostate predicate Reported(deb: Debouncer<StatusEvent>, e: StatusEvent)
      reads this, deb
    {
      if Admits(old(Abs()), e) then
        Abs() == Accept(old(Abs()), e) && deb.Abs() == D.Submit(old(deb.Abs()), e.instanceID, e)
      else Unreported(deb)
    }

    twostate predicate Unreported(deb: Debouncer<StatusEvent>)
      reads this, deb
    {
      Abs() == old(Abs()) && deb.Abs() == old(deb.Abs())
    }

    // The half of submitIfChanged that runs under the monitor's lock.
    method AcceptIfChanged(event: StatusEvent) returns (accepted: bool)
      requires MInv(Abs())
      modifies this
      ensures MInv(Abs()) && accepted == Admits(old(Abs()), event)
      ensures Abs() == if accepted then Accept(old(Abs()), event) else old(Abs())
    {
      var id := event.instanceID;
      if id in lastPublished && lastPublished[id].status == event.status && lastPublished[id].message == event.message {
        return false;
      }
      if id in lastSubmitted && lastSubmitted[id].status == FAILED && event.status == PROVISIONING {
        return false;
      }
      AcceptKeeps(Abs(), event);
      lastSubmitted := lastSubmitted[id := event];
      log := log + [Accepted(event)];
      return true;
    }

    method SubmitIfChanged(deb: Debouncer<StatusEvent>, event: StatusEvent)
      requires deb.Valid() && MInv(Abs())
      modifies this, deb, deb.States()
      ensures deb.Valid() && MInv(Abs()) && fresh(deb.States() - old(deb.States()))
      ensures Reported(deb, event)
    {
      var accepted := AcceptIfChanged(event);
      if accepted {
        deb.Submit(event.instanceID, event);
      }
    }

    method HandlePVCEvent(obj: Object, deb: Debouncer<StatusEvent>)
      requires deb.Valid() && MInv(Abs())
      modifies this, deb, deb.States()
      ensures deb.Valid() && MInv(Abs()) && fresh(deb.States() - old(deb.States()))
      ensures if obj.Claim? && Tracked(obj.pvc) then Reported(deb, EventOfPVC(obj.pvc)) else Unreported(deb)
    {
      if !obj.Claim? { return; }
      var instanceID := InstanceID(obj.pvc);
      if instanceID == "" { return; }
      var (status, msg) := StatusOf(obj.pvc);
      SubmitIfChanged(deb, StatusEvent(instanceID, status, msg));
    }

    method HandlePVCDelete(obj: Object, deb: Debouncer<StatusEvent>)
      requires deb.Valid() && MInv(Abs())
      modifies this, deb, deb.States()
      ensures deb.Valid() && MInv(Abs()) && fresh(deb.States() - old(deb.States()))
      ensures if DeletedInstanceID(obj) != "" then Reported(deb, GoneEvent(DeletedInstanceID(obj))) else Unreported(deb)
    {
      var instanceID := DeletedInstanceID(obj);
      if instanceID == "" { return; }
      SubmitIfChanged(deb, StatusEvent(instanceID, DELETED, GONE_MESSAGE));
    }

    method HandleWarningEvent(event: KubeEvent, lister: Lister, deb: Debouncer<StatusEvent>)
      requires deb.Valid() && MInv(Abs())
      modifies this, deb, deb.States()
      ensures deb.Valid() && MInv(Abs()) && fresh(deb.States() - old(deb.States()))
      ensures var report := WarningReport(event, namespace, lister);
              if report.Some? then Reported(deb, report.value) else Unreported(deb)
    {
      if !IsTerminalPVCWarning(event) { return; }
      var ns := event.objectNamespace;
      if ns == "" { ns := namespace; }
      if (ns, event.objectName) !in lister { return; }
      var instanceID := InstanceID(lister[(ns, event.objectName)]);
      if instanceID == "" { return; }
      var msg := event.message;
      if msg == "" {
        msg := "PVC failure: " + event.reason;
      } else {
        msg := event.reason + ": " + msg;
      }
      SubmitIfChanged(deb, StatusEvent(instanceID, FAILED, msg));
    }

    // The part of publishWithRetry that runs under the monitor's lock.
    method RecordPublished(event: StatusEvent)
      requires MInv(Abs())
      modifies this
      ensures MInv(Abs()) && Abs() == Record(old(Abs()), event)
    {
      RecordKeeps(Abs(), event);
      if event.status == DELETED {
        lastPublished := lastPublished - {event.instanceID};
        lastSubmitted := lastSubmitted - {event.instanceID};
      } else {
        lastPublished := lastPublished[event.instanceID := event];
      }
      log := log + [Recorded(event)];
    }

    // publish(k) says whether attempt k succeeds, cancelled(k) whether the context is done by
    // the end of the wait after failed attempt k. The maps change only if an attempt succeeds.
    method PublishWithRetry(event: StatusEvent, publish: nat -> bool, cancelled: nat -> bool)
      returns (delivered: bool, attempts: nat, waits: seq<int>)
      requires MInv(Abs())
      modifies this
      ensures MInv(Abs())
      ensures Abs() == if delivered then Record(old(Abs()), event) else old(Abs())
      ensures 1 <= attempts <= P.EffectiveAttempts(publishMaxAttempts)
      ensures EndsAt(P.EffectiveAttempts(publishMaxAttempts), publish, cancelled, attempts)
      ensures forall k :: 1 <= k < attempts ==> !EndsAt(P.EffectiveAttempts(publishMaxAttempts), publish, cancelled, k)
      ensures delivered == publish(attempts)
      ensures |waits| == if delivered || attempts == P.EffectiveAttempts(publishMaxAttempts) then attempts - 1
                         else attempts
      ensures forall i :: 0 <= i < |waits| ==> waits[i] == PublishWait(i + 1)
      ensures TotalSlept(waits) <= FIRST_WAIT * (Pow2(|waits|) - 1)
    {
      var maxAttempts := publishMaxAttempts;
      if maxAttempts < 1 {
        maxAttempts := 5;
      }
      var backoff := FIRST_WAIT;
      delivered, attempts, waits := false, 0, [];
      while attempts < maxAttempts
        invariant attempts <= maxAttempts && Abs() == old(Abs()) && !delivered && |waits| == attempts
        invariant attempts < maxAttempts
        invariant backoff == PublishWait(attempts + 1)
        invariant forall k :: 1 <= k <= attempts ==> !EndsAt(maxAttempts, publish, cancelled, k)
        invariant forall i :: 0 <= i < |waits| ==> waits[i] == PublishWait(i + 1)
      {
        attempts := attempts + 1;
        if publish(attempts) {
          RecordPublished(event);
          delivered := true;
          break;
        }
        if attempts == maxAttempts { break; }
        waits := waits + [backoff];
        if cancelled(attempts) { break; }
        PublishWaitDoubles(attempts);
        backoff := Wrap64(2 * backoff);
      }
      TotalBackoff(waits);
    }
  }
}
