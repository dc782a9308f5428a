/** What informer callbacks make of the objects they are handed. */
module Reports {
  import opened Events
  import opened Volumes

  function InstanceID(pvc: PVC): string {
    Label(pvc.labels, LABEL_INSTANCE_ID)
  }

  predicate Tracked(pvc: PVC) {
    InstanceID(pvc) != ""
  }

  // The event of a PVC that was added, updated or resynced.
  function EventOfPVC(pvc: PVC): StatusEvent {
    StatusEvent(InstanceID(pvc), StatusOf(pvc).0, StatusOf(pvc).1)
  }

  // What a callback may be handed: a PVC, another object with labels, the tombstone of a
  // missed deletion, or something else altogether.
  datatype Object = Claim(pvc: PVC) | Labelled(labels: LabelSet) | Tombstone(obj: Object) | Other

  // Exactly one tombstone is looked through.
  function DeletedInstanceID(obj: Object): string {
    var inner := if obj.Tombstone? then obj.obj else obj;
    match inner
    case Claim(pvc) => InstanceID(pvc)
    case Labelled(labels) => Label(labels, LABEL_INSTANCE_ID)
    case _ => ""
  }

  function GoneEvent(id: string): StatusEvent {
    StatusEvent(id, DELETED, GONE_MESSAGE)
  }

  datatype KubeEvent = KubeEvent(
    kind: string, objectKind: string, objectNamespace: string, objectName: string, reason: string, message: string)

  predicate IsTerminalPVCWarning(e: KubeEvent) {
    && e.kind == "Warning"
    && e.objectKind == "PersistentVolumeClaim"
    && e.reason in {"FailedBinding", "ProvisioningFailed", "FailedProvisioning", "AllocationFailed"}
  }

  // The PVCs in the informer's cache, by namespace and name.
  type Lister = map<(string, string), PVC>

  // The FAILED event that a terminal warning about a tracked PVC leads to.
  function WarningReport(e: KubeEvent, namespace: string, lister: Lister): Option<StatusEvent> {
    var key := (if e.objectNamespace == "" then namespace else e.objectNamespace, e.objectName);
    if IsTerminalPVCWarning(e) && key in lister && Tracked(lister[key]) then
      Some(StatusEvent(InstanceID(lister[key]), FAILED,
                       if e.message == "" then "PVC failure: " + e.reason else e.reason + ": " + e.message))
    else None
  }
}
