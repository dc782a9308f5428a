/** What is reported of a PVC, told from its own fields. */
module Statuses {
  import opened Events
  import opened Volumes
  import opened Reports

  // The condition says that a resize is under way.
  predicate Resizes(c: Condition) {
    c.status == "True" && c.kind in {"Resizing", "FileSystemResizePending"}
  }

  // The first of the conditions that says so, if any.
  predicate FirstResize(conditions: seq<Condition>, i: nat) {
    i < |conditions| && Resizes(conditions[i]) && forall j :: 0 <= j < i ==> !Resizes(conditions[j])
  }

  lemma {:induction false} ResizeScan(conditions: seq<Condition>)
    ensures ResizeStatus(conditions).Some? <==> exists c :: c in conditions && Resizes(c)
    ensures forall i: nat :: FirstResize(conditions, i) ==>
              ResizeStatus(conditions)
              == Some(if conditions[i].kind == "Resizing" then "volume expansion in progress"
                      else "filesystem resize pending")
  {
    if conditions != [] {
      ResizeScan(conditions[1..]);
      assert conditions == [conditions[0]] + conditions[1..];
      assert forall c :: c in conditions <==> c == conditions[0] || c in conditions[1..];
      assert Resizes(conditions[0]) <==> ResizeMessage(conditions[0]).Some?;
      forall i: nat | FirstResize(conditions, i) && i > 0 ensures FirstResize(conditions[1..], i - 1) { }
    }
  }

  // When each status is reported.
  lemma StatusMeans(pvc: PVC)
    ensures var (status, _) := StatusOf(pvc);
            var resizing := exists c :: c in pvc.conditions && Resizes(c);
            && (status == DELETING <==> pvc.deleting)
            && (status == FAILED <==> !pvc.deleting && pvc.phase == "Lost")
            && (status == RUNNING <==> !pvc.deleting && pvc.phase == "Bound" && !resizing)
            && (status == PROVISIONING <==>
                  !pvc.deleting && pvc.phase != "Lost" && (pvc.phase == "Bound" ==> resizing))
            && status != DELETED
  {
    ResizeScan(pvc.conditions);
  }

  // And with which message.
  lemma MessageMeans(pvc: PVC)
    ensures var (status, message) := StatusOf(pvc);
            && (status == DELETING ==> message == "PVC is terminating")
            && (status == FAILED ==> message == "PVC is lost")
            && (status == RUNNING && pvc.volumeName == "" ==> message == "PVC is bound")
            && (status == RUNNING && pvc.volumeName != "" ==> message == "PVC is bound to volume " + pvc.volumeName)
            && (status == PROVISIONING && pvc.phase == "Pending" ==> message == "PVC is pending binding")
            && (status == PROVISIONING && pvc.phase !in {"Pending", "Bound"} ==> message == pvc.phase)
    ensures forall i: nat ::
              StatusOf(pvc).0 == PROVISIONING && pvc.phase == "Bound" && FirstResize(pvc.conditions, i) ==>
              StatusOf(pvc).1
              == if pvc.conditions[i].kind == "Resizing" then "volume expansion in progress"
                 else "filesystem resize pending"
  {
    ResizeScan(pvc.conditions);
  }

  // The instance a PVC is reported under, if it is at all.
  lemma InstanceMeans(pvc: PVC)
    ensures Tracked(pvc) <==>
              "dcm.project/dcm-instance-id" in pvc.labels && pvc.labels["dcm.project/dcm-instance-id"] != ""
    ensures Tracked(pvc) ==> EventOfPVC(pvc).instanceID == pvc.labels["dcm.project/dcm-instance-id"]
    ensures EventOfPVC(pvc).status == StatusOf(pvc).0 && EventOfPVC(pvc).message == StatusOf(pvc).1
  {
  }

  // The labels a delete callback looks at: those of the object, or of the object inside one
  // tombstone.
  predicate Shows(obj: Object, labels: LabelSet) {
    || (obj.Claim? && obj.pvc.labels == labels)
    || obj == Labelled(labels)
  }

  // A deletion is reported exactly when those labels carry an instance id, under that id.
  lemma DeletionMeans(obj: Object, id: string)
    ensures id != "" ==>
              (DeletedInstanceID(obj) == id <==>
                exists labels: LabelSet :: CarriesID(obj, labels, id))
    ensures GoneEvent(id) == StatusEvent(id, DELETED, "resource no longer exists")
  {
    if DeletedInstanceID(obj) == id && id != "" {
      var inner := if obj.Tombstone? then obj.obj else obj;
      var labels := if inner.Claim? then inner.pvc.labels else inner.labels;
      assert CarriesID(obj, labels, id);
    }
  }

  predicate CarriesID(obj: Object, labels: LabelSet, id: string) {
    && (Shows(obj, labels) || (obj.Tombstone? && Shows(obj.obj, labels)))
    && "dcm.project/dcm-instance-id" in labels && labels["dcm.project/dcm-instance-id"] == id
  }

  // When a Kubernetes event makes a PVC FAILED, and with which message.
  lemma WarningMeans(e: KubeEvent, namespace: string, lister: Lister, id: string)
    ensures var ns := if e.objectNamespace != "" then e.objectNamespace else namespace;
            var reported :=
              && e.kind == "Warning" && e.objectKind == "PersistentVolumeClaim"
              && (|| e.reason == "FailedBinding" || e.reason == "ProvisioningFailed"
                  || e.reason == "FailedProvisioning" || e.reason == "AllocationFailed")
              && (ns, e.objectName) in lister
              && "dcm.project/dcm-instance-id" in lister[(ns, e.objectName)].labels
              && lister[(ns, e.objectName)].labels["dcm.project/dcm-instance-id"] == id;
            id != "" ==>
              (WarningReport(e, namespace, lister)
               == Some(StatusEvent(id, FAILED, if e.message == "" then "PVC failure: " + e.reason
                                               else e.reason + ": " + e.message))
               <==> reported)
    ensures var report := WarningReport(e, namespace, lister);
            report.Some? ==> report.value.status == FAILED && report.value.instanceID != ""
  {
  }
}
