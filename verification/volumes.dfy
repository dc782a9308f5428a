/** PersistentVolumeClaims, the volumes of the API, and the conversions between them. */
module Volumes {
  import opened Events

  // ---- Labels owned by DCM ----

  const LABEL_MANAGED_BY := "dcm.project/managed-by"
  const LABEL_INSTANCE_ID := "dcm.project/dcm-instance-id"
  const LABEL_SERVICE_TYPE := "dcm.project/dcm-service-type"
  const VALUE_MANAGED_BY := "dcm"
  const VALUE_SERVICE_TYPE := "storage"

  type LabelSet = map<string, string>

  function ReservedLabelKeys(): set<string> { {LABEL_MANAGED_BY, LABEL_INSTANCE_ID, LABEL_SERVICE_TYPE} }

  function DcmLabels(instanceID: string): LabelSet {
    map[LABEL_MANAGED_BY := VALUE_MANAGED_BY,
        LABEL_INSTANCE_ID := instanceID,
        LABEL_SERVICE_TYPE := VALUE_SERVICE_TYPE]
  }

  // Reading a missing key of a Go map of strings gives the empty string.
  function Label(labels: LabelSet, key: string): string {
    if key in labels then labels[key] else ""
  }

  function MergeLabels(base: LabelSet, user: LabelSet): LabelSet { user + base }

  // ---- Cluster objects ----

  // A parsed resource quantity; its arithmetic is not part of this model.
  datatype Quantity = Quantity(amount: int, format: string)

  datatype QuantityCodec = QuantityCodec(parse: string -> Option<Quantity>, render: Quantity -> string)

  ghost predicate Inverse(codec: QuantityCodec) {
    forall q :: codec.parse(codec.render(q)) == Some(q)
  }

  // The zero time is 0.
  datatype Condition = Condition(kind: string, status: string, lastTransition: int)

  datatype PVC = PVC(
    name: string, namespace: string, labels: LabelSet,
    created: int, deleting: bool,
    accessModes: seq<string>, request: Quantity,
    storageClassName: Option<string>, volumeMode: Option<string>, volumeName: string,
    phase: string, conditions: seq<Condition>)

  // ---- API objects ----

  datatype KubernetesHints = KubernetesHints(
    storageClass: Option<string>, volumeMode: Option<string>, accessMode: Option<string>)

  datatype ProviderHints = ProviderHints(kubernetes: Option<KubernetesHints>)

  datatype VolumeMetadata = VolumeMetadata(
    name: string, labels: Option<LabelSet>, namespace: Option<string>,
    storageClass: Option<string>, volumeName: Option<string>)

  datatype StorageSpec = StorageSpec(
    serviceType: string, capacity: string, metadata: VolumeMetadata, providerHints: Option<ProviderHints>)

  datatype Volume = Volume(
    id: string, path: string, createTime: int, updateTime: int, spec: StorageSpec, status: StorageStatus)

  datatype Config = Config(namespace: string, defaultStorageClass: string, defaultAccessMode: string)

  datatype Reason =
    | BadCapacity(capacity: string)
    | BadAccessMode(mode: string)
    | BadDefaultAccessMode(mode: string)
    | BadVolumeMode(mode: string)
    | BadPageToken

  datatype StoreError =
    | NotFound(id: string)
    | Conflict(name: string)
    | FailedPrecondition(storageClass: string)
    | InvalidArgument(reason: Reason)

  // ---- Status mapping ----

  // A condition that is true and says that a resize is under way.
  function ResizeMessage(c: Condition): Option<string> {
    if c.status != "True" then None
    else if c.kind == "Resizing" then Some("volume expansion in progress")
    else if c.kind == "FileSystemResizePending" then Some("filesystem resize pending")
    else None
  }

  function ResizeStatus(conditions: seq<Condition>): Option<string> {
    if conditions == [] then None
    else if ResizeMessage(conditions[0]).Some? then ResizeMessage(conditions[0])
    else ResizeStatus(conditions[1..])
  }

  function StatusOf(pvc: PVC): (StorageStatus, string) {
    if pvc.deleting then (DELETING, "PVC is terminating")
    else if pvc.phase == "Pending" then (PROVISIONING, "PVC is pending binding")
    else if pvc.phase == "Lost" then (FAILED, "PVC is lost")
    else if pvc.phase == "Bound" then
      match ResizeStatus(pvc.conditions)
      case Some(msg) => (PROVISIONING, msg)
      case None =>
        (RUNNING, if pvc.volumeName != "" then "PVC is bound to volume " + pvc.volumeName else "PVC is bound")
    else (PROVISIONING, pvc.phase)
  }

  // ---- From a spec to a PVC ----

  predicate SupportedAccessMode(mode: string) {
    mode == "ReadWriteOnce" || mode == "ReadOnlyMany" || mode == "ReadWriteMany"
  }

  predicate SupportedVolumeMode(mode: string) {
    mode == "Filesystem" || mode == "Block"
  }

  function Hints(spec: StorageSpec): KubernetesHints {
    if spec.providerHints.Some? && spec.providerHints.value.kubernetes.Some?
    then spec.providerHints.value.kubernetes.value
    else KubernetesHints(None, None, None)
  }

  function ResolveAccessMode(spec: StorageSpec, defaultMode: string): Result<string, StoreError> {
    match Hints(spec).accessMode
    case Some(mode) =>
      if SupportedAccessMode(mode) then Ok(mode) else Err(InvalidArgument(BadAccessMode(mode)))
    case None =>
      if defaultMode == "" then Ok("ReadWriteOnce")
      else if SupportedAccessMode(defaultMode) then Ok(defaultMode)
      else Err(InvalidArgument(BadDefaultAccessMode(defaultMode)))
  }

  function ResolveStorageClass(spec: StorageSpec, defaultClass: string): string {
    match Hints(spec).storageClass
    case Some(class_) => class_
    case None => defaultClass
  }

  function NonEmpty(s: string): Option<string> {
    if s == "" then None else Some(s)
  }

  // The PVC that a spec asks for, or the first complaint about the spec.
  function Build(codec: QuantityCodec, spec: StorageSpec, cfg: Config, labels: LabelSet): Result<PVC, StoreError> {
    match codec.parse(spec.capacity)
    case None => Err(InvalidArgument(BadCapacity(spec.capacity)))
    case Some(q) =>
      match ResolveAccessMode(spec, cfg.defaultAccessMode)
      case Err(e) => Err(e)
      case Ok(mode) =>
        var vm := Hints(spec).volumeMode;
        if vm.Some? && !SupportedVolumeMode(vm.value) then Err(InvalidArgument(BadVolumeMode(vm.value)))
        else
          Ok(PVC(spec.metadata.name, cfg.namespace, labels, 0, false, [mode], q,
                 NonEmpty(ResolveStorageClass(spec, cfg.defaultStorageClass)), vm, "", "", []))
  }

  // buildPVC fills in the object one field at a time.
  method BuildPVC(codec: QuantityCodec, spec: StorageSpec, cfg: Config, labels: LabelSet)
    returns (r: Result<PVC, StoreError>)
    ensures r == Build(codec, spec, cfg, labels)
  {
    var qty := codec.parse(spec.capacity);
    if qty.None? { return Err(InvalidArgument(BadCapacity(spec.capacity))); }
    var mode := ResolveAccessMode(spec, cfg.defaultAccessMode);
    if mode.Err? { return Err(mode.error); }
    var pvc := PVC(spec.metadata.name, cfg.namespace, labels, 0, false, [mode.value], qty.value,
                   None, None, "", "", []);
    var storageClass := ResolveStorageClass(spec, cfg.defaultStorageClass);
    if storageClass != "" {
      pvc := pvc.(storageClassName := Some(storageClass));
    }
    if spec.providerHints.Some? && spec.providerHints.value.kubernetes.Some? {
      var vm := spec.providerHints.value.kubernetes.value.volumeMode;
      if vm.Some? {
        if !SupportedVolumeMode(vm.value) { return Err(InvalidArgument(BadVolumeMode(vm.value))); }
        pvc := pvc.(volumeMode := vm);
      }
    }
    return Ok(pvc);
  }

  // ---- From a PVC to a volume ----

  function StorageClassOf(pvc: PVC): string {
    if pvc.storageClassName.Some? then pvc.storageClassName.value else ""
  }

  function HintsOf(pvc: PVC): Option<ProviderHints> {
    var hints := KubernetesHints(
      NonEmpty(StorageClassOf(pvc)), pvc.volumeMode,
      if |pvc.accessModes| > 0 then Some(pvc.accessModes[0]) else None);
    if hints == KubernetesHints(None, None, None) then None else Some(ProviderHints(Some(hints)))
  }

  function UserLabelsOf(pvc: PVC): LabelSet {
    pvc.labels - ReservedLabelKeys()
  }

  // userLabelsFromPVC copies the labels that are not reserved, in any order.
  method UserLabelsFromPVC(pvc: PVC) returns (labels: LabelSet)
    ensures labels == UserLabelsOf(pvc)
  {
    labels := map[];
    var todo := pvc.labels.Keys;
    while todo != {}
      invariant todo <= pvc.labels.Keys
      invariant labels == (pvc.labels - todo) - ReservedLabelKeys()
      decreases todo
    {
      var k :| k in todo;
      if k !in ReservedLabelKeys() {
        labels := labels[k := pvc.labels[k]];
      }
      todo := todo - {k};
    }
    assert pvc.labels - todo == pvc.labels;
  }

  // The newest transition time among the conditions that carry one.
  ghost predicate IsLatest(conditions: seq<Condition>, latest: Option<int>) {
    match latest
    case None => forall c :: c in conditions ==> c.lastTransition == 0
    case Some(t) =>
      && t != 0
      && (exists c :: c in conditions && c.lastTransition == t)
      && (forall c :: c in conditions && c.lastTransition != 0 ==> c.lastTransition <= t)
  }

  function Newer(latest: Option<int>, c: Condition): Option<int> {
    if c.lastTransition == 0 then latest
    else if latest.None? || c.lastTransition > latest.value then Some(c.lastTransition)
    else latest
  }

  function LatestTransition(conditions: seq<Condition>): (latest: Option<int>)
    ensures IsLatest(conditions, latest)
  {
    if conditions == [] then None
    else
      var n := |conditions| - 1;
      assert conditions == conditions[..n] + [conditions[n]];
      Newer(LatestTransition(conditions[..n]), conditions[n])
  }

  method LatestPVCConditionTime(pvc: PVC) returns (latest: Option<int>)
    ensures latest == LatestTransition(pvc.conditions)
  {
    latest := None;
    for i := 0 to |pvc.conditions|
      invariant latest == LatestTransition(pvc.conditions[..i])
    {
      assert pvc.conditions[..i + 1][..i] == pvc.conditions[..i];
      var t := pvc.conditions[i].lastTransition;
      if t != 0 && (latest.None? || t > latest.value) {
        latest := Some(t);
      }
    }
    assert pvc.conditions[..|pvc.conditions|] == pvc.conditions;
  }

  function SpecOf(codec: QuantityCodec, pvc: PVC): StorageSpec {
    StorageSpec(
      "storage",
      codec.render(pvc.request),
      VolumeMetadata(
        pvc.name,
        if UserLabelsOf(pvc) == map[] then None else Some(UserLabelsOf(pvc)),
        Some(pvc.namespace),
        NonEmpty(StorageClassOf(pvc)),
        NonEmpty(pvc.volumeName)),
      HintsOf(pvc))
  }

  function VolumeOf(codec: QuantityCodec, pvc: PVC, instanceID: string): Volume {
    var latest := LatestTransition(pvc.conditions);
    Volume(instanceID, "volumes/" + instanceID, pvc.created,
           if latest.Some? then latest.value else pvc.created,
           SpecOf(codec, pvc), StatusOf(pvc).0)
  }

  // ---- Reading back what was built ----

  // What Create asks buildPVC for, given the id and the user's spec.
  function Requested(codec: QuantityCodec, spec: StorageSpec, cfg: Config, id: string): Result<PVC, StoreError> {
    var user := if spec.metadata.labels.Some? then spec.metadata.labels.value else map[];
    Build(codec, spec.(metadata := spec.metadata.(name := id)), cfg, MergeLabels(DcmLabels(id), user))
  }

  // The one spec whose meaning is not preserved: it asks for no storage class although a
  // default one is configured.
  predicate OptsOutOfDefaultClass(spec: StorageSpec, cfg: Config) {
    Hints(spec).storageClass == Some("") && cfg.defaultStorageClass != ""
  }

  lemma UserLabelsReturn(id: string, user: LabelSet)
    ensures MergeLabels(DcmLabels(id), user) - ReservedLabelKeys() == user - ReservedLabelKeys()
    ensures MergeLabels(DcmLabels(id), user - ReservedLabelKeys()) == MergeLabels(DcmLabels(id), user)
  {
  }

  // Rebuilding a PVC from the spec read back gives the same PVC, labels included, for every
  // accepted spec except one that opts out of a configured default class.
  lemma RoundTrip(codec: QuantityCodec, spec: StorageSpec, cfg: Config, id: string)
    requires Inverse(codec) && Requested(codec, spec, cfg, id).Ok?
    ensures var pvc := Requested(codec, spec, cfg, id).value;
            Requested(codec, SpecOf(codec, pvc), cfg, id) == Ok(pvc) <==> !OptsOutOfDefaultClass(spec, cfg)
  {
    var user := if spec.metadata.labels.Some? then spec.metadata.labels.value else map[];
    var pvc := Requested(codec, spec, cfg, id).value;
    UserLabelsReturn(id, user);
    var back := SpecOf(codec, pvc);
    var backUser := if back.metadata.labels.Some? then back.metadata.labels.value else map[];
    assert backUser == user - ReservedLabelKeys();
    assert codec.parse(back.capacity) == Some(pvc.request);
    assert Hints(back).accessMode == Some(pvc.accessModes[0]);
    assert Hints(back).volumeMode == pvc.volumeMode;
    assert Hints(back).storageClass == pvc.storageClassName;
  }

  // User labels come back as exactly the ones that are not reserved.
  lemma UserLabelsRoundTrip(codec: QuantityCodec, spec: StorageSpec, cfg: Config, id: string, key: string)
    requires Requested(codec, spec, cfg, id).Ok? && spec.metadata.labels.Some?
    ensures var user := spec.metadata.labels.value;
            var back := SpecOf(codec, Requested(codec, spec, cfg, id).value).metadata.labels;
            && (key in user && key !in ReservedLabelKeys() <==> back.Some? && key in back.value)
            && (back.Some? && key in back.value ==> back.value[key] == user[key])
  {
    UserLabelsReturn(id, spec.metadata.labels.value);
  }

  // The excepted spec is really lost: read back and rebuilt, it takes the default class.
  lemma OptOutIsLost(codec: QuantityCodec, spec: StorageSpec, cfg: Config, id: string)
    requires Inverse(codec) && Requested(codec, spec, cfg, id).Ok? && OptsOutOfDefaultClass(spec, cfg)
    ensures var pvc := Requested(codec, spec, cfg, id).value;
            && pvc.storageClassName == None
            && Requested(codec, SpecOf(codec, pvc), cfg, id)
            == Ok(pvc.(storageClassName := Some(cfg.defaultStorageClass)))
  {
    var user := if spec.metadata.labels.Some? then spec.metadata.labels.value else map[];
    var pvc := Requested(codec, spec, cfg, id).value;
    UserLabelsReturn(id, user);
    var back := SpecOf(codec, pvc);
    assert codec.parse(back.capacity) == Some(pvc.request);
    assert Hints(back).accessMode == Some(pvc.accessModes[0]);
  }
}
