/** The store object, in front of an API server that keeps the PVCs of its namespace. */
module StoreObject {
  import opened Events
  import opened Volumes
  import opened VolumeStore
  import opened Handler

  // Reading and writing the namespace; each call is atomic.
  class ApiServer {
    var pvcs: map<string, PVC>
    var order: seq<string>
    var classes: set<string>
    const tokens: Tokens

    constructor (classes: set<string>, tokens: Tokens)
      ensures Valid() && State() == Cluster(map[], [], classes) && this.tokens == tokens
    {
      pvcs, order, this.classes, this.tokens := map[], [], classes, tokens;
    }

    function State(): Cluster
      reads this
    {
      Cluster(pvcs, order, classes)
    }

    ghost predicate Valid()
      reads this
    {
      WellFormed(State())
    }

    method GetStorageClass(name: string) returns (found: bool)
      ensures found == (name in classes)
    {
      found := name in classes;
    }

    method GetPVC(name: string) returns (pvc: Option<PVC>)
      ensures pvc == if name in pvcs then Some(pvcs[name]) else None
    {
      pvc := if name in pvcs then Some(pvcs[name]) else None;
    }

    // None when the name is taken.
    method CreatePVC(pvc: PVC, stamp: Stamp) returns (created: Option<PVC>)
      requires Valid()
      modifies this`pvcs, this`order
      ensures Valid()
      ensures if pvc.name in old(pvcs) then created == None && State() == old(State())
              else created == Some(Stamped(pvc, stamp)) && State() == Inserted(old(State()), pvc, stamp)
    {
      if pvc.name in pvcs { return None; }
      InsertedWellFormed(State(), pvc, stamp);
      var after := Inserted(State(), pvc, stamp);
      pvcs, order := after.pvcs, after.order;
      created := Some(pvcs[pvc.name]);
    }

    // False when there is no such object.
    method DeletePVC(name: string) returns (found: bool)
      requires Valid()
      modifies this`pvcs, this`order
      ensures Valid() && found == (name in old(pvcs))
      ensures State() == if found then Removed(old(State()), name) else old(State())
    {
      if name !in pvcs { return false; }
      RemovedWellFormed(State(), name);
      var after := Removed(State(), name);
      pvcs, order := after.pvcs, after.order;
      found := true;
    }

    method ListPVCs(limit: nat, token: string) returns (page: Option<Page>, items: seq<PVC>)
      requires Valid()
      ensures page == ApiList(State(), tokens, limit, token)
      ensures page.Some? ==> |items| == |page.value.items| && (forall n :: n in page.value.items ==> n in pvcs)
      ensures page.Some? ==> forall i :: 0 <= i < |items| ==> items[i] == pvcs[page.value.items[i]]
    {
      page := ApiList(State(), tokens, limit, token);
      items := [];
      if page.Some? {
        SelectedMembers(State(), order);
        var names := page.value.items;
        for i := 0 to |names|
          invariant |items| == i
          invariant forall j :: 0 <= j < i ==> items[j] == pvcs[names[j]]
        {
          items := items + [pvcs[names[i]]];
        }
      }
    }
  }

  // One more PVC of a page.
  lemma AmongNext(c: Cluster, codec: QuantityCodec, names: seq<string>, i: nat)
    requires i < |names| && names[i] in c.pvcs
    ensures VolumesAmong(c, codec, names[..i + 1])
         == VolumesAmong(c, codec, names[..i])
          + if IsDCMManaged(c.pvcs[names[i]], names[i]) then [VolumeOf(codec, c.pvcs[names[i]], names[i])] else []
  {
    assert names[..i + 1][..i] == names[..i];
  }

  class K8sVolumeStore {
    const client: ApiServer
    const cfg: Config
    const codec: QuantityCodec

    constructor (client: ApiServer, cfg: Config, codec: QuantityCodec)
      ensures this.client == client && this.cfg == cfg && this.codec == codec
    {
      this.client, this.cfg, this.codec := client, cfg, codec;
    }

    method FindPVC(id: string) returns (r: Result<PVC, StoreError>)
      requires client.Valid()
      ensures r == if Managed(client.State(), id) then Ok(client.pvcs[id]) else Err(NotFound(id))
    {
      var pvc := client.GetPVC(id);
      if pvc.None? { return Err(NotFound(id)); }
      if !IsDCMManaged(pvc.value, id) { return Err(NotFound(id)); }
      return Ok(pvc.value);
    }

    method Get(id: string) returns (r: Result<Volume, StoreError>)
      requires client.Valid()
      ensures r == VolumeStore.Get(client.State(), codec, id)
    {
      var pvc := FindPVC(id);
      if pvc.Err? { return Err(pvc.error); }
      return Ok(VolumeOf(codec, pvc.value, id));
    }

    method Create(spec: StorageSpec, id: string, stamp: Stamp) returns (r: Result<Volume, StoreError>)
      requires client.Valid()
      modifies client`pvcs, client`order
      ensures client.Valid()
      ensures (r, client.State()) == VolumeStore.Create(old(client.State()), codec, cfg, spec, id, stamp)
    {
      var spec' := spec.(metadata := spec.metadata.(name := id));
      var labels := DcmLabels(id);
      if spec'.metadata.labels.Some? {
        labels := MergeLabels(labels, spec'.metadata.labels.value);
      }
      assert labels == MergeLabels(DcmLabels(id),
                                   if spec.metadata.labels.Some? then spec.metadata.labels.value else map[]);
      var storageClass := ResolveStorageClass(spec', cfg.defaultStorageClass);
      if storageClass != "" {
        var found := client.GetStorageClass(storageClass);
        if !found { return Err(FailedPrecondition(storageClass)); }
      }
      var pvc := BuildPVC(codec, spec', cfg, labels);
      if pvc.Err? { return Err(pvc.error); }
      var created := client.CreatePVC(pvc.value, stamp);
      if created.None? { return Err(Conflict(id)); }
      return Ok(VolumeOf(codec, created.value, id));
    }

    method Delete(id: string) returns (e: Option<StoreError>)
      requires client.Valid()
      modifies client`pvcs, client`order
      ensures client.Valid()
      ensures (e, client.State()) == VolumeStore.Delete(old(client.State()), id)
    {
      var pvc := FindPVC(id);
      if pvc.Err? { return Some(pvc.error); }
      var found := client.DeletePVC(pvc.value.name);
      // A PVC that is already gone counts as deleted.
      return None;
    }

    method List(maxPageSize: int, pageToken: string) returns (r: Result<VolumeList, StoreError>)
      requires client.Valid()
      ensures r == VolumeStore.List(client.State(), codec, client.tokens, maxPageSize, pageToken)
    {
      var page, items := client.ListPVCs(NormalizePageSize(maxPageSize), pageToken);
      if page.None? { return Err(InvalidArgument(BadPageToken)); }
      var names := page.value.items;
      var volumes: seq<Volume> := [];
      for i := 0 to |items|
        invariant volumes == VolumesAmong(client.State(), codec, names[..i])
      {
        var pvc := items[i];
        AmongNext(client.State(), codec, names, i);
        if !IsDCMManaged(pvc, pvc.name) { continue; }
        volumes := volumes + [VolumeOf(codec, pvc, pvc.name)];
      }
      assert names[..|items|] == names;
      var next: Option<string> := None;
      if page.value.continue_ != "" {
        next := Some(page.value.continue_);
      }
      return Ok(VolumeList(volumes, next));
    }
  }

  // The handler's CreateVolume, which settles the identity before it validates.
  method HandleCreate(store: K8sVolumeStore, req: CreateRequest, stamp: Stamp) returns (resp: CreateResponse)
    requires store.client.Valid()
    modifies store.client`pvcs, store.client`order
    ensures store.client.Valid()
    ensures (resp, store.client.State())
         == CreateVolume(old(store.client.State()), Env(store.codec, store.client.tokens, store.cfg), req, stamp)
  {
    if req.body.None? { return BadRequest(MissingBody); }
    var spec := req.body.value;
    var id := spec.metadata.name;
    if req.id.Some? {
      id := req.id.value;
      spec := spec.(metadata := spec.metadata.(name := id));
    }
    var complaint := ValidateCreateSpec(spec);
    if complaint.Some? { return BadRequest(complaint.value); }
    complaint := ValidateVolumeID(id);
    if complaint.Some? { return BadRequest(complaint.value); }
    complaint := ValidateUserLabels(spec.metadata.labels);
    if complaint.Some? { return BadRequest(complaint.value); }
    var r := store.Create(spec, id, stamp);
    return if r.Ok? then Created(r.value) else Failed(r.error);
  }
}
