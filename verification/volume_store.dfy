/**
 The volume store over a namespace of PVCs. The API server keeps the PVCs by name and lists
 them in some fixed order, a page at a time; it hands out opaque continue tokens.
 */
module VolumeStore {
  import opened Events
  import opened Volumes

  // ---- The API server ----

  datatype Cluster = Cluster(pvcs: map<string, PVC>, order: seq<string>, classes: set<string>)

  ghost predicate WellFormed(c: Cluster) {
    && Distinct(c.order)
    && (forall n :: n in c.order <==> n in c.pvcs)
    && (forall n :: n in c.pvcs ==> c.pvcs[n].name == n)
  }

  // What the server adds to a new object, and where it puts it in its listing order.
  datatype Stamp = Stamp(created: int, phase: string, position: nat)

  function Inserted(c: Cluster, pvc: PVC, stamp: Stamp): Cluster {
    var at := if stamp.position <= |c.order| then stamp.position else |c.order|;
    c.(pvcs := c.pvcs[pvc.name := Stamped(pvc, stamp)],
       order := c.order[..at] + [pvc.name] + c.order[at..])
  }

  function Stamped(pvc: PVC, stamp: Stamp): PVC {
    pvc.(created := stamp.created, phase := stamp.phase)
  }

  function Without(names: seq<string>, name: string): seq<string> {
    if names == [] then []
    else if names[0] == name then Without(names[1..], name)
    else [names[0]] + Without(names[1..], name)
  }

  function Removed(c: Cluster, name: string): Cluster {
    c.(pvcs := c.pvcs - {name}, order := Without(c.order, name))
  }

  predicate SelectedByLabels(pvc: PVC) {
    && Label(pvc.labels, LABEL_MANAGED_BY) == VALUE_MANAGED_BY
    && Label(pvc.labels, LABEL_SERVICE_TYPE) == VALUE_SERVICE_TYPE
  }

  // The names that match the label selector, in listing order.
  function Selected(c: Cluster, names: seq<string>): seq<string> {
    if names == [] then []
    else if names[0] in c.pvcs && SelectedByLabels(c.pvcs[names[0]]) then [names[0]] + Selected(c, names[1..])
    else Selected(c, names[1..])
  }

  lemma {:induction false} SelectedMembers(c: Cluster, names: seq<string>)
    ensures forall n :: n in Selected(c, names) <==> n in names && n in c.pvcs && SelectedByLabels(c.pvcs[n])
  {
    if names != [] {
      SelectedMembers(c, names[1..]);
      assert names == [names[0]] + names[1..];
    }
  }

  // Continue tokens: opaque strings from which the server recovers where it stopped.
  datatype Tokens = Tokens(encode: nat -> string, decode: string -> Option<nat>)

  ghost predicate Recoverable(tokens: Tokens) {
    forall n: nat :: tokens.encode(n) != "" && tokens.decode(tokens.encode(n)) == Some(n)
  }

  datatype Page = Page(items: seq<string>, continue_: string)

  function Min(a: nat, b: nat): nat { if a <= b then a else b }

  // One page of the selected names, or None for a token the server does not recognise.
  function ApiList(c: Cluster, tokens: Tokens, limit: nat, token: string): Option<Page> {
    var all := Selected(c, c.order);
    var offset := if token == "" then Some(0) else tokens.decode(token);
    if offset.None? then None
    else
      var from := Min(offset.value, |all|);
      var end := Min(from + limit, |all|);
      Some(Page(all[from..end], if end < |all| then tokens.encode(end) else ""))
  }

  // ---- The store ----

  predicate IsDCMManaged(pvc: PVC, id: string) {
    && Label(pvc.labels, LABEL_MANAGED_BY) == VALUE_MANAGED_BY
    && Label(pvc.labels, LABEL_SERVICE_TYPE) == VALUE_SERVICE_TYPE
    && Label(pvc.labels, LABEL_INSTANCE_ID) == id
  }

  predicate Managed(c: Cluster, id: string) {
    id in c.pvcs && IsDCMManaged(c.pvcs[id], id)
  }

  function Get(c: Cluster, codec: QuantityCodec, id: string): Result<Volume, StoreError> {
    if Managed(c, id) then Ok(VolumeOf(codec, c.pvcs[id], id)) else Err(NotFound(id))
  }

  // What Create does before it talks to the API server about the PVC.
  function Admit(classes: set<string>, codec: QuantityCodec, cfg: Config, spec: StorageSpec, id: string)
    : Result<PVC, StoreError>
  {
    var class_ := ResolveStorageClass(spec, cfg.defaultStorageClass);
    if class_ != "" && class_ !in classes then Err(FailedPrecondition(class_))
    else Requested(codec, spec, cfg, id)
  }

  function Create(c: Cluster, codec: QuantityCodec, cfg: Config, spec: StorageSpec, id: string, stamp: Stamp)
    : (Result<Volume, StoreError>, Cluster)
  {
    match Admit(c.classes, codec, cfg, spec, id)
    case Err(e) => (Err(e), c)
    case Ok(pvc) =>
      if id in c.pvcs then (Err(Conflict(id)), c)
      else (Ok(VolumeOf(codec, Stamped(pvc, stamp), id)), Inserted(c, pvc, stamp))
  }

  function Delete(c: Cluster, id: string): (Option<StoreError>, Cluster) {
    if Managed(c, id) then (None, Removed(c, id)) else (Some(NotFound(id)), c)
  }

  const DEFAULT_PAGE_SIZE: nat := 50
  const MAX_PAGE_SIZE: nat := 1000

  function NormalizePageSize(size: int): (n: nat)
    ensures 1 <= n <= MAX_PAGE_SIZE
    ensures 1 <= size <= MAX_PAGE_SIZE ==> n == size
    ensures size <= 0 ==> n == 50
    ensures size > 1000 ==> n == 1000
  {
    if size <= 0 then DEFAULT_PAGE_SIZE else if size > MAX_PAGE_SIZE then MAX_PAGE_SIZE else size
  }

  datatype VolumeList = VolumeList(volumes: seq<Volume>, nextPageToken: Option<string>)

  // The volumes among these names: those whose instance id is their name.
  function VolumesAmong(c: Cluster, codec: QuantityCodec, names: seq<string>): seq<Volume> {
    if names == [] then []
    else
      var front := VolumesAmong(c, codec, names[..|names| - 1]);
      var n := names[|names| - 1];
      if Managed(c, n) then front + [VolumeOf(codec, c.pvcs[n], n)] else front
  }

  function List(c: Cluster, codec: QuantityCodec, tokens: Tokens, size: int, token: string)
    : Result<VolumeList, StoreError>
  {
    match ApiList(c, tokens, NormalizePageSize(size), token)
    case None => Err(InvalidArgument(BadPageToken))
    case Some(page) =>
      Ok(VolumeList(VolumesAmong(c, codec, page.items), NonEmpty(page.continue_)))
  }

  // ---- The cluster stays well-formed ----

  ghost predicate Distinct(names: seq<string>) {
    forall i, j :: 0 <= i < j < |names| ==> names[i] != names[j]
  }

  lemma {:induction false} WithoutMembers(names: seq<string>, name: string)
    ensures forall n :: n in Without(names, name) <==> n in names && n != name
    ensures Distinct(names) ==> Distinct(Without(names, name))
  {
    if names != [] {
      WithoutMembers(names[1..], name);
      assert names == [names[0]] + names[1..];
      var rest := Without(names[1..], name);
      assert forall i :: 0 <= i < |rest| ==> rest[i] in rest;
    }
  }

  lemma InsertedWellFormed(c: Cluster, pvc: PVC, stamp: Stamp)
    requires WellFormed(c) && pvc.name !in c.pvcs
    ensures WellFormed(Inserted(c, pvc, stamp))
  {
    var c' := Inserted(c, pvc, stamp);
    var at := if stamp.position <= |c.order| then stamp.position else |c.order|;
    assert c.order == c.order[..at] + c.order[at..];
    forall n ensures n in c'.order <==> n in c'.pvcs {
      assert n in c'.order <==> n in c.order || n == pvc.name;
    }
  }

  lemma RemovedWellFormed(c: Cluster, name: string)
    requires WellFormed(c)
    ensures WellFormed(Removed(c, name))
  {
    WithoutMembers(c.order, name);
  }

  lemma RequestedName(codec: QuantityCodec, spec: StorageSpec, cfg: Config, id: string)
    requires Requested(codec, spec, cfg, id).Ok?
    ensures var pvc := Requested(codec, spec, cfg, id).value;
            pvc.name == id && forall stamp :: IsDCMManaged(Stamped(pvc, stamp), id)
  {
  }

  lemma CreateWellFormed(c: Cluster, codec: QuantityCodec, cfg: Config, spec: StorageSpec, id: string, stamp: Stamp)
    requires WellFormed(c)
    ensures WellFormed(Create(c, codec, cfg, spec, id, stamp).1)
  {
    if Requested(codec, spec, cfg, id).Ok? {
      RequestedName(codec, spec, cfg, id);
      if id !in c.pvcs { InsertedWellFormed(c, Requested(codec, spec, cfg, id).value, stamp); }
    }
  }
}
