/** The volume handler in front of the store: which requests get through, and as whom. */
module Handler {
  import opened Events
  import opened Volumes
  import opened VolumeStore
  import opened Paging
  import opened Patterns

  datatype Complaint =
    | MissingBody
    | WrongServiceType
    | MissingCapacity
    | MissingName
    | ReservedID(id: string)
    | MalformedID(id: string)
    | ReservedLabel

  datatype CreateRequest = CreateRequest(body: Option<StorageSpec>, id: Option<string>)

  datatype CreateResponse = Created(volume: Volume) | BadRequest(complaint: Complaint) | Failed(error: StoreError)

  const RESERVED_VOLUME_IDS: set<string> := {"health"}

  function ValidateVolumeID(id: string): Option<Complaint> {
    if id in RESERVED_VOLUME_IDS then Some(ReservedID(id))
    else if !IsVolumeID(id) then Some(MalformedID(id))
    else None
  }

  function ValidateCreateSpec(spec: StorageSpec): Option<Complaint> {
    if spec.serviceType != "storage" then Some(WrongServiceType)
    else if spec.capacity == "" then Some(MissingCapacity)
    else if spec.metadata.name == "" then Some(MissingName)
    else None
  }

  function ValidateUserLabels(labels: Option<LabelSet>): Option<Complaint> {
    if labels.Some? && labels.value.Keys * ReservedLabelKeys() != {} then Some(ReservedLabel) else None
  }

  // The identity a request asks for: the id parameter, or else the name in the body.
  function Identity(req: CreateRequest): string
    requires req.body.Some?
  {
    if req.id.Some? then req.id.value else req.body.value.metadata.name
  }

  // The first complaint about a request, if any.
  function Complaints(req: CreateRequest): Option<Complaint> {
    if req.body.None? then Some(MissingBody)
    else
      var id := Identity(req);
      var spec := req.body.value.(metadata := req.body.value.metadata.(name := id));
      if ValidateCreateSpec(spec).Some? then ValidateCreateSpec(spec)
      else if ValidateVolumeID(id).Some? then ValidateVolumeID(id)
      else ValidateUserLabels(spec.metadata.labels)
  }

  datatype Env = Env(codec: QuantityCodec, tokens: Tokens, cfg: Config)

  function CreateVolume(c: Cluster, env: Env, req: CreateRequest, stamp: Stamp): (CreateResponse, Cluster) {
    match Complaints(req)
    case Some(complaint) => (BadRequest(complaint), c)
    case None =>
      var (r, c') := VolumeStore.Create(c, env.codec, env.cfg, req.body.value, Identity(req), stamp);
      (if r.Ok? then Created(r.value) else Failed(r.error), c')
  }

  // ---- Runs of the handler ----

  datatype Request =
    | Create(req: CreateRequest, stamp: Stamp)
    | Get(id: string)
    | Delete(id: string)
    | List(size: int, token: string)

  // The namespace, and the ids of the volumes this handler created and has not deleted.
  datatype World = World(cluster: Cluster, created: set<string>)

  function Serve(env: Env, w: World, r: Request): World {
    match r
    case Create(req, stamp) =>
      var (resp, c') := CreateVolume(w.cluster, env, req, stamp);
      World(c', if resp.Created? then w.created + {resp.volume.id} else w.created)
    case Delete(id) =>
      var (e, c') := VolumeStore.Delete(w.cluster, id);
      World(c', if e.None? then w.created - {id} else w.created)
    case _ => w
  }

  function ServeAll(env: Env, w: World, rs: seq<Request>): World
    decreases |rs|
  {
    if rs == [] then w else ServeAll(env, Serve(env, w, rs[0]), rs[1..])
  }

  // A PVC whose name, instance id and managed labels agree, under an id that is allowed.
  predicate WellIdentified(c: Cluster, id: string) {
    && id in c.pvcs
    && c.pvcs[id].name == id
    && Label(c.pvcs[id].labels, LABEL_INSTANCE_ID) == id
    && IsDCMManaged(c.pvcs[id], id)
    && id != "health"
    && IsVolumeID(id)
  }

  ghost predicate AllIdentified(w: World) {
    WellFormed(w.cluster) && forall id :: id in w.created ==> WellIdentified(w.cluster, id)
  }

  // An accepted request names its volume by the id parameter when there is one, and that
  // volume is well identified; a rejected one changes nothing.
  lemma CreateIdentifies(env: Env, c: Cluster, req: CreateRequest, stamp: Stamp)
    requires WellFormed(c)
    ensures var (resp, c') := CreateVolume(c, env, req, stamp);
            && WellFormed(c')
            && (resp.Created? ==>
                  && req.body.Some? && resp.volume.id == Identity(req) && Identity(req) !in c.pvcs
                  && WellIdentified(c', Identity(req))
                  && c'.pvcs.Keys == c.pvcs.Keys + {Identity(req)}
                  && VolumeStore.Get(c', env.codec, Identity(req)) == Ok(resp.volume))
            && (!resp.Created? ==> c' == c)
            && forall n :: n in c.pvcs ==> n in c'.pvcs && c'.pvcs[n] == c.pvcs[n]
  {
    if Complaints(req).None? {
      CreateWellFormed(c, env.codec, env.cfg, req.body.value, Identity(req), stamp);
      if Requested(env.codec, req.body.value, env.cfg, Identity(req)).Ok? {
        RequestedName(env.codec, req.body.value, env.cfg, Identity(req));
      }
    }
  }

  lemma ServeKeeps(env: Env, w: World, r: Request)
    requires AllIdentified(w)
    ensures AllIdentified(Serve(env, w, r))
  {
    match r
    case Create(req, stamp) => CreateIdentifies(env, w.cluster, req, stamp);
    case Delete(id) => RemovedWellFormed(w.cluster, id);
    case _ =>
  }

  lemma {:induction false} ServeAllKeeps(env: Env, w: World, rs: seq<Request>)
    requires AllIdentified(w)
    ensures AllIdentified(ServeAll(env, w, rs))
    decreases |rs|
  {
    if rs != [] {
      ServeKeeps(env, w, rs[0]);
      ServeAllKeeps(env, Serve(env, w, rs[0]), rs[1..]);
    }
  }

  // In any run over any initial namespace, what the handler created and has not deleted is
  // well identified, found by Get, and shown exactly once by the pages of List.
  lemma IdentityOverRuns(env: Env, c: Cluster, rs: seq<Request>, sizes: nat -> int, id: string)
    requires WellFormed(c) && Recoverable(env.tokens)
    requires id in ServeAll(env, World(c, {}), rs).created
    ensures var end := ServeAll(env, World(c, {}), rs).cluster;
            && WellIdentified(end, id)
            && WellFormed(end)
            && var found := VolumeStore.Get(end, env.codec, id);
               && found.Ok? && found.value.id == id
               && found.value in Follow(end, env.codec, env.tokens, sizes, 0, "")
               && DistinctIds(Follow(end, env.codec, env.tokens, sizes, 0, ""))
  {
    ServeAllKeeps(env, World(c, {}), rs);
    var end := ServeAll(env, World(c, {}), rs).cluster;
    assert Managed(end, id);
    PagesAgreeWithGet(end, env.codec, env.tokens, sizes, id, VolumeOf(env.codec, end.pvcs[id], id));
  }

  // The pattern check in the handler is the published pattern.
  lemma AcceptedIDs(id: string)
    ensures ValidateVolumeID(id).None? <==> Matches(ID_PATTERN, id) && id != "health"
    ensures ValidateVolumeID(id).None? ==>
              Matches(NAME_PATTERN, id) && MIN_NAME_LENGTH <= |id| <= MAX_NAME_LENGTH
  {
    PatternsAgree(id);
  }
}
