/**
 What a request asks for and what becomes of it, told from the request's own fields: the PVC
 that Create makes, the volume it shows, and the requests that are turned away.
 */
module Requests {
  import opened Events
  import opened Volumes
  import opened VolumeStore
  import opened Handler
  import opened Patterns

  // ---- What a spec asks for ----

  // The Kubernetes hints of a spec; one without any asks for nothing in particular.
  predicate Hinted(spec: StorageSpec, h: KubernetesHints) {
    match spec.providerHints
    case Some(ProviderHints(Some(hints))) => h == hints
    case _ => h == KubernetesHints(None, None, None)
  }

  // The access mode is the hinted one, else the configured one, else ReadWriteOnce.
  predicate WantsMode(h: KubernetesHints, cfg: Config, mode: string) {
    || h.accessMode == Some(mode)
    || (h.accessMode.None? && cfg.defaultAccessMode != "" && mode == cfg.defaultAccessMode)
    || (h.accessMode.None? && cfg.defaultAccessMode == "" && mode == "ReadWriteOnce")
  }

  // The class is the hinted one, even the empty one, else the configured one.
  predicate WantsClass(h: KubernetesHints, cfg: Config, class_: string) {
    h.storageClass == Some(class_) || (h.storageClass.None? && class_ == cfg.defaultStorageClass)
  }

  predicate KnownMode(mode: string) { mode in {"ReadWriteOnce", "ReadOnlyMany", "ReadWriteMany"} }

  predicate KnownVolumeMode(mode: Option<string>) { mode.Some? ==> mode.value in {"Filesystem", "Block"} }

  predicate KnownClass(c: Cluster, class_: string) { class_ == "" || class_ in c.classes }

  // Create accepts a spec exactly if its class exists or is empty, its capacity parses, both
  // modes are supported and the name is free; the first of these that fails gives the error.
  lemma CreateDecides(c: Cluster, codec: QuantityCodec, cfg: Config, spec: StorageSpec, id: string, stamp: Stamp,
                      h: KubernetesHints, mode: string, class_: string)
    requires Hinted(spec, h) && WantsMode(h, cfg, mode) && WantsClass(h, cfg, class_)
    ensures var (r, c') := VolumeStore.Create(c, codec, cfg, spec, id, stamp);
            && (r.Ok? <==>
                  && KnownClass(c, class_) && codec.parse(spec.capacity).Some?
                  && KnownMode(mode) && KnownVolumeMode(h.volumeMode) && id !in c.pvcs)
            && (r.Err? ==> c' == c)
            && (r == Err(FailedPrecondition(class_)) <==> !KnownClass(c, class_))
            && (r == Err(InvalidArgument(BadCapacity(spec.capacity))) <==>
                  KnownClass(c, class_) && codec.parse(spec.capacity).None?)
            && (r == Err(InvalidArgument(if h.accessMode.Some? then BadAccessMode(mode)
                                         else BadDefaultAccessMode(mode)))
                <==> KnownClass(c, class_) && codec.parse(spec.capacity).Some? && !KnownMode(mode))
            && (r.Err? && r.error.InvalidArgument? && r.error.reason.BadVolumeMode? <==>
                  && KnownClass(c, class_) && codec.parse(spec.capacity).Some? && KnownMode(mode)
                  && !KnownVolumeMode(h.volumeMode))
            && (r == Err(Conflict(id)) <==>
                  && KnownClass(c, class_) && codec.parse(spec.capacity).Some? && KnownMode(mode)
                  && KnownVolumeMode(h.volumeMode) && id in c.pvcs)
  {
  }

  // The PVC it then makes.
  lemma CreatedPVC(c: Cluster, codec: QuantityCodec, cfg: Config, spec: StorageSpec, id: string, stamp: Stamp,
                   h: KubernetesHints, mode: string, class_: string)
    requires Hinted(spec, h) && WantsMode(h, cfg, mode) && WantsClass(h, cfg, class_)
    requires VolumeStore.Create(c, codec, cfg, spec, id, stamp).0.Ok?
    ensures var c' := VolumeStore.Create(c, codec, cfg, spec, id, stamp).1;
            && c'.classes == c.classes && c'.pvcs.Keys == c.pvcs.Keys + {id}
            && (forall n :: n in c.pvcs ==> c'.pvcs[n] == c.pvcs[n])
            && var pvc := c'.pvcs[id];
               && pvc.name == id && pvc.namespace == cfg.namespace
               && Some(pvc.request) == codec.parse(spec.capacity)
               && pvc.accessModes == [mode]
               && pvc.storageClassName == (if class_ == "" then None else Some(class_))
               && pvc.volumeMode == h.volumeMode
               && pvc.created == stamp.created && pvc.phase == stamp.phase
               && !pvc.deleting && pvc.volumeName == "" && pvc.conditions == []
  {
  }

  // Its labels: the three of DCM, and the user's others.
  lemma CreatedLabels(c: Cluster, codec: QuantityCodec, cfg: Config, spec: StorageSpec, id: string, stamp: Stamp,
                      key: string)
    requires VolumeStore.Create(c, codec, cfg, spec, id, stamp).0.Ok?
    ensures var labels := VolumeStore.Create(c, codec, cfg, spec, id, stamp).1.pvcs[id].labels;
            && (key == "dcm.project/managed-by" ==> key in labels && labels[key] == "dcm")
            && (key == "dcm.project/dcm-service-type" ==> key in labels && labels[key] == "storage")
            && (key == "dcm.project/dcm-instance-id" ==> key in labels && labels[key] == id)
            && (!DCMKey(key) ==>
                  && (key in labels <==> spec.metadata.labels.Some? && key in spec.metadata.labels.value)
                  && (key in labels ==> labels[key] == spec.metadata.labels.value[key]))
  {
  }

  predicate DCMKey(key: string) {
    key in {"dcm.project/managed-by", "dcm.project/dcm-service-type", "dcm.project/dcm-instance-id"}
  }

  // ---- What a volume shows of its PVC ----

  // Its time of change: the newest condition's, or that of its creation.
  ghost predicate ChangedAt(pvc: PVC, t: int) {
    if forall c :: c in pvc.conditions ==> c.lastTransition == 0 then t == pvc.created
    else
      && (exists c :: c in pvc.conditions && c.lastTransition == t && t != 0)
      && forall c :: c in pvc.conditions && c.lastTransition != 0 ==> c.lastTransition <= t
  }

  lemma VolumeShows(codec: QuantityCodec, pvc: PVC, id: string)
    ensures var v := VolumeOf(codec, pvc, id);
            && v.id == id && v.path == "volumes/" + id
            && v.createTime == pvc.created && ChangedAt(pvc, v.updateTime)
            && v.status == StatusOf(pvc).0
            && v.spec.serviceType == "storage" && v.spec.capacity == codec.render(pvc.request)
            && v.spec.metadata.name == pvc.name && v.spec.metadata.namespace == Some(pvc.namespace)
            && (v.spec.metadata.volumeName == if pvc.volumeName == "" then None else Some(pvc.volumeName))
            && (forall s :: v.spec.metadata.storageClass == Some(s) <==> s != "" && pvc.storageClassName == Some(s))
            && (v.spec.metadata.labels.Some? <==> exists k :: k in pvc.labels && !DCMKey(k))
    ensures var v := VolumeOf(codec, pvc, id);
            forall k :: v.spec.metadata.labels.Some? ==>
              && (k in v.spec.metadata.labels.value <==> k in pvc.labels && !DCMKey(k))
              && (k in v.spec.metadata.labels.value ==> v.spec.metadata.labels.value[k] == pvc.labels[k])
  {
    assert forall k :: k in UserLabelsOf(pvc) <==> k in pvc.labels && !DCMKey(k);
    if k :| k in pvc.labels && !DCMKey(k) { assert k in UserLabelsOf(pvc); }
  }

  lemma HintsShow(codec: QuantityCodec, pvc: PVC, id: string, h: KubernetesHints)
    requires Hinted(VolumeOf(codec, pvc, id).spec, h)
    ensures forall s :: h.storageClass == Some(s) <==> s != "" && pvc.storageClassName == Some(s)
    ensures h.volumeMode == pvc.volumeMode
    ensures h.accessMode == if pvc.accessModes == [] then None else Some(pvc.accessModes[0])
  {
  }

  // ---- Who a request is for, and which ones are turned away ----

  lemma CreatedUnder(c: Cluster, codec: QuantityCodec, cfg: Config, spec: StorageSpec, id: string, stamp: Stamp)
    requires VolumeStore.Create(c, codec, cfg, spec, id, stamp).0.Ok?
    ensures var (r, c') := VolumeStore.Create(c, codec, cfg, spec, id, stamp);
            && r.value.id == id && r.value.path == "volumes/" + id && r.value.spec.metadata.name == id
            && id !in c.pvcs && c'.pvcs.Keys == c.pvcs.Keys + {id} && c'.pvcs[id].name == id
            && "dcm.project/dcm-instance-id" in c'.pvcs[id].labels
            && c'.pvcs[id].labels["dcm.project/dcm-instance-id"] == id
  {
    CreatedLabels(c, codec, cfg, spec, id, stamp, "dcm.project/dcm-instance-id");
  }

  // A created volume bears the id parameter if the request has one, and the body's name
  // otherwise: in the answer, as the PVC's name, and in its instance-id label.
  lemma CreatedAs(env: Env, c: Cluster, req: CreateRequest, stamp: Stamp, x: string)
    requires WellFormed(c) && CreateVolume(c, env, req, stamp).0.Created?
    requires req.body.Some? && (req.id == Some(x) || (req.id.None? && req.body.value.metadata.name == x))
    ensures var (resp, c') := CreateVolume(c, env, req, stamp);
            && resp.volume.id == x && resp.volume.path == "volumes/" + x && resp.volume.spec.metadata.name == x
            && x !in c.pvcs && c'.pvcs.Keys == c.pvcs.Keys + {x} && c'.pvcs[x].name == x
            && "dcm.project/dcm-instance-id" in c'.pvcs[x].labels
            && c'.pvcs[x].labels["dcm.project/dcm-instance-id"] == x
  {
    StoreAnswers(env, c, req, stamp, x);
    CreatedUnder(c, env.codec, env.cfg, req.body.value, x, stamp);
  }

  // The id a request would have its volume under.
  predicate AsksFor(req: CreateRequest, x: string) {
    req.body.Some? && if req.id.Some? then x == req.id.value else x == req.body.value.metadata.name
  }

  ghost predicate UsesDCMKey(spec: StorageSpec) {
    spec.metadata.labels.Some? && exists k :: k in spec.metadata.labels.value && DCMKey(k)
  }

  // A request is turned away before the store sees it exactly if it has no body, is for another
  // service, has no capacity, has no or a malformed or reserved id, or uses a label of DCM's.
  lemma TurnedAway(env: Env, c: Cluster, req: CreateRequest, stamp: Stamp, x: string)
    requires AsksFor(req, x)
    ensures var spec, resp := req.body.value, CreateVolume(c, env, req, stamp).0;
            resp.BadRequest? <==>
              || spec.serviceType != "storage" || spec.capacity == "" || x == "" || x == "health"
              || !Matches(ID_PATTERN, x) || UsesDCMKey(spec)
  {
    PatternsAgree(x);
    KeysMeet(req.body.value);
  }

  // The first complaint in that order is the one that is answered.
  lemma FirstComplaint(env: Env, c: Cluster, req: CreateRequest, stamp: Stamp, x: string)
    requires AsksFor(req, x)
    ensures var spec, resp := req.body.value, CreateVolume(c, env, req, stamp).0;
            && (resp == BadRequest(WrongServiceType) <==> spec.serviceType != "storage")
            && (resp == BadRequest(MissingCapacity) <==> spec.serviceType == "storage" && spec.capacity == "")
            && (resp == BadRequest(MissingName) <==>
                  spec.serviceType == "storage" && spec.capacity != "" && x == "")
            && (resp == BadRequest(ReservedID(x)) <==>
                  spec.serviceType == "storage" && spec.capacity != "" && x == "health")
            && (resp == BadRequest(MalformedID(x)) <==>
                  && spec.serviceType == "storage" && spec.capacity != "" && x != "" && x != "health"
                  && !Matches(ID_PATTERN, x))
            && (resp == BadRequest(ReservedLabel) <==>
                  && spec.serviceType == "storage" && spec.capacity != "" && x != "" && x != "health"
                  && Matches(ID_PATTERN, x) && UsesDCMKey(spec))
  {
    PatternsAgree(x);
    KeysMeet(req.body.value);
  }

  lemma KeysMeet(spec: StorageSpec)
    ensures ValidateUserLabels(spec.metadata.labels).Some? <==> UsesDCMKey(spec)
  {
    if spec.metadata.labels.Some? {
      var keys := spec.metadata.labels.value.Keys * ReservedLabelKeys();
      if UsesDCMKey(spec) {
        var k :| k in spec.metadata.labels.value && DCMKey(k);
        assert k in keys;
      }
      if keys != {} {
        var k :| k in keys;
        assert DCMKey(k);
      }
    }
  }

  // Without a body the request is turned away, and any request that is not turned away is
  // answered as the store's Create answers for that id.
  lemma StoreAnswers(env: Env, c: Cluster, req: CreateRequest, stamp: Stamp, x: string)
    ensures req.body.None? ==> CreateVolume(c, env, req, stamp) == (BadRequest(MissingBody), c)
    ensures AsksFor(req, x) && !CreateVolume(c, env, req, stamp).0.BadRequest? ==>
              var (r, c') := VolumeStore.Create(c, env.codec, env.cfg, req.body.value, x, stamp);
              CreateVolume(c, env, req, stamp) == (if r.Ok? then Created(r.value) else Failed(r.error), c')
    ensures CreateVolume(c, env, req, stamp).0.BadRequest? ==> CreateVolume(c, env, req, stamp).1 == c
  {
  }
}
