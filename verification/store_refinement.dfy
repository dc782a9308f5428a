/**
 With no outside writer, the store over PVCs behaves like a plain map from id to volume,
 and PVCs that are not its own are never shown, changed or deleted.
 */
module StoreRefinement {
  import opened Events
  import opened Volumes
  import opened VolumeStore
  import opened Paging

  // The plain map, and the names that somebody else's PVCs occupy.
  datatype Shelf = Shelf(volumes: map<string, Volume>, taken: set<string>)

  ghost function ShelfOf(c: Cluster, codec: QuantityCodec): Shelf {
    Shelf(map id | id in c.pvcs && Managed(c, id) :: VolumeOf(codec, c.pvcs[id], id),
          set id | id in c.pvcs && !Managed(c, id))
  }

  datatype Op =
    | Create(spec: StorageSpec, id: string, stamp: Stamp)
    | Get(id: string)
    | Delete(id: string)
    | ListAll(sizes: nat -> int)

  datatype Seen =
    | Answer(result: Result<Volume, StoreError>)
    | Removal(error: Option<StoreError>)
    | Listed(volumes: map<string, Volume>)

  // What surrounds the store and does not change.
  datatype Env = Env(codec: QuantityCodec, tokens: Tokens, cfg: Config, classes: set<string>)

  // ---- The store's answer to an operation, and the plain map's ----

  function ById(vs: seq<Volume>): map<string, Volume> {
    if vs == [] then map[] else ById(vs[..|vs| - 1])[vs[|vs| - 1].id := vs[|vs| - 1]]
  }

  ghost function StoreStep(env: Env, c: Cluster, op: Op): (Seen, Cluster)
    requires WellFormed(c) && Recoverable(env.tokens)
  {
    match op
    case Create(spec, id, stamp) =>
      var (r, c') := VolumeStore.Create(c, env.codec, env.cfg, spec, id, stamp); (Answer(r), c')
    case Get(id) => (Answer(VolumeStore.Get(c, env.codec, id)), c)
    case Delete(id) => var (e, c') := VolumeStore.Delete(c, id); (Removal(e), c')
    case ListAll(sizes) => (Listed(ById(Follow(c, env.codec, env.tokens, sizes, 0, ""))), c)
  }

  function ShelfStep(env: Env, a: Shelf, op: Op): (Seen, Shelf) {
    match op
    case Create(spec, id, stamp) =>
      (match Admit(env.classes, env.codec, env.cfg, spec, id)
       case Err(e) => (Answer(Err(e)), a)
       case Ok(pvc) =>
         if id in a.volumes || id in a.taken then (Answer(Err(Conflict(id))), a)
         else
           var v := VolumeOf(env.codec, Stamped(pvc, stamp), id);
           (Answer(Ok(v)), a.(volumes := a.volumes[id := v])))
    case Get(id) => (Answer(if id in a.volumes then Ok(a.volumes[id]) else Err(NotFound(id))), a)
    case Delete(id) =>
      if id in a.volumes then (Removal(None), a.(volumes := a.volumes - {id})) else (Removal(Some(NotFound(id))), a)
    case ListAll(_) => (Listed(a.volumes), a)
  }

  // ---- One operation ----

  lemma InsertedManaged(c: Cluster, id: string, pvc: PVC, c': Cluster, n: string)
    requires id !in c.pvcs && IsDCMManaged(pvc, id) && c'.pvcs == c.pvcs[id := pvc]
    ensures Managed(c', n) <==> n == id || Managed(c, n)
  {
  }

  lemma InsertedTaken(c: Cluster, codec: QuantityCodec, id: string, pvc: PVC, c': Cluster)
    requires id !in c.pvcs && IsDCMManaged(pvc, id) && c'.pvcs == c.pvcs[id := pvc]
    ensures ShelfOf(c', codec).taken == ShelfOf(c, codec).taken
  {
    forall n ensures n in ShelfOf(c', codec).taken <==> n in ShelfOf(c, codec).taken {
      InsertedManaged(c, id, pvc, c', n);
    }
  }

  lemma InsertedVolume(c: Cluster, codec: QuantityCodec, id: string, pvc: PVC, c': Cluster, n: string)
    requires id !in c.pvcs && IsDCMManaged(pvc, id) && c'.pvcs == c.pvcs[id := pvc]
    ensures n in ShelfOf(c', codec).volumes <==> n == id || n in ShelfOf(c, codec).volumes
    ensures n in ShelfOf(c', codec).volumes ==>
              ShelfOf(c', codec).volumes[n]
              == if n == id then VolumeOf(codec, pvc, id) else ShelfOf(c, codec).volumes[n]
  {
    InsertedManaged(c, id, pvc, c', n);
  }

  lemma InsertedShelf(c: Cluster, codec: QuantityCodec, id: string, pvc: PVC, c': Cluster)
    requires id !in c.pvcs && IsDCMManaged(pvc, id) && c'.pvcs == c.pvcs[id := pvc]
    ensures ShelfOf(c', codec)
         == ShelfOf(c, codec).(volumes := ShelfOf(c, codec).volumes[id := VolumeOf(codec, pvc, id)])
  {
    var v := VolumeOf(codec, pvc, id);
    var before, after := ShelfOf(c, codec).volumes, ShelfOf(c', codec).volumes;
    InsertedTaken(c, codec, id, pvc, c');
    forall n ensures n in after <==> n in before[id := v]
             ensures n in after ==> after[n] == before[id := v][n]
    {
      InsertedVolume(c, codec, id, pvc, c', n);
    }
    SameMap(after, before[id := v]);
  }

  lemma SameMap<K, V>(m: map<K, V>, m': map<K, V>)
    requires forall k :: k in m <==> k in m'
    requires forall k :: k in m ==> m[k] == m'[k]
    ensures m == m'
  {
  }

  lemma RemovedManaged(c: Cluster, id: string, n: string)
    ensures Managed(Removed(c, id), n) <==> n != id && Managed(c, n)
  {
  }

  lemma RemovedName(c: Cluster, codec: QuantityCodec, id: string, n: string)
    requires Managed(c, id)
    ensures var before, after := ShelfOf(c, codec), ShelfOf(Removed(c, id), codec);
            && (n in after.taken <==> n in before.taken)
            && (n in after.volumes <==> n != id && n in before.volumes)
            && (n in after.volumes ==> after.volumes[n] == before.volumes[n])
  {
    RemovedManaged(c, id, n);
  }

  lemma RemovedShelf(c: Cluster, codec: QuantityCodec, id: string)
    requires Managed(c, id)
    ensures ShelfOf(Removed(c, id), codec)
         == ShelfOf(c, codec).(volumes := ShelfOf(c, codec).volumes - {id})
  {
    var before, after := ShelfOf(c, codec), ShelfOf(Removed(c, id), codec);
    forall n ensures n in after.taken <==> n in before.taken
             ensures n in after.volumes <==> n in before.volumes - {id}
             ensures n in after.volumes ==> after.volumes[n] == (before.volumes - {id})[n]
    {
      RemovedName(c, codec, id, n);
    }
    SameMap(after.volumes, before.volumes - {id});
  }

  lemma ShelfKnows(c: Cluster, codec: QuantityCodec, id: string)
    ensures id in c.pvcs <==> id in ShelfOf(c, codec).volumes || id in ShelfOf(c, codec).taken
    ensures Managed(c, id) <==> id in ShelfOf(c, codec).volumes
  {
  }

  lemma CreateRefines(env: Env, c: Cluster, spec: StorageSpec, id: string, stamp: Stamp)
    requires WellFormed(c) && c.classes == env.classes
    ensures var (r, c') := VolumeStore.Create(c, env.codec, env.cfg, spec, id, stamp);
            && ShelfStep(env, ShelfOf(c, env.codec), Create(spec, id, stamp)) == (Answer(r), ShelfOf(c', env.codec))
            && (r.Err? ==> c' == c)
  {
    ShelfKnows(c, env.codec, id);
    var c' := VolumeStore.Create(c, env.codec, env.cfg, spec, id, stamp).1;
    var admitted := Admit(env.classes, env.codec, env.cfg, spec, id);
    if admitted.Ok? && id !in c.pvcs {
      RequestedName(env.codec, spec, env.cfg, id);
      InsertedShelf(c, env.codec, id, Stamped(admitted.value, stamp), c');
    }
  }

  lemma DeleteRefines(env: Env, c: Cluster, id: string)
    requires WellFormed(c)
    ensures var (e, c') := VolumeStore.Delete(c, id);
            ShelfStep(env, ShelfOf(c, env.codec), Delete(id)) == (Removal(e), ShelfOf(c', env.codec))
  {
    ShelfKnows(c, env.codec, id);
    if Managed(c, id) {
      RemovedShelf(c, env.codec, id);
    }
  }

  lemma {:induction false} ByIdLooksUp(vs: seq<Volume>, id: string)
    requires DistinctIds(vs)
    ensures id in ById(vs) ==> ById(vs)[id] in vs && ById(vs)[id].id == id
    ensures forall v :: v in vs && v.id == id ==> id in ById(vs) && ById(vs)[id] == v
  {
    if vs != [] {
      var last := |vs| - 1;
      assert vs == vs[..last] + [vs[last]];
      ByIdLooksUp(vs[..last], id);
      assert forall i :: 0 <= i < last ==> vs[i].id != vs[last].id;
    }
  }

  lemma PagesShowShelf(env: Env, c: Cluster, sizes: nat -> int, id: string)
    requires WellFormed(c) && Recoverable(env.tokens)
    requires DistinctIds(Follow(c, env.codec, env.tokens, sizes, 0, ""))
    ensures var shown, shelf := ById(Follow(c, env.codec, env.tokens, sizes, 0, "")), ShelfOf(c, env.codec).volumes;
            && (id in shown <==> id in shelf)
            && (id in shown ==> shown[id] == shelf[id])
  {
    var vs := Follow(c, env.codec, env.tokens, sizes, 0, "");
    ByIdLooksUp(vs, id);
    if id in ById(vs) {
      PagesAgreeWithGet(c, env.codec, env.tokens, sizes, id, ById(vs)[id]);
    }
    if id in ShelfOf(c, env.codec).volumes {
      PagesAgreeWithGet(c, env.codec, env.tokens, sizes, id, ShelfOf(c, env.codec).volumes[id]);
    }
  }

  lemma ListRefines(env: Env, c: Cluster, sizes: nat -> int)
    requires WellFormed(c) && Recoverable(env.tokens)
    ensures ById(Follow(c, env.codec, env.tokens, sizes, 0, "")) == ShelfOf(c, env.codec).volumes
  {
    var shown, shelf := ById(Follow(c, env.codec, env.tokens, sizes, 0, "")), ShelfOf(c, env.codec).volumes;
    PagesAreListing(c, env.codec, env.tokens, sizes);
    AmongDistinct(c, env.codec, c.order);
    forall id ensures id in shown <==> id in shelf
              ensures id in shown ==> shown[id] == shelf[id]
    {
      PagesShowShelf(env, c, sizes, id);
    }
    SameMap(shown, shelf);
  }

  lemma StepRefines(env: Env, c: Cluster, op: Op)
    requires WellFormed(c) && Recoverable(env.tokens) && c.classes == env.classes
    ensures var (seen, c') := StoreStep(env, c, op);
            && WellFormed(c') && c'.classes == c.classes
            && ShelfStep(env, ShelfOf(c, env.codec), op) == (seen, ShelfOf(c', env.codec))
  {
    match op
    case Create(spec, id, stamp) =>
      CreateRefines(env, c, spec, id, stamp);
      CreateWellFormed(c, env.codec, env.cfg, spec, id, stamp);
    case Get(_) =>
    case Delete(id) =>
      DeleteRefines(env, c, id);
      RemovedWellFormed(c, id);
    case ListAll(sizes) => ListRefines(env, c, sizes);
  }

  // A PVC that is not the store's own survives every operation as it is.
  lemma ForeignStays(env: Env, c: Cluster, op: Op, name: string)
    requires WellFormed(c) && Recoverable(env.tokens) && name in c.pvcs && !Managed(c, name)
    ensures var c' := StoreStep(env, c, op).1;
            name in c'.pvcs && c'.pvcs[name] == c.pvcs[name] && !Managed(c', name)
  {
    if op.Create? && Requested(env.codec, op.spec, env.cfg, op.id).Ok? {
      RequestedName(env.codec, op.spec, env.cfg, op.id);
    }
  }

  // ---- Runs ----

  ghost function StoreRun(env: Env, c: Cluster, ops: seq<Op>): (seq<Seen>, Cluster)
    requires WellFormed(c) && Recoverable(env.tokens) && c.classes == env.classes
    decreases |ops|
  {
    if ops == [] then ([], c)
    else
      StepRefines(env, c, ops[0]);
      var (seen, c1) := StoreStep(env, c, ops[0]);
      var (rest, c2) := StoreRun(env, c1, ops[1..]);
      ([seen] + rest, c2)
  }

  function ShelfRun(env: Env, a: Shelf, ops: seq<Op>): (seq<Seen>, Shelf)
    decreases |ops|
  {
    if ops == [] then ([], a)
    else
      var (seen, a1) := ShelfStep(env, a, ops[0]);
      var (rest, a2) := ShelfRun(env, a1, ops[1..]);
      ([seen] + rest, a2)
  }

  // Over any sequence of operations the store and the plain map give the same answers and
  // end in corresponding states; foreign PVCs are there at the end, bit for bit.
  lemma {:induction false} RunRefines(env: Env, c: Cluster, ops: seq<Op>)
    requires WellFormed(c) && Recoverable(env.tokens) && c.classes == env.classes
    ensures var (seen, c') := StoreRun(env, c, ops);
            && WellFormed(c')
            && ShelfRun(env, ShelfOf(c, env.codec), ops) == (seen, ShelfOf(c', env.codec))
            && forall name :: name in c.pvcs && !Managed(c, name) ==>
                 name in c'.pvcs && c'.pvcs[name] == c.pvcs[name]
    decreases |ops|
  {
    if ops != [] {
      var c1 := StoreStep(env, c, ops[0]).1;
      StepRefines(env, c, ops[0]);
      forall name | name in c.pvcs && !Managed(c, name)
        ensures name in c1.pvcs && c1.pvcs[name] == c.pvcs[name] && !Managed(c1, name)
      {
        ForeignStays(env, c, ops[0], name);
      }
      RunRefines(env, c1, ops[1..]);
    }
  }
}
