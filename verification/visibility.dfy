/** Which PVCs the store's operations see, told from the PVCs' labels, and how List answers. */
module Visibility {
  import opened Events
  import opened Volumes
  import opened VolumeStore
  import opened Paging

  // The PVC under this name carries the fixed labels and this instance id. A missing
  // instance-id label reads as the empty id.
  predicate Labelled(c: Cluster, id: string) {
    && id in c.pvcs
    && var labels := c.pvcs[id].labels;
       && "dcm.project/managed-by" in labels && labels["dcm.project/managed-by"] == "dcm"
       && "dcm.project/dcm-service-type" in labels && labels["dcm.project/dcm-service-type"] == "storage"
       && (if "dcm.project/dcm-instance-id" in labels then labels["dcm.project/dcm-instance-id"] == id else id == "")
  }

  // Get finds an id exactly if the PVC of that name is labelled for it.
  lemma GetSeesLabels(c: Cluster, codec: QuantityCodec, id: string)
    ensures Get(c, codec, id).Ok? <==> Labelled(c, id)
    ensures !Labelled(c, id) ==> Get(c, codec, id) == Err(NotFound(id))
  {
  }

  // Delete removes that PVC and nothing else, exactly in the same cases.
  lemma DeleteSeesLabels(c: Cluster, id: string)
    ensures var (e, c') := Delete(c, id);
            && (e.None? <==> Labelled(c, id))
            && (e.Some? ==> e.value == NotFound(id) && c' == c)
            && (forall n :: n in c'.pvcs <==> n in c.pvcs && (n == id ==> !Labelled(c, id)))
            && (forall n :: n in c'.pvcs ==> c'.pvcs[n] == c.pvcs[n])
  {
  }

  // And the pages show the id exactly in the same cases.
  lemma PagesSeeLabels(c: Cluster, codec: QuantityCodec, tokens: Tokens, sizes: nat -> int, id: string)
    requires WellFormed(c) && Recoverable(tokens)
    ensures (exists v :: v in Follow(c, codec, tokens, sizes, 0, "") && v.id == id) <==> Labelled(c, id)
  {
    if v :| v in Follow(c, codec, tokens, sizes, 0, "") && v.id == id {
      PagesAgreeWithGet(c, codec, tokens, sizes, id, v);
    }
    if Labelled(c, id) {
      PagesAgreeWithGet(c, codec, tokens, sizes, id, Get(c, codec, id).value);
    }
  }

  // So a volume stays visible whatever becomes of its PVC's status, conditions, binding or
  // deletion mark, as long as its labels stay.
  lemma StaysVisible(c: Cluster, c': Cluster, codec: QuantityCodec, id: string)
    requires id in c.pvcs && id in c'.pvcs && c'.pvcs[id].labels == c.pvcs[id].labels
    ensures Get(c, codec, id).Ok? <==> Get(c', codec, id).Ok?
    ensures Delete(c, id).0.None? <==> Delete(c', id).0.None?
  {
    GetSeesLabels(c, codec, id);
    GetSeesLabels(c', codec, id);
  }

  // ---- Pages ----

  // The selector lets through the names whose PVCs carry the two fixed labels.
  lemma SelectorSeesLabels(c: Cluster, names: seq<string>, n: string)
    ensures n in Selected(c, names) <==>
              && n in names && n in c.pvcs
              && "dcm.project/managed-by" in c.pvcs[n].labels && c.pvcs[n].labels["dcm.project/managed-by"] == "dcm"
              && "dcm.project/dcm-service-type" in c.pvcs[n].labels
              && c.pvcs[n].labels["dcm.project/dcm-service-type"] == "storage"
  {
    SelectedMembers(c, names);
  }

  lemma {:induction false} AmongAtMost(c: Cluster, codec: QuantityCodec, names: seq<string>)
    ensures |VolumesAmong(c, codec, names)| <= |names|
  {
    if names != [] { AmongAtMost(c, codec, names[..|names| - 1]); }
  }

  // List fails exactly on a token that the server does not recognise; otherwise a page has at
  // most as many volumes as were asked for, 50 if none were, and never more than 1000.
  lemma ListAnswers(c: Cluster, codec: QuantityCodec, tokens: Tokens, size: int, token: string)
    ensures var r := List(c, codec, tokens, size, token);
            && (r.Err? <==> token != "" && tokens.decode(token).None?)
            && (r.Err? ==> r.error == InvalidArgument(BadPageToken))
            && (r.Ok? ==>
                  && |r.value.volumes| <= (if size <= 0 then 50 else if size > 1000 then 1000 else size)
                  && forall v :: v in r.value.volumes ==> Get(c, codec, v.id) == Ok(v))
  {
    var page := ApiList(c, tokens, NormalizePageSize(size), token);
    if page.Some? {
      AmongAtMost(c, codec, page.value.items);
      forall v | v in VolumesAmong(c, codec, page.value.items) ensures Get(c, codec, v.id) == Ok(v) {
        AmongIsGet(c, codec, page.value.items, v.id, v);
      }
    }
  }

  // A first page of the requested size holds what is selected, if it fits.
  lemma FullPage(c: Cluster, codec: QuantityCodec, tokens: Tokens, size: int)
    requires WellFormed(c) && Recoverable(tokens)
    requires |Selected(c, c.order)| <= if size <= 0 then 50 else if size > 1000 then 1000 else size
    ensures List(c, codec, tokens, size, "") == Ok(VolumeList(Listing(c, codec), None))
  {
    OnePage(c, codec, tokens, size, "");
    assert Selected(c, c.order)[0..|Selected(c, c.order)|] == Selected(c, c.order);
    SelectionKeepsVolumes(c, codec, c.order);
  }
}
