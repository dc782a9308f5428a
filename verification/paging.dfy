/** Following page tokens to the end shows exactly the volumes that Get knows. */
module Paging {
  import opened Events
  import opened Volumes
  import opened VolumeStore

  // All volumes, in listing order.
  function Listing(c: Cluster, codec: QuantityCodec): seq<Volume> {
    VolumesAmong(c, codec, c.order)
  }

  function Offset(tokens: Tokens, token: string): Option<nat> {
    if token == "" then Some(0) else tokens.decode(token)
  }

  // The pages from `token` on, each asked for with a size of the client's choosing; the
  // recursion ends because every page that leaves something starts the next one further on.
  ghost function Follow(c: Cluster, codec: QuantityCodec, tokens: Tokens, sizes: nat -> int, page: nat, token: string)
    : seq<Volume>
    requires Recoverable(tokens)
    requires Offset(tokens, token).Some? && Offset(tokens, token).value <= |Selected(c, c.order)|
    decreases |Selected(c, c.order)| - Offset(tokens, token).value
  {
    var list := List(c, codec, tokens, sizes(page), token).value;
    if list.nextPageToken.None? then list.volumes
    else list.volumes + Follow(c, codec, tokens, sizes, page + 1, list.nextPageToken.value)
  }

  lemma {:induction false} AmongSplits(c: Cluster, codec: QuantityCodec, front: seq<string>, back: seq<string>)
    ensures VolumesAmong(c, codec, front + back) == VolumesAmong(c, codec, front) + VolumesAmong(c, codec, back)
  {
    if back == [] {
      assert front + back == front;
    } else {
      var last := |back| - 1;
      assert back == back[..last] + [back[last]];
      assert (front + back)[..|front + back| - 1] == front + back[..last];
      AmongSplits(c, codec, front, back[..last]);
    }
  }

  // The label selector hides no volume.
  lemma {:induction false} SelectionKeepsVolumes(c: Cluster, codec: QuantityCodec, names: seq<string>)
    ensures VolumesAmong(c, codec, Selected(c, names)) == VolumesAmong(c, codec, names)
  {
    if names != [] {
      var first, rest := [names[0]], names[1..];
      assert names == first + rest;
      SelectionKeepsVolumes(c, codec, rest);
      AmongSplits(c, codec, first, rest);
      assert VolumesAmong(c, codec, first[..0]) == [];
      if names[0] in c.pvcs && SelectedByLabels(c.pvcs[names[0]]) {
        AmongSplits(c, codec, first, Selected(c, rest));
      } else {
        assert VolumesAmong(c, codec, first) == [];
      }
    }
  }

  // One page: the volumes among the next few selected names, and a token for where it
  // stopped if something is left.
  lemma OnePage(c: Cluster, codec: QuantityCodec, tokens: Tokens, size: int, token: string)
    requires Recoverable(tokens)
    requires Offset(tokens, token).Some? && Offset(tokens, token).value <= |Selected(c, c.order)|
    ensures var all, from := Selected(c, c.order), Offset(tokens, token).value;
            var end := Min(from + NormalizePageSize(size), |all|);
            List(c, codec, tokens, size, token)
            == Ok(VolumeList(VolumesAmong(c, codec, all[from..end]),
                             if end < |all| then Some(tokens.encode(end)) else None))
  {
  }

  // The same reading without tokens: pages of these names, from position `from` on.
  ghost function Paged(c: Cluster, codec: QuantityCodec, all: seq<string>, sizes: nat -> int, page: nat, from: nat)
    : seq<Volume>
    requires from <= |all|
    decreases |all| - from
  {
    var end := from + NormalizePageSize(sizes(page));
    if end < |all| then VolumesAmong(c, codec, all[from..end]) + Paged(c, codec, all, sizes, page + 1, end)
    else VolumesAmong(c, codec, all[from..])
  }

  lemma {:induction false} FollowIsPaged(c: Cluster, codec: QuantityCodec, tokens: Tokens, sizes: nat -> int,
                                         page: nat, token: string)
    requires Recoverable(tokens)
    requires Offset(tokens, token).Some? && Offset(tokens, token).value <= |Selected(c, c.order)|
    ensures Follow(c, codec, tokens, sizes, page, token)
         == Paged(c, codec, Selected(c, c.order), sizes, page, Offset(tokens, token).value)
    decreases |Selected(c, c.order)| - Offset(tokens, token).value
  {
    var all, from := Selected(c, c.order), Offset(tokens, token).value;
    var end := from + NormalizePageSize(sizes(page));
    OnePage(c, codec, tokens, sizes(page), token);
    if end < |all| {
      FollowIsPaged(c, codec, tokens, sizes, page + 1, tokens.encode(end));
    } else {
      assert all[from..|all|] == all[from..];
    }
  }

  lemma {:induction false} PagedShowsRest(c: Cluster, codec: QuantityCodec, all: seq<string>, sizes: nat -> int,
                                          page: nat, from: nat)
    requires from <= |all|
    ensures Paged(c, codec, all, sizes, page, from) == VolumesAmong(c, codec, all[from..])
    decreases |all| - from
  {
    var end := from + NormalizePageSize(sizes(page));
    if end < |all| {
      PagedShowsRest(c, codec, all, sizes, page + 1, end);
      assert all[from..] == all[from..end] + all[end..];
      AmongSplits(c, codec, all[from..end], all[end..]);
    }
  }

  // Whatever page sizes are asked for, the pages from the empty token on are the listing,
  // also when the post-page filter leaves some of them empty.
  lemma PagesAreListing(c: Cluster, codec: QuantityCodec, tokens: Tokens, sizes: nat -> int)
    requires WellFormed(c) && Recoverable(tokens)
    ensures Follow(c, codec, tokens, sizes, 0, "") == Listing(c, codec)
  {
    var all := Selected(c, c.order);
    FollowIsPaged(c, codec, tokens, sizes, 0, "");
    PagedShowsRest(c, codec, all, sizes, 0, 0);
    assert all[0..] == all;
    SelectionKeepsVolumes(c, codec, c.order);
  }

  lemma {:induction false} AmongIsGet(c: Cluster, codec: QuantityCodec, names: seq<string>, id: string, v: Volume)
    ensures v in VolumesAmong(c, codec, names) && v.id == id <==> id in names && Get(c, codec, id) == Ok(v)
  {
    if names != [] {
      var last := |names| - 1;
      assert names == names[..last] + [names[last]];
      AmongIsGet(c, codec, names[..last], id, v);
    }
  }

  ghost predicate DistinctIds(vs: seq<Volume>) {
    forall i, j :: 0 <= i < j < |vs| ==> vs[i].id != vs[j].id
  }

  lemma {:induction false} AmongDistinct(c: Cluster, codec: QuantityCodec, names: seq<string>)
    requires forall i, j :: 0 <= i < j < |names| ==> names[i] != names[j]
    ensures DistinctIds(VolumesAmong(c, codec, names))
    ensures forall v :: v in VolumesAmong(c, codec, names) ==> v.id in names
  {
    if names != [] {
      var n := names[|names| - 1];
      assert names == names[..|names| - 1] + [n];
      AmongDistinct(c, codec, names[..|names| - 1]);
      var front := VolumesAmong(c, codec, names[..|names| - 1]);
      assert n !in names[..|names| - 1];
      assert forall i :: 0 <= i < |front| ==> front[i] in front;
    }
  }

  // The pages hold a volume if and only if Get returns it, and no id twice.
  lemma PagesAgreeWithGet(c: Cluster, codec: QuantityCodec, tokens: Tokens, sizes: nat -> int, id: string, v: Volume)
    requires WellFormed(c) && Recoverable(tokens)
    ensures v in Follow(c, codec, tokens, sizes, 0, "") && v.id == id <==> Get(c, codec, id) == Ok(v)
    ensures DistinctIds(Follow(c, codec, tokens, sizes, 0, ""))
  {
    PagesAreListing(c, codec, tokens, sizes);
    AmongIsGet(c, codec, c.order, id, v);
    AmongDistinct(c, codec, c.order);
  }
}
