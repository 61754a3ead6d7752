/**
 * How a failure travels outwards in the decoder: a failed prefix of a layer run fails the
 * whole run, and a failed scene fails the whole set.
 */
module AetFailure {
  import opened Wrappers
  import opened AetRaw
  import opened AetDecode

  /** A failed prefix fails every longer prefix. */
  lemma {:induction false} RunFails(a: Arenas, r: RawComp, j: nat, k: nat, fuel: nat, next: nat)
    requires Readable(a) && r.layers + r.layersCount <= |a.layers| && j <= k <= r.layersCount
    requires DecodeRun(a, r, j, fuel, next).None?
    ensures DecodeRun(a, r, k, fuel, next).None?
    decreases k - j
  {
    if j < k {
      RunFailStep(a, r, j, fuel, next);
      RunFails(a, r, j + 1, k, fuel, next);
    }
  }

  lemma {:induction false} ScenesFail(rs: seq<RawScene>, a: Arenas, j: nat, k: nat, next: nat)
    requires Readable(a) && ScenesReadable(rs, a) && j <= k <= |rs|
    requires DecodeScenes(rs, a, j, next).None?
    ensures DecodeScenes(rs, a, k, next).None?
    decreases k - j
  {
    if j < k {
      ScenesFailStep(rs, a, j, next);
      ScenesFail(rs, a, j + 1, k, next);
    }
  }
}

/**
 * `aet_comp::decode` and `Set::from_buf` of `src/aet.rs` as the loops they are, each
 * proved to compute the functions of `AetDecode`.
 */
module AetFromBuf {
  import opened Wrappers
  import opened AetGraph
  import opened AetRaw
  import opened AetDecode
  import opened AetFailure

  /**
   * `aet_comp::decode`: for each layer record, decode its item (merging the inner map),
   * then make the layer's `Rc`, insert it at its record's address and push it.
   */
  method DecodeCompLoop(a: Arenas, r: RawComp, fuel: nat, next: nat) returns (res: Option<Decoded>)
    requires Readable(a) && r.layers + r.layersCount <= |a.layers|
    ensures res == DecodeComp(a, r, fuel, next)
    decreases fuel, 2
  {
    var layers: seq<Layer> := [];
    var m: map<nat, Entry> := map[];
    var n: nat := next;
    var i: nat := 0;
    while i < r.layersCount
      invariant i <= r.layersCount
      invariant DecodeRun(a, r, i, fuel, next) == Some(Decoded(Composition(layers), m, n))
    {
      var l := a.layers[r.layers + i];
      var item := DecodeItemStep(a, l, fuel, n);
      if item.None? {
        ItemFailStep(a, r, i, fuel, next, Decoded(Composition(layers), m, n));
        RunFails(a, r, i + 1, r.layersCount, fuel, next);
        return None;
      }
      var it := item.value;
      RunFold(a, r, i, fuel, next, Decoded(Composition(layers), m, n), it);
      var id := LayerId(it.next);
      m := m + it.entries;
      m := m[r.layers + i := Entry(id, ParentAddress(l.parent))];
      layers := layers + [LayerOf(l, a, it.item, id)];
      n := it.next + 1;
      i := i + 1;
    }
    res := Some(Decoded(Composition(layers), m, n));
  }

  /** The `match layer.item_type` of the loop; a comp item is decoded by a recursive call. */
  method DecodeItemStep(a: Arenas, l: RawLayer, fuel: nat, next: nat) returns (res: Option<ItemDecoded>)
    requires Readable(a) && LayerReadable(l, a)
    ensures res == DecodeItem(a, l, fuel, next)
    decreases fuel, 1
  {
    if l.itemType > 3 {
      return None;
    }
    if l.itemType == 0 || l.item.None? {
      return Some(ItemDecoded(NoItem, map[], next));
    }
    var p := l.item.value;
    if l.itemType == 1 {
      res := Some(ItemDecoded(VideoItem(VideoOf(a.videos[p], a)), map[], next));
    } else if l.itemType == 2 {
      res := Some(ItemDecoded(AudioItem(Audio(a.audios[p].soundIndex)), map[], next));
    } else if fuel == 0 {
      res := None;
    } else {
      var d := DecodeCompLoop(a, a.comps[p], fuel - 1, next);
      if d.Some? {
        res := Some(ItemDecoded(CompItem(d.value.comp), d.value.entries, d.value.next));
      } else {
        res := None;
      }
    }
  }

  /**
   * The parent pass: each map value with a parent address gets the `Rc` held at that
   * address. The values are visited in an arbitrary order.
   */
  method ParentPass(m: map<nat, Entry>) returns (t: map<LayerId, Option<LayerId>>)
    requires Injective(m)
    ensures t == ParentTable(m)
  {
    t := map[];
    var rest := m.Keys;
    while rest != {}
      invariant rest <= m.Keys
      invariant t == ParentTableOn(m, m.Keys - rest)
      decreases |rest|
    {
      var k :| k in rest;
      ParentTableVisit(m, m.Keys - rest, k);
      assert m.Keys - rest + {k} == m.Keys - (rest - {k});
      if m[k].parent.Some? {
        t := t[m[k].id := Lookup(m, m[k].parent.value)];
      }
      rest := rest - {k};
    }
    assert m.Keys - rest == m.Keys;
  }

  /**
   * `Set::from_buf` after the unpacker: for each kept scene record, decode its root
   * comp, run the parent pass over the map, read the name and the camera, and push the
   * scene.
   */
  method FromBuf(h: RawSet, a: Arenas) returns (res: Option<AetSet>)
    requires Readable(a) && ScenesReadable(h.scenes, a)
    ensures res == FromBufSpec(h, a)
  {
    var scenes: seq<Scene> := [];
    var next: nat := 0;
    var i: nat := 0;
    while i < |h.scenes|
      invariant i <= |h.scenes|
      invariant DecodeScenes(h.scenes, a, i, 0) == Some(ScenesDecoded(scenes, next))
    {
      var r := h.scenes[i];
      if !Kept(r) {
        ScenesSkip(h.scenes, a, i, 0);
        i := i + 1;
        continue;
      }
      var root := RootOf(r, a);
      var d := DecodeCompLoop(a, root, Fuel(a), next);
      if d.None? {
        SceneFailStep(h.scenes, a, i, 0, ScenesDecoded(scenes, next));
        ScenesFail(h.scenes, a, i + 1, |h.scenes|, 0);
        return None;
      }
      DecodeCompWell(a, root, Fuel(a), next);
      var t := ParentPass(d.value.entries);
      var camera := if r.camera.Some? then Some(CameraOf(a.cameras[r.camera.value], a.keys)) else None;
      var scene := Scene(CRead(a.names[r.name]), r.startTime, r.endTime, r.fps, r.color, r.width, r.height,
                         camera, ResolveComp(d.value.comp, t));
      ScenesFold(h.scenes, a, i, 0, ScenesDecoded(scenes, next), SceneDecoded(scene, d.value.next));
      scenes := scenes + [scene];
      next := d.value.next;
      i := i + 1;
    }
    res := Some(AetSet(h.modern, h.bigEndian, h.bigEndian, scenes));
  }
}
