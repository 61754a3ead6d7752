/**
 * The counting pass of `Set::to_buf` (`src/aet.rs`): `count_fcurve` and `count_comp`
 * walk the owned graph and add up how many records of each kind the flattening pass may
 * emit, so that every arena can be reserved up front.
 *
 * `Counts` is the value of the source's `SetCounts`; the functions below say what the
 * walk adds for each part of the graph, and the `SetCounts` class is the counter the
 * walk updates in place.
 */
module AetCounts {
  import opened Wrappers
  import opened AetGraph
  import opened AetCurves

  datatype Counts = Counts(
    audio: nat, camera: nat, comp: nat, fcurveKey: nat, layerAudio: nat, layer: nat,
    layerVideo3d: nat, layerVideo: nat, marker: nat, name: nat, scene: nat, video: nat,
    videoSource: nat)

  const NoCounts := Counts(0, 0, 0, 0, 0, 0, 0, 0, 0, 0, 0, 0, 0)

  function Plus(a: Counts, b: Counts): Counts {
    Counts(a.audio + b.audio, a.camera + b.camera, a.comp + b.comp,
           a.fcurveKey + b.fcurveKey, a.layerAudio + b.layerAudio, a.layer + b.layer,
           a.layerVideo3d + b.layerVideo3d, a.layerVideo + b.layerVideo,
           a.marker + b.marker, a.name + b.name, a.scene + b.scene, a.video + b.video,
           a.videoSource + b.videoSource)
  }

  /** Every count of `a` is at most the same count of `b`. */
  predicate Le(a: Counts, b: Counts) {
    a.audio <= b.audio && a.camera <= b.camera && a.comp <= b.comp &&
    a.fcurveKey <= b.fcurveKey && a.layerAudio <= b.layerAudio && a.layer <= b.layer &&
    a.layerVideo3d <= b.layerVideo3d && a.layerVideo <= b.layerVideo &&
    a.marker <= b.marker && a.name <= b.name && a.scene <= b.scene && a.video <= b.video &&
    a.videoSource <= b.videoSource
  }

  /** The floats the counting pass reserves for each block: its curves', in declaration order. */
  function Video3DFloats(v: LayerVideo3D): nat {
    SeqFloats(Video3DCurves(v))
  }

  function VideoFloats(v: LayerVideo): nat {
    SeqFloats(VideoCurves(v))
  }

  function AudioFloats(a: LayerAudio): nat {
    SeqFloats(AudioCurves(a))
  }

  function CameraFloats(c: Camera): nat {
    SeqFloats(CameraCurves(c))
  }

  /** What a layer's video block adds: the block, its curves, the 3D block and its curves. */
  function LayerVideoCounts(v: LayerVideo): Counts {
    match v.threeD
    case None => NoCounts.(layerVideo := 1, fcurveKey := VideoFloats(v))
    case Some(d) =>
      NoCounts.(layerVideo := 1, layerVideo3d := 1, fcurveKey := VideoFloats(v) + Video3DFloats(d))
  }

  function LayerAudioCounts(a: LayerAudio): Counts {
    NoCounts.(layerAudio := 1, fcurveKey := AudioFloats(a))
  }

  /** What one layer adds before its item: the layer, its name, its markers and their names, its blocks. */
  function LayerOwnCounts(l: Layer): Counts {
    var own := NoCounts.(layer := 1, name := 1 + |l.markers|, marker := |l.markers|);
    var withVideo := if l.video.Some? then Plus(own, LayerVideoCounts(l.video.value)) else own;
    if l.audio.Some? then Plus(withVideo, LayerAudioCounts(l.audio.value)) else withVideo
  }

  /** What a layer's item adds: a video record with its sources and their names, an audio record, or a whole composition. */
  function ItemCounts(i: Item): Counts
    decreases i
  {
    match i
    case NoItem => NoCounts
    case VideoItem(v) => NoCounts.(video := 1, videoSource := |v.sources|, name := |v.sources|)
    case AudioItem(_) => NoCounts.(audio := 1)
    case CompItem(c) => CompCounts(c)
  }

  /** What the first `k` layers of `c` add, items included. */
  function LayersCounts(c: Composition, k: nat): Counts
    requires k <= |c.layers|
    decreases c, k
  {
    if k == 0 then NoCounts
    else Plus(LayersCounts(c, k - 1), Plus(LayerOwnCounts(c.layers[k - 1]), ItemCounts(c.layers[k - 1].item)))
  }

  /** `count_comp`: one comp record plus everything its layers add. */
  function CompCounts(c: Composition): Counts
    decreases c, |c.layers| + 1
  {
    Plus(NoCounts.(comp := 1), LayersCounts(c, |c.layers|))
  }

  /** What one scene adds: the scene, its name, its camera and its root composition. */
  function SceneCounts(s: Scene): Counts {
    var own := NoCounts.(scene := 1, name := 1);
    var withCamera :=
      if s.camera.Some? then Plus(own, NoCounts.(camera := 1, fcurveKey := CameraFloats(s.camera.value)))
      else own;
    Plus(withCamera, CompCounts(s.root))
  }

  /** The first pass of `to_buf` over the first `k` scenes. */
  function ScenesCounts(scenes: seq<Scene>, k: nat): Counts
    requires k <= |scenes|
  {
    if k == 0 then NoCounts else Plus(ScenesCounts(scenes, k - 1), SceneCounts(scenes[k - 1]))
  }

  lemma PlusAssoc(a: Counts, b: Counts, c: Counts)
    ensures Plus(Plus(a, b), c) == Plus(a, Plus(b, c))
  {
  }

  // ---------------------------------------------------------------------------------
  // An independent account of the same totals: a flat walk over every layer of the tree.

  /** Every layer of the tree below the first `k` layers of `c`: each layer, then the layers its comp item holds. */
  function TreeLayers(c: Composition, k: nat): seq<Layer>
    requires k <= |c.layers|
    decreases c, k
  {
    if k == 0 then [] else TreeLayers(c, k - 1) + [c.layers[k - 1]] + ItemLayers(c.layers[k - 1].item)
  }

  function ItemLayers(i: Item): seq<Layer>
    decreases i
  {
    match i
    case CompItem(c) => TreeLayers(c, |c.layers|)
    case _ => []
  }

  /** The record an item brings by itself, with any sources: not what a nested comp holds. */
  function ItemRecord(i: Item): Counts {
    match i
    case NoItem => NoCounts
    case VideoItem(v) => NoCounts.(video := 1, videoSource := |v.sources|, name := |v.sources|)
    case AudioItem(_) => NoCounts.(audio := 1)
    case CompItem(_) => NoCounts.(comp := 1)
  }

  /** The records one layer brings by itself: its own and its item's. */
  function LayerRecords(l: Layer): Counts {
    Plus(LayerOwnCounts(l), ItemRecord(l.item))
  }

  /** The records of a list of layers, added up. */
  function SumRecords(ls: seq<Layer>): Counts {
    if ls == [] then NoCounts else Plus(SumRecords(ls[..|ls| - 1]), LayerRecords(ls[|ls| - 1]))
  }

  lemma {:induction false} SumRecordsAppend(xs: seq<Layer>, ys: seq<Layer>)
    ensures SumRecords(xs + ys) == Plus(SumRecords(xs), SumRecords(ys))
    decreases |ys|
  {
    if ys == [] {
      assert xs + ys == xs;
      PlusZero(SumRecords(xs));
    } else {
      var init, last := ys[..|ys| - 1], ys[|ys| - 1];
      assert (xs + ys)[..|xs + ys| - 1] == xs + init;
      assert (xs + ys)[|xs + ys| - 1] == last;
      calc {
        SumRecords(xs + ys);
        Plus(SumRecords(xs + init), LayerRecords(last));
        { SumRecordsAppend(xs, init); }
        Plus(Plus(SumRecords(xs), SumRecords(init)), LayerRecords(last));
        { PlusAssoc(SumRecords(xs), SumRecords(init), LayerRecords(last)); }
        Plus(SumRecords(xs), Plus(SumRecords(init), LayerRecords(last)));
      }
    }
  }

  /** A list of layers brings one layer record per layer, and never a scene or a camera record. */
  lemma {:induction false} SumRecordsShape(ls: seq<Layer>)
    ensures SumRecords(ls).layer == |ls| && SumRecords(ls).scene == 0 && SumRecords(ls).camera == 0
  {
    if ls != [] {
      SumRecordsShape(ls[..|ls| - 1]);
    }
  }

  /**
   * The recursion of `count_comp` adds up exactly the records of every layer of the tree,
   * each taken once however deep it is nested: in every field, not only as a bound.
   */
  lemma {:induction false} LayersCountsTree(c: Composition, k: nat)
    requires k <= |c.layers|
    ensures LayersCounts(c, k) == SumRecords(TreeLayers(c, k))
    decreases c, 1, k + 1
  {
    if k > 0 {
      LayersCountsTree(c, k - 1);
      TreeStep(c, k);
    }
  }

  /** The step of `LayersCountsTree`: from the layers below `k - 1` to the layers below `k`. */
  lemma {:induction false} TreeStep(c: Composition, k: nat)
    requires 0 < k <= |c.layers|
    requires SumRecords(TreeLayers(c, k - 1)) == LayersCounts(c, k - 1)
    ensures LayersCounts(c, k) == SumRecords(TreeLayers(c, k))
    decreases c, 1, k
  {
    var l := c.layers[k - 1];
    ItemRecords(l.item);
    TreeRecordsStep(c, k);
    PlusRegroup(LayersCounts(c, k - 1), LayerOwnCounts(l), ItemRecord(l.item), SumRecords(ItemLayers(l.item)));
  }

  /** The records of the tree below `k` layers: those below `k - 1`, then layer `k - 1`, then the layers below its item. */
  lemma TreeRecordsStep(c: Composition, k: nat)
    requires 0 < k <= |c.layers|
    ensures var l := c.layers[k - 1];
      SumRecords(TreeLayers(c, k)) ==
      Plus(Plus(SumRecords(TreeLayers(c, k - 1)), LayerRecords(l)), SumRecords(ItemLayers(l.item)))
  {
    var l := c.layers[k - 1];
    var t := TreeLayers(c, k - 1);
    SumRecordsAppend(t, [l]);
    SumRecordsAppend(t + [l], ItemLayers(l.item));
    assert SumRecords([l]) == Plus(NoCounts, LayerRecords(l)) by {
      assert [l][..0] == [];
    }
  }

  lemma PlusRegroup(a: Counts, b: Counts, x: Counts, y: Counts)
    ensures Plus(Plus(a, Plus(b, x)), y) == Plus(a, Plus(b, Plus(x, y)))
  {
  }

  /** An item's own record and the records of the layers below it are what `count_comp` counts for it. */
  lemma {:induction false} ItemRecords(i: Item)
    ensures Plus(ItemRecord(i), SumRecords(ItemLayers(i))) == ItemCounts(i)
    decreases i
  {
    match i
    case CompItem(d) =>
      CompCountsTree(d);
    case _ =>
      PlusZero(ItemRecord(i));
  }

  /** `count_comp` of a composition is its own record and the records of every layer below it. */
  lemma {:induction false} CompCountsTree(c: Composition)
    ensures CompCounts(c) == Plus(NoCounts.(comp := 1), SumRecords(TreeLayers(c, |c.layers|)))
    decreases c, 2
  {
    LayersCountsTree(c, |c.layers|);
  }

  /**
   * Hence the layers of a composition reserve exactly one layer record per layer of
   * the tree, and no scene or camera record: only the scene loop counts those.
   */
  lemma LayersCountsNoScene(c: Composition, k: nat)
    requires k <= |c.layers|
    ensures LayersCounts(c, k).layer == |TreeLayers(c, k)|
    ensures LayersCounts(c, k).scene == 0 && LayersCounts(c, k).camera == 0
  {
    LayersCountsTree(c, k);
    SumRecordsShape(TreeLayers(c, k));
  }

  /** What the first `k` layers of `c` add before their items. */
  function LayersOwnCounts(c: Composition, k: nat): Counts
    requires k <= |c.layers|
  {
    if k == 0 then NoCounts else Plus(LayersOwnCounts(c, k - 1), LayerOwnCounts(c.layers[k - 1]))
  }

  /** What the items of the first `k` layers of `c` add. */
  function LayersItemCounts(c: Composition, k: nat): Counts
    requires k <= |c.layers|
  {
    if k == 0 then NoCounts else Plus(LayersItemCounts(c, k - 1), ItemCounts(c.layers[k - 1].item))
  }

  /**
   * The count of a run of layers splits into their own parts and their items, which is
   * what lets `alloc_comp` store all the layers first and the items after.
   */
  lemma {:induction false} LayersCountsSplit(c: Composition, k: nat)
    requires k <= |c.layers|
    ensures LayersCounts(c, k) == Plus(LayersOwnCounts(c, k), LayersItemCounts(c, k))
  {
    if k > 0 {
      LayersCountsSplit(c, k - 1);
      var o, i := LayersOwnCounts(c, k - 1), LayersItemCounts(c, k - 1);
      var x, y := LayerOwnCounts(c.layers[k - 1]), ItemCounts(c.layers[k - 1].item);
      assert LayersCounts(c, k) == Plus(Plus(o, i), Plus(x, y));
      PlusInterchange(o, i, x, y);
      assert LayersOwnCounts(c, k) == Plus(o, x);
      assert LayersItemCounts(c, k) == Plus(i, y);
    } else {
      PlusZero(NoCounts);
    }
  }

  lemma PlusZero(a: Counts)
    ensures Plus(a, NoCounts) == a
  {
  }

  lemma PlusInterchange(a: Counts, b: Counts, x: Counts, y: Counts)
    ensures Plus(Plus(a, b), Plus(x, y)) == Plus(Plus(a, x), Plus(b, y))
  {
  }

  /** `SetCounts`: the counter the walk updates in place. */
  class SetCounts {
    var audio: nat
    var camera: nat
    var comp: nat
    var fcurveKey: nat
    var layerAudio: nat
    var layer: nat
    var layerVideo3d: nat
    var layerVideo: nat
    var marker: nat
    var name: nat
    var scene: nat
    var video: nat
    var videoSource: nat

    function Value(): Counts
      reads this
    {
      Counts(audio, camera, comp, fcurveKey, layerAudio, layer, layerVideo3d, layerVideo,
             marker, name, scene, video, videoSource)
    }

    /** `SetCounts::default()`. */
    constructor ()
      ensures Value() == NoCounts
    {
      audio, camera, comp, fcurveKey, layerAudio := 0, 0, 0, 0, 0;
      layer, layerVideo3d, layerVideo, marker := 0, 0, 0, 0;
      name, scene, video, videoSource := 0, 0, 0, 0;
    }

    /** `count_fcurve`: nothing, 1, or 3 per key, by the storage rule. */
    method CountFCurve(f: FCurve)
      modifies this
      ensures Value() == old(Value()).(fcurveKey := old(fcurveKey) + KeyFloats(f))
    {
      if |f.keys| == 0 || (|f.keys| == 1 && Float32.FEq(f.keys[0].value, Float32.Zero)) {
      } else if |f.keys| == 1 {
        fcurveKey := fcurveKey + 1;
      } else {
        fcurveKey := fcurveKey + |f.keys| * 3;
      }
    }

    /** `count_fcurve` on each curve of a block, in declaration order. */
    method CountFCurves(fs: seq<FCurve>)
      modifies this
      ensures Value() == old(Value()).(fcurveKey := old(fcurveKey) + SeqFloats(fs))
    {
      var i := 0;
      while i < |fs|
        invariant i <= |fs|
        invariant Value() == old(Value()).(fcurveKey := old(fcurveKey) + SeqFloats(fs[..i]))
      {
        SeqFloatsStep(fs, i);
        CountFCurve(fs[i]);
        i := i + 1;
      }
      assert fs[..i] == fs;
    }

    method CountLayerVideo(v: LayerVideo)
      modifies this
      ensures Value() == Plus(old(Value()), LayerVideoCounts(v))
    {
      layerVideo := layerVideo + 1;
      CountFCurves(VideoCurves(v));
      if v.threeD.Some? {
        layerVideo3d := layerVideo3d + 1;
        CountFCurves(Video3DCurves(v.threeD.value));
      }
    }

    method CountLayerAudio(a: LayerAudio)
      modifies this
      ensures Value() == Plus(old(Value()), LayerAudioCounts(a))
    {
      layerAudio := layerAudio + 1;
      CountFCurves(AudioCurves(a));
    }

    method CountCamera(c: Camera)
      modifies this
      ensures Value() == Plus(old(Value()), NoCounts.(camera := 1, fcurveKey := CameraFloats(c)))
    {
      camera := camera + 1;
      CountFCurves(CameraCurves(c));
    }

    /** The part of `count_comp`'s loop body before the item. */
    method CountLayerOwn(l: Layer)
      modifies this
      ensures Value() == Plus(old(Value()), LayerOwnCounts(l))
    {
      layer := layer + 1;
      name := name + 1;
      marker := marker + |l.markers|;
      name := name + |l.markers|;
      ghost var own := NoCounts.(layer := 1, name := 1 + |l.markers|, marker := |l.markers|);
      assert Value() == Plus(old(Value()), own);
      ghost var withVideo := own;
      if l.video.Some? {
        CountLayerVideo(l.video.value);
        withVideo := Plus(own, LayerVideoCounts(l.video.value));
        PlusAssoc(old(Value()), own, LayerVideoCounts(l.video.value));
      }
      if l.audio.Some? {
        CountLayerAudio(l.audio.value);
        PlusAssoc(old(Value()), withVideo, LayerAudioCounts(l.audio.value));
      }
    }

    /** The `match` on the layer's item in `count_comp`. */
    method CountItem(i: Item)
      modifies this
      ensures Value() == Plus(old(Value()), ItemCounts(i))
      decreases i
    {
      match i
      case NoItem =>
        PlusZero(Value());
      case VideoItem(v) =>
        video := video + 1;
        videoSource := videoSource + |v.sources|;
        name := name + |v.sources|;
      case AudioItem(_) =>
        audio := audio + 1;
      case CompItem(c) =>
        CountComp(c);
    }

    /** `count_comp`. */
    method CountComp(c: Composition)
      modifies this
      ensures Value() == Plus(old(Value()), CompCounts(c))
      decreases c, |c.layers| + 1
    {
      comp := comp + 1;
      assert Value() == Plus(old(Value()), NoCounts.(comp := 1));
      CountLayers(c);
      PlusAssoc(old(Value()), NoCounts.(comp := 1), LayersCounts(c, |c.layers|));
    }

    /** The loop of `count_comp` over the layers, in order. */
    method CountLayers(c: Composition)
      modifies this
      ensures Value() == Plus(old(Value()), LayersCounts(c, |c.layers|))
      decreases c, |c.layers|
    {
      ghost var start := Value();
      PlusZero(start);
      var k := 0;
      ghost var acc := NoCounts;
      while k < |c.layers|
        invariant k <= |c.layers|
        invariant acc == LayersCounts(c, k)
        invariant Value() == Plus(start, acc)
      {
        ghost var d := Plus(LayerOwnCounts(c.layers[k]), ItemCounts(c.layers[k].item));
        CountLayer(c.layers[k]);
        PlusAssoc(start, acc, d);
        acc := Plus(acc, d);
        k := k + 1;
      }
    }

    /** The body of `count_comp`'s loop: one layer, then its item. */
    method CountLayer(l: Layer)
      modifies this
      ensures Value() == Plus(old(Value()), Plus(LayerOwnCounts(l), ItemCounts(l.item)))
      decreases l
    {
      CountLayerOwn(l);
      CountItem(l.item);
      PlusAssoc(old(Value()), LayerOwnCounts(l), ItemCounts(l.item));
    }

    /** The counting pass of `to_buf` for one scene. */
    method CountScene(s: Scene)
      modifies this
      ensures Value() == Plus(old(Value()), SceneCounts(s))
    {
      scene := scene + 1;
      name := name + 1;
      ghost var own := NoCounts.(scene := 1, name := 1);
      ghost var withCamera := own;
      if s.camera.Some? {
        CountCamera(s.camera.value);
        withCamera := Plus(own, NoCounts.(camera := 1, fcurveKey := CameraFloats(s.camera.value)));
        PlusAssoc(old(Value()), own, NoCounts.(camera := 1, fcurveKey := CameraFloats(s.camera.value)));
      }
      assert Value() == Plus(old(Value()), withCamera);
      CountComp(s.root);
      PlusAssoc(old(Value()), withCamera, CompCounts(s.root));
    }
  }

  /** Iteration one of `to_buf`: count every scene. */
  method CountScenes(scenes: seq<Scene>) returns (count: SetCounts)
    ensures fresh(count)
    ensures count.Value() == ScenesCounts(scenes, |scenes|)
  {
    count := new SetCounts();
    var k := 0;
    while k < |scenes|
      invariant k <= |scenes|
      invariant count.Value() == ScenesCounts(scenes, k)
    {
      count.CountScene(scenes[k]);
      k := k + 1;
    }
  }
}
