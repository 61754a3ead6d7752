/**
 * The reading direction of `src/aet.rs` on values: `Into<FCurve> for aet_fcurve` lifted to
 * the curve blocks, `aet_comp::decode`, the parent pass of `Set::from_buf` and the scene
 * loop around them.
 *
 * The unpacker that fills the arenas is foreign code; `Readable` states what `from_buf`
 * relies on it for (every pointer it follows lies in its arena, and a parent is an
 * address). A fresh `Rc` is modelled by a counter: each decoded layer takes the next
 * identity, so a comp reached twice is decoded into two different sets of layers.
 */
module AetDecode {
  import opened Ints
  import opened Float32
  import opened Wrappers
  import opened AetGraph
  import opened AetCurves
  import opened AetRaw
  import opened AetArenas

  /** `CStr::from_ptr(p).to_string_lossy()`: the characters before the first NUL. */
  function CRead(s: string): (r: string)
    ensures r <= s && !HasNul(r)
    ensures HasNul(s) ==> |r| < |s| && s[|r|] == '\0'
    ensures !HasNul(s) ==> r == s
  {
    if s == [] then []
    else if s[0] == '\0' then []
    else [s[0]] + CRead(s[1..])
  }

  /** A name `to_buf` stored reads back as the name it was given, or as empty if that held NUL. */
  lemma NameReadsBack(s: string)
    ensures CRead(CName(s)) == CName(s)
    ensures !HasNul(s) ==> CRead(CName(s)) == s
  {
  }

  // ---------------------------------------------------------------------------------
  // What the unpacker is trusted to deliver.

  predicate MarkersNamed(a: Arenas) {
    forall i :: 0 <= i < |a.markers| ==> a.markers[i].name < |a.names|
  }

  /**
   * The pointers of a layer record that `decode` follows: the name, the marker run, the
   * video and audio blocks, and the item for codes 1 to 3 when it is not null. The parent
   * is null or the address of a layer record.
   */
  predicate LayerReadable(l: RawLayer, a: Arenas) {
    l.name < |a.names| &&
    (l.markersCount > 0 ==> l.markers.Some? && l.markers.value + l.markersCount <= |a.markers|) &&
    (l.video.Some? ==> l.video.value < |a.layerVideos|) &&
    (l.audio.Some? ==> l.audio.value < |a.layerAudios|) &&
    !l.parent.ParentRc? &&
    (l.item.Some? ==>
      (l.itemType == 1 ==> l.item.value < |a.videos|) &&
      (l.itemType == 2 ==> l.item.value < |a.audios|) &&
      (l.itemType == 3 ==> l.item.value < |a.comps|))
  }

  predicate Readable(a: Arenas) {
    Video3DsOk(a) && LayerVideosOk(a) && LayerAudiosOk(a) && CompsOk(a) && VideosOk(a) &&
    VideoSourcesOk(a) && MarkersNamed(a) &&
    forall i {:trigger LayerReadable(a.layers[i], a)} :: 0 <= i < |a.layers| ==> LayerReadable(a.layers[i], a)
  }

  /** `from_buf` skips a scene with no comps or a null comp pointer. */
  predicate Kept(r: RawScene) {
    r.compCount != 0 && r.comp.Some?
  }

  /** The pointers of a kept scene that `from_buf` follows: its name, camera and root comp. */
  predicate SceneReadable(r: RawScene, a: Arenas) {
    Kept(r) ==>
      r.name < |a.names| &&
      r.comp.value + r.compCount <= |a.comps| &&
      (r.camera.Some? ==>
        r.camera.value < |a.cameras| && CurvesInArena(RawCameraCurves(a.cameras[r.camera.value]), |a.keys|))
  }

  predicate ScenesReadable(rs: seq<RawScene>, a: Arenas) {
    forall j :: 0 <= j < |rs| ==> SceneReadable(rs[j], a)
  }

  // ---------------------------------------------------------------------------------
  // Blocks: every curve record converted with `Into<FCurve>`.

  function DecodeCurves(rs: seq<RawFCurve>, keys: seq<F32>): (fs: seq<FCurve>)
    requires CurvesInArena(rs, |keys|)
    ensures |fs| == |rs|
  {
    seq(|rs|, i requires 0 <= i < |rs| => DecodeCurve(rs[i], keys))
  }

  /** A run of records that reads back as a run of curves decodes to curves that read back. */
  lemma DecodeCurvesReadBack(fs: seq<FCurve>, rs: seq<RawFCurve>, keys: seq<F32>)
    requires RunReadsBack(fs, rs, keys)
    ensures CurvesInArena(rs, |keys|)
    ensures forall i :: 0 <= i < |fs| ==>
      |DecodeCurves(rs, keys)[i].keys| == (if StoresNothing(fs[i]) then 0 else |fs[i].keys|)
  {
    forall i | 0 <= i < |fs|
      ensures InArena(rs[i], |keys|)
      ensures |DecodeCurves(rs, keys)[i].keys| == (if StoresNothing(fs[i]) then 0 else |fs[i].keys|)
    {
      assert ReadsBack(fs[i], rs[i], keys);
    }
  }

  function Video3DOf(r: RawLayerVideo3D, keys: seq<F32>): (v: LayerVideo3D)
    requires CurvesInArena(RawVideo3DCurves(r), |keys|)
  {
    var c := DecodeCurves(RawVideo3DCurves(r), keys);
    LayerVideo3D(c[0], c[1], c[2], c[3], c[4], c[5], c[6], c[7])
  }

  function LayerVideoOf(r: RawLayerVideo, a: Arenas): (v: LayerVideo)
    requires LayerVideoOk(r, a) && Video3DsOk(a)
  {
    var c := DecodeCurves(RawVideoCurves(r), a.keys);
    var threeD := if r.threeD.Some? then Some(Video3DOf(a.video3ds[r.threeD.value], a.keys)) else None;
    LayerVideo(r.transferMode, c[0], c[1], c[2], c[3], c[4], c[5], c[6], c[7], threeD)
  }

  function LayerAudioOf(r: RawLayerAudio, keys: seq<F32>): (v: LayerAudio)
    requires CurvesInArena(RawAudioCurves(r), |keys|)
  {
    var c := DecodeCurves(RawAudioCurves(r), keys);
    LayerAudio(c[0], c[1], c[2], c[3])
  }

  function CameraOf(r: RawCamera, keys: seq<F32>): (v: Camera)
    requires CurvesInArena(RawCameraCurves(r), |keys|)
    ensures CameraCurves(v) == DecodeCurves(RawCameraCurves(r), keys)
  {
    var c := DecodeCurves(RawCameraCurves(r), keys);
    Camera(c[0], c[1], c[2], c[3], c[4], c[5], c[6], c[7], c[8], c[9], c[10], c[11], c[12])
  }

  /** The marker run of a layer record, each name read up to its NUL. */
  function MarkersOf(l: RawLayer, a: Arenas): (ms: seq<Marker>)
    requires LayerReadable(l, a) && MarkersNamed(a)
  {
    if l.markersCount == 0 then []
    else
      var p := l.markers.value;
      seq(l.markersCount, j requires 0 <= j < l.markersCount =>
        Marker(CRead(a.names[a.markers[p + j].name]), a.markers[p + j].time))
  }

  /** A video item: the header fields and the source run, each sprite name read up to its NUL. */
  function VideoOf(r: RawVideo, a: Arenas): (v: Video)
    requires r.sources + r.sourcesCount <= |a.videoSources| && VideoSourcesOk(a)
  {
    Video(r.color, r.width, r.height, r.fpf,
      seq(r.sourcesCount, j requires 0 <= j < r.sourcesCount =>
        VideoSource(CRead(a.names[a.videoSources[r.sources + j].spriteName]),
                    a.videoSources[r.sources + j].spriteIndex)))
  }

  /** A video item stored by `to_buf` reads back equal, up to the NUL rule on sprite names. */
  lemma VideoReadsBack(v: Video, r: RawVideo, a: Arenas)
    requires StoresVideo(r, v, a) && VideoSourcesOk(a)
    ensures var d := VideoOf(r, a);
      d.color == v.color && d.width == v.width && d.height == v.height && d.fpf == v.fpf &&
      |d.sources| == |v.sources| &&
      forall j :: 0 <= j < |d.sources| ==> d.sources[j] == v.sources[j].(name := CName(v.sources[j].name))
  {
    var d := VideoOf(r, a);
    forall j | 0 <= j < |d.sources|
      ensures d.sources[j] == v.sources[j].(name := CName(v.sources[j].name))
    {
      assert SourceHeld(r, v, a, j);
      NameReadsBack(v.sources[j].name);
    }
  }

  // ---------------------------------------------------------------------------------
  // `aet_comp::decode`.

  /** A map value of `decode`: the layer's `Rc` and its record's parent address. */
  datatype Entry = Entry(id: LayerId, parent: Option<nat>)

  /** What `decode` returns, with the next unused identity. */
  datatype Decoded = Decoded(comp: Composition, entries: map<nat, Entry>, next: nat)

  datatype ItemDecoded = ItemDecoded(item: Item, entries: map<nat, Entry>, next: nat)

  function ParentAddress(p: RawParent): Option<nat> {
    if p.ParentAt? then Some(p.addr) else None
  }

  /** The owned layer of one record, its parent unset. */
  function LayerOf(l: RawLayer, a: Arenas, item: Item, id: LayerId): (x: Layer)
    requires Readable(a) && LayerReadable(l, a)
  {
    Layer(id, CRead(a.names[l.name]), l.startTime, l.endTime, l.offsetTime, l.timeScale,
      l.flags, l.quality, item, MarkersOf(l, a),
      if l.video.Some? then Some(LayerVideoOf(a.layerVideos[l.video.value], a)) else None,
      if l.audio.Some? then Some(LayerAudioOf(a.layerAudios[l.audio.value], a.keys)) else None,
      None)
  }

  /** The marker run: one marker per record, each with its time and its name read up to the NUL. */
  lemma MarkersOfReads(l: RawLayer, a: Arenas)
    requires LayerReadable(l, a) && MarkersNamed(a)
    ensures var ms := MarkersOf(l, a);
      |ms| == l.markersCount &&
      forall j :: 0 <= j < |ms| ==>
        ms[j].time == a.markers[l.markers.value + j].time &&
        ms[j].name == CRead(a.names[a.markers[l.markers.value + j].name])
  {
  }

  /** A video item: its header fields copied, one source per record with its name read up to the NUL. */
  lemma VideoOfReads(r: RawVideo, a: Arenas)
    requires r.sources + r.sourcesCount <= |a.videoSources| && VideoSourcesOk(a)
    ensures var v := VideoOf(r, a);
      v.color == r.color && v.width == r.width && v.height == r.height && v.fpf == r.fpf &&
      |v.sources| == r.sourcesCount &&
      forall j :: 0 <= j < |v.sources| ==>
        v.sources[j].name == CRead(a.names[a.videoSources[r.sources + j].spriteName]) &&
        v.sources[j].id == a.videoSources[r.sources + j].spriteIndex
  {
  }

  /**
   * A decoded layer: the given item and identity, no parent yet, the name read up to its NUL
   * and the scalar fields copied.
   */
  lemma LayerOfReads(l: RawLayer, a: Arenas, item: Item, id: LayerId)
    requires Readable(a) && LayerReadable(l, a)
    ensures var x := LayerOf(l, a, item, id);
      x.id == id && x.item == item && x.parent == None &&
      x.name == CRead(a.names[l.name]) && x.markers == MarkersOf(l, a) &&
      x.startTime == l.startTime && x.endTime == l.endTime &&
      x.offsetTime == l.offsetTime && x.timeScale == l.timeScale &&
      x.flags == l.flags && x.quality == l.quality &&
      x.video.Some? == l.video.Some? && x.audio.Some? == l.audio.Some?
  {
  }

  /** The blocks of a decoded layer: every curve converted with `Into<FCurve>`. */
  lemma LayerBlocksRead(l: RawLayer, a: Arenas, item: Item, id: LayerId)
    requires Readable(a) && LayerReadable(l, a)
    ensures var x := LayerOf(l, a, item, id);
      l.video.Some? ==>
        var rv := a.layerVideos[l.video.value];
        x.video.value.transferMode == rv.transferMode &&
        VideoCurves(x.video.value) == DecodeCurves(RawVideoCurves(rv), a.keys) &&
        x.video.value.threeD.Some? == rv.threeD.Some? &&
        (rv.threeD.Some? ==>
          Video3DCurves(x.video.value.threeD.value) == DecodeCurves(RawVideo3DCurves(a.video3ds[rv.threeD.value]), a.keys))
    ensures var x := LayerOf(l, a, item, id);
      l.audio.Some? ==>
        AudioCurves(x.audio.value) == DecodeCurves(RawAudioCurves(a.layerAudios[l.audio.value]), a.keys)
  {
  }

  /** Decoded curves that give back, position by position, the curves that were stored. */
  predicate CurvesRecover(ds: seq<FCurve>, fs: seq<FCurve>) {
    |ds| == |fs| && forall i :: 0 <= i < |fs| ==> Recovers(ds[i], fs[i])
  }

  /** A decoded video block gives back the stored one: transfer mode, curves and 3D block. */
  predicate VideoRecovers(x: LayerVideo, v: LayerVideo) {
    x.transferMode == v.transferMode && CurvesRecover(VideoCurves(x), VideoCurves(v)) &&
    x.threeD.Some? == v.threeD.Some? &&
    (v.threeD.Some? ==> CurvesRecover(Video3DCurves(x.threeD.value), Video3DCurves(v.threeD.value)))
  }

  /** A run of records that reads back as a run of curves decodes to curves that give them back. */
  lemma RunRecovers(fs: seq<FCurve>, rs: seq<RawFCurve>, keys: seq<F32>)
    requires RunReadsBack(fs, rs, keys)
    ensures CurvesInArena(rs, |keys|) && CurvesRecover(DecodeCurves(rs, keys), fs)
  {
    forall i | 0 <= i < |fs|
      ensures InArena(rs[i], |keys|) && Recovers(DecodeCurves(rs, keys)[i], fs[i])
    {
      assert ReadsBack(fs[i], rs[i], keys);
    }
  }

  /**
   * The round trip of one layer: the record `alloc_layer` wrote, read back by `decode`,
   * gives the layer back. Its name and every marker name pass through the NUL rule, its
   * scalar fields and marker times are equal, and its video, 3D and audio blocks are
   * present exactly as before, with every curve given back.
   */
  lemma StoredLayerReadsBack(r: RawLayer, l: Layer, a: Arenas, item: Item, id: LayerId)
    requires Readable(a) && LayerReadable(r, a) && LayerStored(r, l, a)
    ensures var x := LayerOf(r, a, item, id);
      x.name == CName(l.name) &&
      x.startTime == l.startTime && x.endTime == l.endTime &&
      x.offsetTime == l.offsetTime && x.timeScale == l.timeScale &&
      x.flags == l.flags && x.quality == l.quality &&
      |x.markers| == |l.markers| &&
      (forall j :: 0 <= j < |l.markers| ==> x.markers[j] == Marker(CName(l.markers[j].name), l.markers[j].time)) &&
      x.video.Some? == l.video.Some? && x.audio.Some? == l.audio.Some? &&
      (l.video.Some? ==> VideoRecovers(x.video.value, l.video.value)) &&
      (l.audio.Some? ==> CurvesRecover(AudioCurves(x.audio.value), AudioCurves(l.audio.value)))
  {
    var x := LayerOf(r, a, item, id);
    LayerOfReads(r, a, item, id);
    LayerBlocksRead(r, a, item, id);
    NameReadsBack(l.name);
    MarkersOfReads(r, a);
    forall j | 0 <= j < |l.markers|
      ensures x.markers[j] == Marker(CName(l.markers[j].name), l.markers[j].time)
    {
      var m := a.markers[r.markers.value + j];
      assert m.time == l.markers[j].time && a.names[m.name] == CName(l.markers[j].name);
      NameReadsBack(l.markers[j].name);
    }
    if l.video.Some? {
      var v, rv := l.video.value, a.layerVideos[r.video.value];
      assert VideoBlockStored(v, r.video.value, a);
      RunRecovers(VideoCurves(v), RawVideoCurves(rv), a.keys);
      if v.threeD.Some? {
        RunRecovers(Video3DCurves(v.threeD.value), RawVideo3DCurves(a.video3ds[rv.threeD.value]), a.keys);
      }
    }
    if l.audio.Some? {
      assert AudioBlockStored(l.audio.value, r.audio.value, a);
      RunRecovers(AudioCurves(l.audio.value), RawAudioCurves(a.layerAudios[r.audio.value]), a.keys);
    }
  }

  /**
   * `decode` with at most `fuel` levels of nested comps below this one; `None` when the
   * nesting is deeper (the source would recurse without end on a cycle) or a layer has an
   * item code above 3 (`unreachable!()`).
   */
  function DecodeComp(a: Arenas, r: RawComp, fuel: nat, next: nat): Option<Decoded>
    requires Readable(a) && r.layers + r.layersCount <= |a.layers|
    decreases fuel, 2, 0
  {
    DecodeRun(a, r, r.layersCount, fuel, next)
  }

  /**
   * The first `k` iterations of the layer loop: the item is decoded (merging the inner
   * map) before the layer's own `Rc` is made and inserted at its record's address.
   */
  function DecodeRun(a: Arenas, r: RawComp, k: nat, fuel: nat, next: nat): Option<Decoded>
    requires Readable(a) && r.layers + r.layersCount <= |a.layers| && k <= r.layersCount
    decreases fuel, 1, k
  {
    if k == 0 then Some(Decoded(Composition([]), map[], next))
    else
      match DecodeRun(a, r, k - 1, fuel, next)
      case None => None
      case Some(d) =>
        var addr := r.layers + k - 1;
        var l := a.layers[addr];
        match DecodeItem(a, l, fuel, d.next)
        case None => None
        case Some(it) => Some(Appended(d, it, l, a, addr))
  }

  /**
   * The end of one iteration: the layer's own `Rc` takes the identity after those of its
   * item and is inserted at `addr` after the item's map was merged in, so it replaces
   * whatever either held there.
   */
  function Appended(d: Decoded, it: ItemDecoded, l: RawLayer, a: Arenas, addr: nat): Decoded
    requires Readable(a) && LayerReadable(l, a)
  {
    var id := LayerId(it.next);
    Decoded(Composition(d.comp.layers + [LayerOf(l, a, it.item, id)]),
            (d.entries + it.entries)[addr := Entry(id, ParentAddress(l.parent))],
            it.next + 1)
  }

  /** The item of one layer record: a null pointer gives no item for every code. */
  function DecodeItem(a: Arenas, l: RawLayer, fuel: nat, next: nat): Option<ItemDecoded>
    requires Readable(a) && LayerReadable(l, a)
    decreases fuel, 0, 0
  {
    if l.itemType > 3 then None
    else if l.itemType == 0 || l.item.None? then Some(ItemDecoded(NoItem, map[], next))
    else if l.itemType == 1 then
      Some(ItemDecoded(VideoItem(VideoOf(a.videos[l.item.value], a)), map[], next))
    else if l.itemType == 2 then
      Some(ItemDecoded(AudioItem(Audio(a.audios[l.item.value].soundIndex)), map[], next))
    else if fuel == 0 then None
    else
      match DecodeComp(a, a.comps[l.item.value], fuel - 1, next)
      case None => None
      case Some(d) => Some(ItemDecoded(CompItem(d.comp), d.entries, d.next))
  }

  lemma AppendedShape(d: Decoded, it: ItemDecoded, l: RawLayer, a: Arenas, addr: nat)
    requires Readable(a) && LayerReadable(l, a)
    ensures var e := Appended(d, it, l, a, addr);
      e.next == it.next + 1 &&
      e.comp.layers == d.comp.layers + [LayerOf(l, a, it.item, LayerId(it.next))] &&
      e.entries.Keys == d.entries.Keys + it.entries.Keys + {addr} &&
      e.entries[addr] == Entry(LayerId(it.next), ParentAddress(l.parent)) &&
      forall p :: p in e.entries && p != addr ==>
        e.entries[p] == if p in it.entries then it.entries[p] else d.entries[p]
  {
  }

  /** Every layer of a tree has an identity in `lo .. hi`. */
  predicate IdsBetween(c: Composition, lo: nat, hi: nat)
    decreases c
  {
    forall i :: 0 <= i < |c.layers| ==>
      lo <= c.layers[i].id.n < hi &&
      (c.layers[i].item.CompItem? ==> IdsBetween(c.layers[i].item.comp, lo, hi))
  }

  predicate EntriesBetween(m: map<nat, Entry>, lo: nat, hi: nat) {
    forall k :: k in m ==> lo <= m[k].id.n < hi
  }

  /** No two addresses of the map hold the same `Rc`. */
  predicate Injective(m: map<nat, Entry>) {
    forall k1, k2 :: k1 in m && k2 in m && k1 != k2 ==> m[k1].id != m[k2].id
  }

  /** What one call of `decode` (or a prefix of its loop) returns. */
  predicate DecodedWell(d: Decoded, r: RawComp, k: nat, next: nat) {
    next <= d.next && |d.comp.layers| == k &&
    IdsBetween(d.comp, next, d.next) && EntriesBetween(d.entries, next, d.next) &&
    Injective(d.entries) &&
    forall p :: r.layers <= p < r.layers + k ==> p in d.entries
  }

  predicate ItemDecodedWell(it: ItemDecoded, next: nat) {
    next <= it.next && EntriesBetween(it.entries, next, it.next) && Injective(it.entries) &&
    (it.item.CompItem? ==> IdsBetween(it.item.comp, next, it.next))
  }

  lemma IdsBetweenWiden(c: Composition, lo: nat, hi: nat, lo': nat, hi': nat)
    requires IdsBetween(c, lo, hi) && lo' <= lo && hi <= hi'
    ensures IdsBetween(c, lo', hi')
    decreases c
  {
    forall i | 0 <= i < |c.layers| && c.layers[i].item.CompItem?
      ensures IdsBetween(c.layers[i].item.comp, lo', hi')
    {
      IdsBetweenWiden(c.layers[i].item.comp, lo, hi, lo', hi');
    }
  }

  /**
   * Each call of `decode` returns one layer per record of its run and a map with a key
   * for every record address of the run; it takes identities from `next` upwards only,
   * and no `Rc` is held at two addresses.
   */
  lemma {:induction false} DecodeCompWell(a: Arenas, r: RawComp, fuel: nat, next: nat)
    requires Readable(a) && r.layers + r.layersCount <= |a.layers|
    ensures DecodeComp(a, r, fuel, next).Some? ==>
      DecodedWell(DecodeComp(a, r, fuel, next).value, r, r.layersCount, next)
    decreases fuel, 2, 0, 0
  {
    DecodeRunWell(a, r, r.layersCount, fuel, next);
  }

  lemma {:induction false} DecodeRunWell(a: Arenas, r: RawComp, k: nat, fuel: nat, next: nat)
    requires Readable(a) && r.layers + r.layersCount <= |a.layers| && k <= r.layersCount
    ensures DecodeRun(a, r, k, fuel, next).Some? ==>
      DecodedWell(DecodeRun(a, r, k, fuel, next).value, r, k, next)
    decreases fuel, 1, k, 1
  {
    if k > 0 && DecodeRun(a, r, k, fuel, next).Some? {
      DecodeStepWell(a, r, k - 1, fuel, next);
    }
  }

  lemma {:induction false} DecodeStepWell(a: Arenas, r: RawComp, j: nat, fuel: nat, next: nat)
    requires Readable(a) && r.layers + r.layersCount <= |a.layers| && j < r.layersCount
    requires DecodeRun(a, r, j + 1, fuel, next).Some?
    ensures DecodedWell(DecodeRun(a, r, j + 1, fuel, next).value, r, j + 1, next)
    decreases fuel, 1, j + 1, 0
  {
    RunUnfold(a, r, j, fuel, next);
    var d := DecodeRun(a, r, j, fuel, next).value;
    DecodeRunWell(a, r, j, fuel, next);
    var l := a.layers[r.layers + j];
    DecodeItemWell(a, l, fuel, d.next);
    RunStepWell(a, r, j, next, d, l, DecodeItem(a, l, fuel, d.next).value);
  }

  /** A loop prefix that succeeds is the shorter prefix with one more layer appended. */
  lemma RunUnfold(a: Arenas, r: RawComp, j: nat, fuel: nat, next: nat)
    requires Readable(a) && r.layers + r.layersCount <= |a.layers| && j < r.layersCount
    requires DecodeRun(a, r, j + 1, fuel, next).Some?
    ensures var d := DecodeRun(a, r, j, fuel, next);
      var l := a.layers[r.layers + j];
      d.Some? && DecodeItem(a, l, fuel, d.value.next).Some? &&
      DecodeRun(a, r, j + 1, fuel, next).value ==
        Appended(d.value, DecodeItem(a, l, fuel, d.value.next).value, l, a, r.layers + j)
  {
    var d := DecodeRun(a, r, j, fuel, next);
    assert d.Some?;
    var l := a.layers[r.layers + j];
    assert DecodeItem(a, l, fuel, d.value.next).Some?;
  }

  /** A prefix and the next item decoded give the longer prefix. */
  lemma RunFold(a: Arenas, r: RawComp, j: nat, fuel: nat, next: nat, d: Decoded, it: ItemDecoded)
    requires Readable(a) && r.layers + r.layersCount <= |a.layers| && j < r.layersCount
    requires DecodeRun(a, r, j, fuel, next) == Some(d)
    requires DecodeItem(a, a.layers[r.layers + j], fuel, d.next) == Some(it)
    ensures DecodeRun(a, r, j + 1, fuel, next) == Some(Appended(d, it, a.layers[r.layers + j], a, r.layers + j))
  {
  }

  /** One iteration of the layer loop keeps `DecodedWell`. */
  lemma RunStepWell(a: Arenas, r: RawComp, j: nat, next: nat, d: Decoded, l: RawLayer, it: ItemDecoded)
    requires Readable(a) && LayerReadable(l, a)
    requires DecodedWell(d, r, j, next) && ItemDecodedWell(it, d.next)
    ensures DecodedWell(Appended(d, it, l, a, r.layers + j), r, j + 1, next)
  {
    var e := Appended(d, it, l, a, r.layers + j);
    AppendedShape(d, it, l, a, r.layers + j);
    MergeWell(d, it, next, r.layers + j, e);
    forall i | 0 <= i < j + 1
      ensures next <= e.comp.layers[i].id.n < e.next
      ensures e.comp.layers[i].item.CompItem? ==> IdsBetween(e.comp.layers[i].item.comp, next, e.next)
    {
      if i < j {
        assert e.comp.layers[i] == d.comp.layers[i];
        if d.comp.layers[i].item.CompItem? {
          IdsBetweenWiden(d.comp.layers[i].item.comp, next, d.next, next, e.next);
        }
      } else if it.item.CompItem? {
        IdsBetweenWiden(it.item.comp, d.next, it.next, next, e.next);
      }
    }
  }

  lemma {:induction false} DecodeItemWell(a: Arenas, l: RawLayer, fuel: nat, next: nat)
    requires Readable(a) && LayerReadable(l, a)
    ensures DecodeItem(a, l, fuel, next).Some? ==> ItemDecodedWell(DecodeItem(a, l, fuel, next).value, next)
    decreases fuel, 0, 0, 0
  {
    if 3 == l.itemType && l.item.Some? && fuel > 0 {
      DecodeCompWell(a, a.comps[l.item.value], fuel - 1, next);
    }
  }

  /**
   * `map.extend(inner_map)` and then `map.insert(addr, own)`: the merge keeps the maps'
   * identities apart, since they come from disjoint ranges and the own `Rc` is newer still.
   */
  lemma MergeWell(d: Decoded, it: ItemDecoded, next: nat, addr: nat, e: Decoded)
    requires Injective(d.entries) && EntriesBetween(d.entries, next, d.next) && next <= d.next
    requires ItemDecodedWell(it, d.next)
    requires e.entries.Keys == d.entries.Keys + it.entries.Keys + {addr}
    requires e.entries[addr] == Entry(LayerId(it.next), e.entries[addr].parent) && e.next == it.next + 1
    requires forall p :: p in e.entries && p != addr ==>
      e.entries[p] == if p in it.entries then it.entries[p] else d.entries[p]
    ensures Injective(e.entries) && EntriesBetween(e.entries, next, e.next)
  {
  }

  // ---------------------------------------------------------------------------------
  // The fuel bound only cuts off: a decode that succeeds gives the same result with more.

  lemma {:induction false} CompFuel(a: Arenas, r: RawComp, f: nat, g: nat, next: nat)
    requires Readable(a) && r.layers + r.layersCount <= |a.layers| && f <= g
    ensures DecodeComp(a, r, f, next).Some? ==> DecodeComp(a, r, g, next) == DecodeComp(a, r, f, next)
    decreases f, 2, 0, 0
  {
    RunFuel(a, r, r.layersCount, f, g, next);
  }

  lemma {:induction false} RunFuel(a: Arenas, r: RawComp, k: nat, f: nat, g: nat, next: nat)
    requires Readable(a) && r.layers + r.layersCount <= |a.layers| && k <= r.layersCount && f <= g
    ensures DecodeRun(a, r, k, f, next).Some? ==> DecodeRun(a, r, k, g, next) == DecodeRun(a, r, k, f, next)
    decreases f, 1, k, 1
  {
    if k > 0 && DecodeRun(a, r, k, f, next).Some? {
      RunFuelStep(a, r, k - 1, f, g, next);
    }
  }

  lemma {:induction false} RunFuelStep(a: Arenas, r: RawComp, j: nat, f: nat, g: nat, next: nat)
    requires Readable(a) && r.layers + r.layersCount <= |a.layers| && j < r.layersCount && f <= g
    requires DecodeRun(a, r, j + 1, f, next).Some?
    ensures DecodeRun(a, r, j + 1, g, next) == DecodeRun(a, r, j + 1, f, next)
    decreases f, 1, j + 1, 0
  {
    RunUnfold(a, r, j, f, next);
    RunFuel(a, r, j, f, g, next);
    var d := DecodeRun(a, r, j, f, next).value;
    var l := a.layers[r.layers + j];
    ItemFuel(a, l, f, g, d.next);
    RunFold(a, r, j, g, next, d, DecodeItem(a, l, f, d.next).value);
  }

  lemma {:induction false} ItemFuel(a: Arenas, l: RawLayer, f: nat, g: nat, next: nat)
    requires Readable(a) && LayerReadable(l, a) && f <= g
    ensures DecodeItem(a, l, f, next).Some? ==> DecodeItem(a, l, g, next) == DecodeItem(a, l, f, next)
    decreases f, 0, 0, 0
  {
    if l.itemType == 3 && l.item.Some? && 0 < f {
      var f', g' := f - 1, g - 1;
      CompFuel(a, a.comps[l.item.value], f', g', next);
    }
  }

  // ---------------------------------------------------------------------------------
  // The parent pass of `from_buf`.

  /** `map.get(parent).map(|(rc, _)| rc)`: the `Rc` the map holds at an address. */
  function Lookup(m: map<nat, Entry>, p: nat): Option<LayerId> {
    if p in m then Some(m[p].id) else None
  }

  /**
   * The parents the pass assigns: every map value whose record had a parent address gets
   * the `Rc` the map holds at that address, or none when it holds none there; values
   * without a parent address are skipped. The map is visited in no particular order;
   * since no `Rc` is held at two addresses, the order does not matter.
   */
  function ParentTable(m: map<nat, Entry>): (t: map<LayerId, Option<LayerId>>)
    requires Injective(m)
  {
    ParentTableOn(m, m.Keys)
  }

  /** The table after the pass has visited the values at the addresses `ks`. */
  function ParentTableOn(m: map<nat, Entry>, ks: set<nat>): (t: map<LayerId, Option<LayerId>>)
    requires Injective(m) && ks <= m.Keys
  {
    map k | k in ks && m[k].parent.Some? :: m[k].id := Lookup(m, m[k].parent.value)
  }

  /** Visiting one more value adds its entry, if it has a parent address, and changes no other. */
  lemma ParentTableVisit(m: map<nat, Entry>, ks: set<nat>, k: nat)
    requires Injective(m) && ks <= m.Keys && k in m && k !in ks
    ensures ParentTableOn(m, ks + {k}) ==
      if m[k].parent.Some? then ParentTableOn(m, ks)[m[k].id := Lookup(m, m[k].parent.value)]
      else ParentTableOn(m, ks)
  {
    var t0, t1 := ParentTableOn(m, ks), ParentTableOn(m, ks + {k});
    if m[k].parent.Some? {
      var t2 := t0[m[k].id := Lookup(m, m[k].parent.value)];
      assert t1.Keys == t2.Keys;
      forall x | x in t1
        ensures t1[x] == t2[x]
      {
        var q :| q in ks + {k} && m[q].parent.Some? && m[q].id == x;
      }
    } else {
      assert t1.Keys == t0.Keys;
    }
  }

  /** The table holds exactly the `Rc`s with a parent address, each with its parent's `Rc`. */
  lemma ParentTableEntries(m: map<nat, Entry>)
    requires Injective(m)
    ensures forall k :: k in m && m[k].parent.Some? ==>
      m[k].id in ParentTable(m) && ParentTable(m)[m[k].id] == Lookup(m, m[k].parent.value)
    ensures forall x :: x in ParentTable(m) ==> exists k :: k in m && m[k].parent.Some? && m[k].id == x
  {
  }

  /** Every layer of the tree whose `Rc` the pass visits gets its assigned parent. */
  function ResolveComp(c: Composition, t: map<LayerId, Option<LayerId>>): (out: Composition)
    ensures |out.layers| == |c.layers|
    decreases c, 1
  {
    Composition(seq(|c.layers|, i requires 0 <= i < |c.layers| => ResolveLayer(c.layers[i], t)))
  }

  function ResolveLayer(l: Layer, t: map<LayerId, Option<LayerId>>): (out: Layer)
    decreases l, 0
  {
    l.(parent := if l.id in t then t[l.id] else l.parent,
       item := if l.item.CompItem? then CompItem(ResolveComp(l.item.comp, t)) else l.item)
  }

  /** A tree with every parent cleared. */
  function Unparented(c: Composition): (out: Composition)
    ensures |out.layers| == |c.layers|
    decreases c, 1
  {
    Composition(seq(|c.layers|, i requires 0 <= i < |c.layers| => UnparentedLayer(c.layers[i])))
  }

  function UnparentedLayer(l: Layer): Layer
    decreases l, 0
  {
    l.(parent := None, item := if l.item.CompItem? then CompItem(Unparented(l.item.comp)) else l.item)
  }

  /** The parent pass changes parents and nothing else. */
  lemma {:induction false} ResolveOnlyParents(c: Composition, t: map<LayerId, Option<LayerId>>)
    ensures Unparented(ResolveComp(c, t)) == Unparented(c)
    decreases c, 1
  {
    var x, y := Unparented(ResolveComp(c, t)), Unparented(c);
    forall i | 0 <= i < |c.layers|
      ensures x.layers[i] == y.layers[i]
    {
      ResolveLayerOnlyParent(c.layers[i], t);
    }
  }

  lemma {:induction false} ResolveLayerOnlyParent(l: Layer, t: map<LayerId, Option<LayerId>>)
    ensures UnparentedLayer(ResolveLayer(l, t)) == UnparentedLayer(l)
    decreases l, 0
  {
    if l.item.CompItem? {
      ResolveOnlyParents(l.item.comp, t);
    }
  }

  /** Running the pass a second time with the same table changes nothing. */
  lemma {:induction false} ResolveIdempotent(c: Composition, t: map<LayerId, Option<LayerId>>)
    ensures ResolveComp(ResolveComp(c, t), t) == ResolveComp(c, t)
    decreases c, 1
  {
    var x, y := ResolveComp(ResolveComp(c, t), t), ResolveComp(c, t);
    forall i | 0 <= i < |c.layers|
      ensures x.layers[i] == y.layers[i]
    {
      ResolveLayerIdempotent(c.layers[i], t);
    }
  }

  lemma {:induction false} ResolveLayerIdempotent(l: Layer, t: map<LayerId, Option<LayerId>>)
    ensures ResolveLayer(ResolveLayer(l, t), t) == ResolveLayer(l, t)
    decreases l, 0
  {
    if l.item.CompItem? {
      ResolveIdempotent(l.item.comp, t);
    }
  }

  // ---------------------------------------------------------------------------------
  // `Set::from_buf`'s scene loop.

  datatype SceneDecoded = SceneDecoded(scene: Scene, next: nat)

  datatype ScenesDecoded = ScenesDecoded(scenes: seq<Scene>, next: nat)

  /** The comp `from_buf` decodes for a kept scene: the last of its run. */
  function RootOf(r: RawScene, a: Arenas): (c: RawComp)
    requires Readable(a) && Kept(r) && SceneReadable(r, a)
    ensures c.layers + c.layersCount <= |a.layers|
  {
    a.comps[r.comp.value + r.compCount - 1]
  }

  /** The fuel for a set: no chain of distinct comps is longer than the comp arena. */
  function Fuel(a: Arenas): nat {
    |a.comps|
  }

  /** One kept scene: its root decoded and its parents resolved, its name and camera read. */
  function DecodeScene(r: RawScene, a: Arenas, next: nat): Option<SceneDecoded>
    requires Readable(a) && Kept(r) && SceneReadable(r, a)
  {
    var root := RootOf(r, a);
    DecodeCompWell(a, root, Fuel(a), next);
    match DecodeComp(a, root, Fuel(a), next)
    case None => None
    case Some(d) =>
      Some(SceneDecoded(
        Scene(CRead(a.names[r.name]), r.startTime, r.endTime, r.fps, r.color, r.width, r.height,
              if r.camera.Some? then Some(CameraOf(a.cameras[r.camera.value], a.keys)) else None,
              ResolveComp(d.comp, ParentTable(d.entries))),
        d.next))
  }

  /** The first `k` iterations of the scene loop; skipped scenes add nothing. */
  function DecodeScenes(rs: seq<RawScene>, a: Arenas, k: nat, next: nat): Option<ScenesDecoded>
    requires Readable(a) && ScenesReadable(rs, a) && k <= |rs|
  {
    if k == 0 then Some(ScenesDecoded([], next))
    else
      match DecodeScenes(rs, a, k - 1, next)
      case None => None
      case Some(p) =>
        if !Kept(rs[k - 1]) then Some(p)
        else
          match DecodeScene(rs[k - 1], a, p.next)
          case None => None
          case Some(sd) => Some(ScenesDecoded(p.scenes + [sd.scene], sd.next))
  }

  /**
   * `Set::from_buf` on the unpacked set: the flags copied, `is_x` taken from the
   * big-endian flag, and one scene per kept scene record.
   */
  function FromBufSpec(h: RawSet, a: Arenas): (res: Option<AetSet>)
    requires Readable(a) && ScenesReadable(h.scenes, a)
    ensures res.Some? ==> res.value.modern == h.modern && res.value.bigEndian == h.bigEndian
    ensures res.Some? ==> res.value.isX == h.bigEndian
  {
    match DecodeScenes(h.scenes, a, |h.scenes|, 0)
    case None => None
    case Some(p) => Some(AetSet(h.modern, h.bigEndian, h.bigEndian, p.scenes))
  }

  /** How many of the first `k` scene records are kept. */
  function KeptCount(rs: seq<RawScene>, k: nat): nat
    requires k <= |rs|
  {
    if k == 0 then 0 else KeptCount(rs, k - 1) + (if Kept(rs[k - 1]) then 1 else 0)
  }

  /** The scene loop yields exactly one scene per kept record. */
  lemma {:induction false} DecodeScenesCount(rs: seq<RawScene>, a: Arenas, k: nat, next: nat)
    requires Readable(a) && ScenesReadable(rs, a) && k <= |rs|
    ensures DecodeScenes(rs, a, k, next).Some? ==> |DecodeScenes(rs, a, k, next).value.scenes| == KeptCount(rs, k)
  {
    if k > 0 {
      var j := k - 1;
      DecodeScenesCount(rs, a, j, next);
    }
  }

  lemma FromBufSceneCount(h: RawSet, a: Arenas)
    requires Readable(a) && ScenesReadable(h.scenes, a)
    ensures FromBufSpec(h, a).Some? ==> |FromBufSpec(h, a).value.scenes| == KeptCount(h.scenes, |h.scenes|)
  {
    DecodeScenesCount(h.scenes, a, |h.scenes|, 0);
  }

  // ---------------------------------------------------------------------------------
  // One iteration at a time, for the loops of `decode` and `from_buf`.

  lemma RunFailStep(a: Arenas, r: RawComp, j: nat, fuel: nat, next: nat)
    requires Readable(a) && r.layers + r.layersCount <= |a.layers| && j < r.layersCount
    requires DecodeRun(a, r, j, fuel, next).None?
    ensures DecodeRun(a, r, j + 1, fuel, next).None?
  {
  }

  lemma ItemFailStep(a: Arenas, r: RawComp, j: nat, fuel: nat, next: nat, d: Decoded)
    requires Readable(a) && r.layers + r.layersCount <= |a.layers| && j < r.layersCount
    requires DecodeRun(a, r, j, fuel, next) == Some(d)
    requires DecodeItem(a, a.layers[r.layers + j], fuel, d.next).None?
    ensures DecodeRun(a, r, j + 1, fuel, next).None?
  {
  }

  lemma ScenesSkip(rs: seq<RawScene>, a: Arenas, j: nat, next: nat)
    requires Readable(a) && ScenesReadable(rs, a) && j < |rs| && !Kept(rs[j])
    ensures DecodeScenes(rs, a, j + 1, next) == DecodeScenes(rs, a, j, next)
  {
  }

  lemma ScenesFold(rs: seq<RawScene>, a: Arenas, j: nat, next: nat, p: ScenesDecoded, sd: SceneDecoded)
    requires Readable(a) && ScenesReadable(rs, a) && j < |rs| && Kept(rs[j])
    requires DecodeScenes(rs, a, j, next) == Some(p)
    requires DecodeScene(rs[j], a, p.next) == Some(sd)
    ensures DecodeScenes(rs, a, j + 1, next) == Some(ScenesDecoded(p.scenes + [sd.scene], sd.next))
  {
  }

  lemma ScenesFailStep(rs: seq<RawScene>, a: Arenas, j: nat, next: nat)
    requires Readable(a) && ScenesReadable(rs, a) && j < |rs|
    requires DecodeScenes(rs, a, j, next).None?
    ensures DecodeScenes(rs, a, j + 1, next).None?
  {
  }

  lemma SceneFailStep(rs: seq<RawScene>, a: Arenas, j: nat, next: nat, p: ScenesDecoded)
    requires Readable(a) && ScenesReadable(rs, a) && j < |rs| && Kept(rs[j])
    requires DecodeScenes(rs, a, j, next) == Some(p)
    requires DecodeScene(rs[j], a, p.next).None?
    ensures DecodeScenes(rs, a, j + 1, next).None?
  {
  }
}
