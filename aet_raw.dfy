/**
 * The flat `repr(C)` records of `src/aet.rs` that `to_buf` hands to the packer and
 * `from_buf` receives from the unpacker, the arenas that hold them, and the comparisons
 * the flattening pass makes between an owned value and an emitted record.
 *
 * A pointer into an arena is an index into the corresponding sequence; a nullable
 * pointer is an `Option` of one. A layer's parent pointer holds, before the fix-up pass,
 * the identity of the parent's `Rc` and afterwards the address of the parent's record.
 */
module AetRaw {
  import opened Ints
  import opened Float32
  import opened Wrappers
  import opened AetGraph
  import opened AetCurves

  datatype RawLayerVideo3D = RawLayerVideo3D(
    anchorZ: RawFCurve, posZ: RawFCurve, dirX: RawFCurve, dirY: RawFCurve,
    dirZ: RawFCurve, rotX: RawFCurve, rotY: RawFCurve, scaleZ: RawFCurve)

  datatype RawLayerVideo = RawLayerVideo(
    transferMode: TransferMode,
    anchorX: RawFCurve, anchorY: RawFCurve, posX: RawFCurve, posY: RawFCurve,
    rotZ: RawFCurve, scaleX: RawFCurve, scaleY: RawFCurve, opacity: RawFCurve,
    threeD: Option<nat>)

  datatype RawLayerAudio = RawLayerAudio(volumeL: RawFCurve, volumeR: RawFCurve, panL: RawFCurve, panR: RawFCurve)

  datatype RawCamera = RawCamera(
    eyeX: RawFCurve, eyeY: RawFCurve, eyeZ: RawFCurve, posX: RawFCurve, posY: RawFCurve,
    posZ: RawFCurve, dirX: RawFCurve, dirY: RawFCurve, dirZ: RawFCurve, rotX: RawFCurve,
    rotY: RawFCurve, rotZ: RawFCurve, zoom: RawFCurve)

  /** `aet_video_src`: `spriteName` points into the name arena. */
  datatype RawVideoSource = RawVideoSource(spriteName: nat, spriteIndex: u32)

  /** `aet_video`: its sources are the run `sources .. sources + sourcesCount`. */
  datatype RawVideo = RawVideo(color: Rgb, width: u16, height: u16, fpf: F32, sourcesCount: nat, sources: nat)

  datatype RawAudio = RawAudio(soundIndex: u32)

  datatype RawMarker = RawMarker(time: F32, name: nat)

  /** `aet_layer::parent`: null, an `Rc` identity (before the fix-up), or a layer address. */
  datatype RawParent = NoParent | ParentRc(id: LayerId) | ParentAt(addr: nat)

  /**
   * `aet_layer`. `itemType` is 0 (none), 1 (video), 2 (audio) or 3 (comp), and `item`
   * points into the arena of that kind.
   */
  datatype RawLayer = RawLayer(
    name: nat,
    startTime: F32, endTime: F32, offsetTime: F32, timeScale: F32,
    flags: u16, quality: byte,
    itemType: byte, item: Option<nat>,
    parent: RawParent,
    markersCount: nat, markers: Option<nat>,
    video: Option<nat>, audio: Option<nat>)

  /** `aet_comp`: its layers are the run `layers .. layers + layersCount`. */
  datatype RawComp = RawComp(layersCount: nat, layers: nat)

  /** `aet_scene`: its comps are `comp .. comp + compCount`, the root being the last. */
  datatype RawScene = RawScene(
    name: nat, startTime: F32, endTime: F32, fps: F32, color: Rgb, width: u32, height: u32,
    camera: Option<nat>,
    compCount: nat, comp: Option<nat>,
    videoCount: nat, video: Option<nat>,
    audioCount: nat, audio: Option<nat>)

  /** The arenas a flat set lives in. */
  datatype Arenas = Arenas(
    audios: seq<RawAudio>,
    cameras: seq<RawCamera>,
    comps: seq<RawComp>,
    keys: seq<F32>,
    layerAudios: seq<RawLayerAudio>,
    layers: seq<RawLayer>,
    video3ds: seq<RawLayerVideo3D>,
    layerVideos: seq<RawLayerVideo>,
    markers: seq<RawMarker>,
    names: seq<string>,
    scenes: seq<RawScene>,
    videos: seq<RawVideo>,
    videoSources: seq<RawVideoSource>)

  /** `aet_set`, as `to_buf` hands it to the packer and `from_buf` gets it back from the unpacker. */
  datatype RawSet = RawSet(ready: bool, modern: bool, bigEndian: bool, isX: bool, scenes: seq<RawScene>)

  function RawVideo3DCurves(v: RawLayerVideo3D): seq<RawFCurve> {
    [v.anchorZ, v.posZ, v.dirX, v.dirY, v.dirZ, v.rotX, v.rotY, v.scaleZ]
  }

  function RawVideoCurves(v: RawLayerVideo): seq<RawFCurve> {
    [v.anchorX, v.anchorY, v.posX, v.posY, v.rotZ, v.scaleX, v.scaleY, v.opacity]
  }

  function RawAudioCurves(a: RawLayerAudio): seq<RawFCurve> {
    [a.volumeL, a.volumeR, a.panL, a.panR]
  }

  function RawCameraCurves(c: RawCamera): seq<RawFCurve> {
    [c.eyeX, c.eyeY, c.eyeZ, c.posX, c.posY, c.posZ, c.dirX, c.dirY, c.dirZ,
     c.rotX, c.rotY, c.rotZ, c.zoom]
  }

  // Records built from a run of curve records, in declaration order.

  function RawVideo3DFrom(rs: seq<RawFCurve>): (v: RawLayerVideo3D)
    requires |rs| == 8
    ensures RawVideo3DCurves(v) == rs
  {
    RawLayerVideo3D(rs[0], rs[1], rs[2], rs[3], rs[4], rs[5], rs[6], rs[7])
  }

  function RawVideoFrom(mode: TransferMode, rs: seq<RawFCurve>, threeD: Option<nat>): (v: RawLayerVideo)
    requires |rs| == 8
    ensures RawVideoCurves(v) == rs && v.transferMode == mode && v.threeD == threeD
  {
    RawLayerVideo(mode, rs[0], rs[1], rs[2], rs[3], rs[4], rs[5], rs[6], rs[7], threeD)
  }

  function RawAudioFrom(rs: seq<RawFCurve>): (a: RawLayerAudio)
    requires |rs| == 4
    ensures RawAudioCurves(a) == rs
  {
    RawLayerAudio(rs[0], rs[1], rs[2], rs[3])
  }

  function RawCameraFrom(rs: seq<RawFCurve>): (c: RawCamera)
    requires |rs| == 13
    ensures RawCameraCurves(c) == rs
  {
    RawCamera(rs[0], rs[1], rs[2], rs[3], rs[4], rs[5], rs[6], rs[7], rs[8], rs[9], rs[10], rs[11], rs[12])
  }

  predicate CurvesInArena(cs: seq<RawFCurve>, size: nat) {
    forall i :: 0 <= i < |cs| ==> InArena(cs[i], size)
  }

  // ---------------------------------------------------------------------------------
  // The pointers the flattening pass stores and then reads again in its dedup scans.

  predicate NamesOk(a: Arenas) {
    forall i :: 0 <= i < |a.names| ==> !HasNul(a.names[i])
  }

  predicate Video3DsOk(a: Arenas) {
    forall i :: 0 <= i < |a.video3ds| ==> CurvesInArena(RawVideo3DCurves(a.video3ds[i]), |a.keys|)
  }

  predicate LayerVideoOk(v: RawLayerVideo, a: Arenas) {
    CurvesInArena(RawVideoCurves(v), |a.keys|) && (v.threeD.Some? ==> v.threeD.value < |a.video3ds|)
  }

  predicate LayerVideosOk(a: Arenas) {
    forall i :: 0 <= i < |a.layerVideos| ==> LayerVideoOk(a.layerVideos[i], a)
  }

  predicate LayerAudiosOk(a: Arenas) {
    forall i :: 0 <= i < |a.layerAudios| ==> CurvesInArena(RawAudioCurves(a.layerAudios[i]), |a.keys|)
  }

  /**
   * The item code and pointer `alloc_item` leaves in a layer: code 0 with no pointer, or
   * code 1, 2 or 3 with a pointer into the video, audio or comp arena.
   */
  predicate ItemOk(itemType: byte, item: Option<nat>, a: Arenas) {
    match itemType
    case 0 => item.None?
    case 1 => item.Some? && item.value < |a.videos|
    case 2 => item.Some? && item.value < |a.audios|
    case 3 => item.Some? && item.value < |a.comps|
    case _ => false
  }

  predicate LayerOk(l: RawLayer, a: Arenas) {
    l.name < |a.names| &&
    (l.video.Some? ==> l.video.value < |a.layerVideos|) &&
    (l.audio.Some? ==> l.audio.value < |a.layerAudios|) &&
    ItemOk(l.itemType, l.item, a)
  }

  predicate LayersOk(a: Arenas) {
    forall i :: 0 <= i < |a.layers| ==> LayerOk(a.layers[i], a)
  }

  predicate CompsOk(a: Arenas) {
    forall i :: 0 <= i < |a.comps| ==> a.comps[i].layers + a.comps[i].layersCount <= |a.layers|
  }

  predicate VideosOk(a: Arenas) {
    forall i :: 0 <= i < |a.videos| ==> a.videos[i].sources + a.videos[i].sourcesCount <= |a.videoSources|
  }

  predicate VideoSourcesOk(a: Arenas) {
    forall i :: 0 <= i < |a.videoSources| ==> a.videoSources[i].spriteName < |a.names|
  }

  /** Every pointer that the dedup scans follow lies inside its arena, and no stored name holds NUL. */
  predicate Linked(a: Arenas) {
    NamesOk(a) && Video3DsOk(a) && LayerVideosOk(a) && LayerAudiosOk(a) && LayersOk(a) &&
    CompsOk(a) && VideosOk(a) && VideoSourcesOk(a)
  }

  // ---------------------------------------------------------------------------------
  // `fcurve_eq` lifted to blocks, and `layer_eq`.

  predicate Video3DMatches(v: LayerVideo3D, r: RawLayerVideo3D, keys: seq<F32>)
    requires CurvesInArena(RawVideo3DCurves(r), |keys|)
  {
    var rs := RawVideo3DCurves(r);
    var vs := Video3DCurves(v);
    forall i :: 0 <= i < 8 ==> CurveMatches(vs[i], rs[i], keys)
  }

  /** The comparison of a layer's video block in `layer_eq`. */
  predicate LayerVideoMatches(v: LayerVideo, r: RawLayerVideo, a: Arenas)
    requires LayerVideoOk(r, a) && Video3DsOk(a)
  {
    var rs := RawVideoCurves(r);
    var vs := VideoCurves(v);
    v.transferMode == r.transferMode &&
    (forall i :: 0 <= i < 8 ==> CurveMatches(vs[i], rs[i], a.keys)) &&
    v.threeD.Some? == r.threeD.Some? &&
    (v.threeD.Some? ==> Video3DMatches(v.threeD.value, a.video3ds[r.threeD.value], a.keys))
  }

  predicate LayerAudioMatches(v: LayerAudio, r: RawLayerAudio, keys: seq<F32>)
    requires CurvesInArena(RawAudioCurves(r), |keys|)
  {
    var rs := RawAudioCurves(r);
    var vs := AudioCurves(v);
    forall i :: 0 <= i < 4 ==> CurveMatches(vs[i], rs[i], keys)
  }

  /**
   * `layer_eq`: the stored name, the four times and the flags equal the owned layer's;
   * the video and audio blocks are present on both sides or on neither, and present
   * blocks agree on the transfer mode, the presence of the 3D block and every curve.
   */
  predicate LayerMatches(own: Layer, r: RawLayer, a: Arenas)
    requires Linked(a) && LayerOk(r, a)
  {
    a.names[r.name] == own.name &&
    FEq(r.startTime, own.startTime) && FEq(r.endTime, own.endTime) &&
    FEq(r.offsetTime, own.offsetTime) && FEq(r.timeScale, own.timeScale) &&
    r.flags == own.flags &&
    r.video.Some? == own.video.Some? && r.audio.Some? == own.audio.Some? &&
    (own.video.Some? ==> LayerVideoMatches(own.video.value, a.layerVideos[r.video.value], a)) &&
    (own.audio.Some? ==> LayerAudioMatches(own.audio.value, a.layerAudios[r.audio.value], a.keys))
  }

  /** The fields `layer_eq` compares: two layers equal on them match the same records. */
  predicate SameComparedFields(x: Layer, y: Layer) {
    x.name == y.name && x.startTime == y.startTime && x.endTime == y.endTime &&
    x.offsetTime == y.offsetTime && x.timeScale == y.timeScale && x.flags == y.flags &&
    x.video == y.video && x.audio == y.audio
  }

  /** `layer_eq` never looks at the quality, the markers, the item, the parent or the identity. */
  lemma LayerMatchesIgnoresRest(x: Layer, quality: byte, item: Item, markers: seq<Marker>,
                                parent: Option<LayerId>, id: LayerId, r: RawLayer, a: Arenas)
    requires Linked(a) && LayerOk(r, a)
    ensures var y := x.(quality := quality, item := item, markers := markers, parent := parent, id := id);
      LayerMatches(x, r, a) == LayerMatches(y, r, a)
  {
  }

  /** The video scan's test in `alloc_item`: equal header fields and equal sources, element by element. */
  predicate VideoMatches(v: Video, r: RawVideo, a: Arenas)
    requires r.sources + r.sourcesCount <= |a.videoSources| && VideoSourcesOk(a)
  {
    r.color == v.color && r.width == v.width && r.height == v.height && FEq(r.fpf, v.fpf) &&
    r.sourcesCount == |v.sources| &&
    forall j :: 0 <= j < r.sourcesCount ==>
      a.names[a.videoSources[r.sources + j].spriteName] == v.sources[j].name &&
      a.videoSources[r.sources + j].spriteIndex == v.sources[j].id
  }

  /** The comp scan's test in `alloc_item`: equal layer count and `layer_eq` on every layer of the run. */
  predicate CompMatches(c: Composition, r: RawComp, a: Arenas)
    requires Linked(a) && r.layers + r.layersCount <= |a.layers|
  {
    r.layersCount == |c.layers| &&
    forall j :: 0 <= j < |c.layers| ==> LayerMatches(c.layers[j], a.layers[r.layers + j], a)
  }

  /** The first video record among arena indices `from .. count` that the scan accepts. */
  function FirstVideo(v: Video, a: Arenas, count: nat, from: nat): (m: Option<nat>)
    requires Linked(a) && count <= |a.videos|
    ensures m.Some? ==> from <= m.value < count && VideoMatches(v, a.videos[m.value], a)
    ensures m.Some? ==> forall j :: from <= j < m.value ==> !VideoMatches(v, a.videos[j], a)
    ensures m.None? ==> forall j :: from <= j < count ==> !VideoMatches(v, a.videos[j], a)
    decreases count - from
  {
    if from >= count then None
    else if VideoMatches(v, a.videos[from], a) then Some(from)
    else FirstVideo(v, a, count, from + 1)
  }

  function FirstAudio(au: Audio, audios: seq<RawAudio>, count: nat, from: nat): (m: Option<nat>)
    requires count <= |audios|
    ensures m.Some? ==> from <= m.value < count && audios[m.value].soundIndex == au.soundIndex
    ensures m.Some? ==> forall j :: from <= j < m.value ==> audios[j].soundIndex != au.soundIndex
    ensures m.None? ==> forall j :: from <= j < count ==> audios[j].soundIndex != au.soundIndex
    decreases count - from
  {
    if from >= count then None
    else if audios[from].soundIndex == au.soundIndex then Some(from)
    else FirstAudio(au, audios, count, from + 1)
  }

  function FirstComp(c: Composition, a: Arenas, count: nat, from: nat): (m: Option<nat>)
    requires Linked(a) && count <= |a.comps|
    ensures m.Some? ==> from <= m.value < count && CompMatches(c, a.comps[m.value], a)
    ensures m.Some? ==> forall j :: from <= j < m.value ==> !CompMatches(c, a.comps[j], a)
    ensures m.None? ==> forall j :: from <= j < count ==> !CompMatches(c, a.comps[j], a)
    decreases count - from
  {
    if from >= count then None
    else if CompMatches(c, a.comps[from], a) then Some(from)
    else FirstComp(c, a, count, from + 1)
  }
}
