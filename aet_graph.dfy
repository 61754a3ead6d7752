/**
 * The owned animation-scene graph of `src/aet.rs`: curves, layer blocks, items, layers,
 * compositions, scenes and the set, with the equality operators the source derives or
 * writes by hand.
 *
 * A layer is shared through `Rc<Mutex<Layer>>`; here every layer carries the identity of
 * its `Rc` (`id`), and a parent is that identity. Enumerations and bit-fields (blend mode,
 * quality, flags) are kept as their integer codes.
 */
module AetGraph {
  import opened Ints
  import opened Float32
  import opened Wrappers

  /** The identity of one `Rc<Mutex<Layer>>` allocation. */
  datatype LayerId = LayerId(n: nat)

  datatype FCurveKey = FCurveKey(frame: F32, value: F32, tangent: F32)

  datatype FCurve = FCurve(keys: seq<FCurveKey>)

  /** `mode` is the `u8` code of the blend mode. */
  datatype TransferMode = TransferMode(mode: byte, flag: byte, matte: byte)

  datatype LayerVideo3D = LayerVideo3D(
    anchorZ: FCurve, posZ: FCurve, dirX: FCurve, dirY: FCurve,
    dirZ: FCurve, rotX: FCurve, rotY: FCurve, scaleZ: FCurve)

  datatype LayerVideo = LayerVideo(
    transferMode: TransferMode,
    anchorX: FCurve, anchorY: FCurve, posX: FCurve, posY: FCurve,
    rotZ: FCurve, scaleX: FCurve, scaleY: FCurve, opacity: FCurve,
    threeD: Option<LayerVideo3D>)

  datatype LayerAudio = LayerAudio(volumeL: FCurve, volumeR: FCurve, panL: FCurve, panR: FCurve)

  datatype Camera = Camera(
    eyeX: FCurve, eyeY: FCurve, eyeZ: FCurve, posX: FCurve, posY: FCurve, posZ: FCurve,
    dirX: FCurve, dirY: FCurve, dirZ: FCurve, rotX: FCurve, rotY: FCurve, rotZ: FCurve,
    zoom: FCurve)

  datatype VideoSource = VideoSource(name: string, id: u32)

  datatype Rgb = Rgb(r: byte, g: byte, b: byte)

  datatype Video = Video(color: Rgb, width: u16, height: u16, fpf: F32, sources: seq<VideoSource>)

  datatype Audio = Audio(soundIndex: u32)

  datatype Marker = Marker(name: string, time: F32)

  datatype Item = NoItem | VideoItem(video: Video) | AudioItem(audio: Audio) | CompItem(comp: Composition)

  /** `flags` is `LayerFlags::into_bits`, `quality` the code of the quality enum. */
  datatype Layer = Layer(
    id: LayerId,
    name: string,
    startTime: F32, endTime: F32, offsetTime: F32, timeScale: F32,
    flags: u16,
    quality: byte,
    item: Item,
    markers: seq<Marker>,
    video: Option<LayerVideo>,
    audio: Option<LayerAudio>,
    parent: Option<LayerId>)

  datatype Composition = Composition(layers: seq<Layer>)

  datatype Scene = Scene(
    name: string, startTime: F32, endTime: F32, fps: F32, color: Rgb,
    width: u32, height: u32, camera: Option<Camera>, root: Composition)

  datatype AetSet = AetSet(modern: bool, bigEndian: bool, isX: bool, scenes: seq<Scene>)

  /** The curves of each block, in declaration order. */
  function Video3DCurves(v: LayerVideo3D): (cs: seq<FCurve>)
    ensures |cs| == 8
  {
    [v.anchorZ, v.posZ, v.dirX, v.dirY, v.dirZ, v.rotX, v.rotY, v.scaleZ]
  }

  function VideoCurves(v: LayerVideo): (cs: seq<FCurve>)
    ensures |cs| == 8
  {
    [v.anchorX, v.anchorY, v.posX, v.posY, v.rotZ, v.scaleX, v.scaleY, v.opacity]
  }

  function AudioCurves(a: LayerAudio): (cs: seq<FCurve>)
    ensures |cs| == 4
  {
    [a.volumeL, a.volumeR, a.panL, a.panR]
  }

  function CameraCurves(c: Camera): (cs: seq<FCurve>)
    ensures |cs| == 13
  {
    [c.eyeX, c.eyeY, c.eyeZ, c.posX, c.posY, c.posZ, c.dirX, c.dirY, c.dirZ,
     c.rotX, c.rotY, c.rotZ, c.zoom]
  }

  // ---------------------------------------------------------------------------------
  // Equality. Every `==` on an `f32` is IEEE equality (`FEq`); `Vec` equality compares
  // lengths and then the elements pairwise.

  predicate KeyEq(a: FCurveKey, b: FCurveKey) {
    FEq(a.frame, b.frame) && FEq(a.value, b.value) && FEq(a.tangent, b.tangent)
  }

  predicate CurveEq(a: FCurve, b: FCurve) {
    |a.keys| == |b.keys| && forall i :: 0 <= i < |a.keys| ==> KeyEq(a.keys[i], b.keys[i])
  }

  predicate CurvesEq(a: seq<FCurve>, b: seq<FCurve>) {
    |a| == |b| && forall i :: 0 <= i < |a| ==> CurveEq(a[i], b[i])
  }

  predicate Video3DEq(a: LayerVideo3D, b: LayerVideo3D) {
    CurvesEq(Video3DCurves(a), Video3DCurves(b))
  }

  predicate LayerVideoEq(a: LayerVideo, b: LayerVideo) {
    a.transferMode == b.transferMode && CurvesEq(VideoCurves(a), VideoCurves(b)) &&
    match (a.threeD, b.threeD)
    case (None, None) => true
    case (Some(x), Some(y)) => Video3DEq(x, y)
    case _ => false
  }

  predicate LayerAudioEq(a: LayerAudio, b: LayerAudio) {
    CurvesEq(AudioCurves(a), AudioCurves(b))
  }

  predicate OptionVideoEq(a: Option<LayerVideo>, b: Option<LayerVideo>) {
    match (a, b)
    case (None, None) => true
    case (Some(x), Some(y)) => LayerVideoEq(x, y)
    case _ => false
  }

  predicate OptionAudioEq(a: Option<LayerAudio>, b: Option<LayerAudio>) {
    match (a, b)
    case (None, None) => true
    case (Some(x), Some(y)) => LayerAudioEq(x, y)
    case _ => false
  }

  predicate VideoEq(a: Video, b: Video) {
    a.color == b.color && a.width == b.width && a.height == b.height && FEq(a.fpf, b.fpf) &&
    a.sources == b.sources
  }

  predicate MarkersEq(a: seq<Marker>, b: seq<Marker>) {
    |a| == |b| &&
    forall i :: 0 <= i < |a| ==> a[i].name == b[i].name && FEq(a[i].time, b[i].time)
  }

  /** The derived `PartialEq` of `Item`: same variant, equal payloads. */
  predicate ItemEq(a: Item, b: Item) {
    match (a, b)
    case (NoItem, NoItem) => true
    case (VideoItem(x), VideoItem(y)) => VideoEq(x, y)
    case (AudioItem(x), AudioItem(y)) => x == y
    case (CompItem(x), CompItem(y)) => CompEq(x, y)
    case _ => false
  }

  /**
   * `PartialEq for Layer`: the parents are the same `Rc` (or both absent), and every other
   * field is equal.
   */
  predicate LayerEq(a: Layer, b: Layer) {
    a.parent == b.parent &&
    a.name == b.name &&
    FEq(a.startTime, b.startTime) && FEq(a.endTime, b.endTime) &&
    FEq(a.offsetTime, b.offsetTime) && FEq(a.timeScale, b.timeScale) &&
    a.flags == b.flags && a.quality == b.quality &&
    ItemEq(a.item, b.item) &&
    MarkersEq(a.markers, b.markers) &&
    OptionVideoEq(a.video, b.video) && OptionAudioEq(a.audio, b.audio)
  }

  /**
   * `PartialEq for Composition` zips the two layer lists, so only the common prefix is
   * compared.
   */
  predicate CompEq(a: Composition, b: Composition) {
    forall i :: 0 <= i < |a.layers| && i < |b.layers| ==> LayerEq(a.layers[i], b.layers[i])
  }

  /**
   * No zipped pair of layers is one `Rc`. Only then does `Composition::eq` return: for a
   * shared `Rc` the second `lock()` is taken while the first guard is still held.
   */
  predicate DistinctPairs(a: Composition, b: Composition) {
    forall i :: 0 <= i < |a.layers| && i < |b.layers| ==> a.layers[i].id != b.layers[i].id
  }

  /**
   * Because of the zip, layers appended after a longer composition's first `|c.layers|`
   * are never compared: `c` equals `d` extended by anything exactly when it equals `d`, and
   * the extension shares no more `Rc`s with `c` than `d` does.
   */
  lemma CompEqIgnoresExtraLayers(c: Composition, d: Composition, extra: seq<Layer>)
    requires |c.layers| <= |d.layers| && DistinctPairs(c, d)
    ensures DistinctPairs(c, Composition(d.layers + extra))
    ensures CompEq(c, Composition(d.layers + extra)) == CompEq(c, d)
  {
    var e := Composition(d.layers + extra);
    forall i | 0 <= i < |c.layers|
      ensures e.layers[i] == d.layers[i]
    {
    }
  }

  /**
   * In particular, a composition equals any composition that starts with layers equal
   * to its own, held in other `Rc`s, whatever follows them.
   */
  lemma CompEqualsLongerCopy(c: Composition, d: Composition, extra: seq<Layer>)
    requires |c.layers| == |d.layers| && DistinctPairs(c, d)
    requires forall i :: 0 <= i < |c.layers| ==> LayerEq(c.layers[i], d.layers[i])
    ensures DistinctPairs(c, Composition(d.layers + extra)) && CompEq(c, Composition(d.layers + extra))
  {
    CompEqIgnoresExtraLayers(c, d, extra);
  }

  /** In particular the empty composition equals every composition. */
  lemma EmptyCompEqualsAll(c: Composition)
    ensures CompEq(Composition([]), c) && CompEq(c, Composition([]))
  {
  }
}
