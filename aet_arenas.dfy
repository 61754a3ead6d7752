/**
 * The arenas of the flattening pass as values: what a layer or video record holds, how
 * the arenas may change while a scene is allocated, and that each append or patch keeps
 * every pointer inside its arena.
 */
module AetArenas {
  import opened Ints
  import opened Float32
  import opened Wrappers
  import opened AetGraph
  import opened AetCurves
  import opened AetCounts
  import opened AetRaw

  /** `CString::new(s).unwrap_or_default()`: a string holding NUL becomes the empty string. */
  function CName(s: string): (c: string)
    ensures !HasNul(c)
    ensures HasNul(s) ==> c == ""
    ensures !HasNul(s) ==> c == s
  {
    if HasNul(s) then "" else s
  }

  /** The `item_type` code `alloc_item` returns for each kind of item. */
  function ItemType(i: Item): byte {
    match i
    case NoItem => 0
    case VideoItem(_) => 1
    case AudioItem(_) => 2
    case CompItem(_) => 3
  }

  /** The parent field of a layer record before the fix-up pass: the parent's `Rc` identity. */
  function ParentField(p: Option<LayerId>): RawParent {
    match p
    case None => NoParent
    case Some(id) => ParentRc(id)
  }

  /** A layer record holds the owned layer's fields (all but the item, patched later). */
  predicate StoresLayer(r: RawLayer, l: Layer, names: seq<string>) {
    r.name < |names| && names[r.name] == CName(l.name) &&
    r.startTime == l.startTime && r.endTime == l.endTime &&
    r.offsetTime == l.offsetTime && r.timeScale == l.timeScale &&
    r.flags == l.flags && r.quality == l.quality &&
    r.parent == ParentField(l.parent) &&
    r.markersCount == |l.markers| && (r.markers.None? <==> l.markers == []) &&
    r.video.Some? == l.video.Some? && r.audio.Some? == l.audio.Some?
  }

  /** A video record and its sources hold the owned video. */
  predicate StoresVideo(r: RawVideo, v: Video, a: Arenas) {
    r.color == v.color && r.width == v.width && r.height == v.height && r.fpf == v.fpf &&
    r.sourcesCount == |v.sources| && r.sources + r.sourcesCount <= |a.videoSources| &&
    SourcesStored(r, v, a)
  }

  /** The source run of a video record: each record with its sprite's own name and id. */
  predicate SourcesStored(r: RawVideo, v: Video, a: Arenas) {
    r.sources + |v.sources| <= |a.videoSources| &&
    forall j :: 0 <= j < |v.sources| ==> SourceHeld(r, v, a, j)
  }

  /** Source `j` of the run at `r.sources` names the sprite of `v`'s source `j` and carries its id. */
  predicate SourceHeld(r: RawVideo, v: Video, a: Arenas, j: int) {
    0 <= j < |v.sources| && r.sources + j < |a.videoSources| &&
    a.videoSources[r.sources + j].spriteName < |a.names| &&
    a.names[a.videoSources[r.sources + j].spriteName] == CName(v.sources[j].name) &&
    a.videoSources[r.sources + j].spriteIndex == v.sources[j].id
  }

  /** A layer's markers: one run from `p`, each record with the marker's time and its own name. */
  predicate MarkersStored(ms: seq<Marker>, p: Option<nat>, a: Arenas) {
    p.Some? ==>
      p.value + |ms| <= |a.markers| &&
      forall j :: 0 <= j < |ms| ==>
        a.markers[p.value + j].time == ms[j].time && a.markers[p.value + j].name < |a.names| &&
        a.names[a.markers[p.value + j].name] == CName(ms[j].name)
  }

  /** A layer's video block at `p`: the transfer mode, the curves, and the 3D block exactly when it has one. */
  predicate VideoBlockStored(v: LayerVideo, p: nat, a: Arenas) {
    p < |a.layerVideos| &&
    var r := a.layerVideos[p];
    r.transferMode == v.transferMode && RunReadsBack(VideoCurves(v), RawVideoCurves(r), a.keys) &&
    r.threeD.Some? == v.threeD.Some? &&
    (v.threeD.Some? ==>
      r.threeD.value < |a.video3ds| &&
      RunReadsBack(Video3DCurves(v.threeD.value), RawVideo3DCurves(a.video3ds[r.threeD.value]), a.keys))
  }

  /** A layer's audio block at `p`: its four curves. */
  predicate AudioBlockStored(au: LayerAudio, p: nat, a: Arenas) {
    p < |a.layerAudios| && RunReadsBack(AudioCurves(au), RawAudioCurves(a.layerAudios[p]), a.keys)
  }

  /** A layer record holds all of the owned layer but its item: its fields, its markers and its blocks. */
  predicate LayerStored(r: RawLayer, l: Layer, a: Arenas) {
    StoresLayer(r, l, a.names) && MarkersStored(l.markers, r.markers, a) &&
    (l.video.Some? ==> VideoBlockStored(l.video.value, r.video.value, a)) &&
    (l.audio.Some? ==> AudioBlockStored(l.audio.value, r.audio.value, a))
  }

  /** The arenas a layer record's contents live in only grew at their ends. */
  predicate ContentsGrew(a: Arenas, b: Arenas) {
    a.names <= b.names && a.markers <= b.markers && a.keys <= b.keys &&
    a.video3ds <= b.video3ds && a.layerVideos <= b.layerVideos && a.layerAudios <= b.layerAudios
  }

  /** Two layer records that differ at most in their item code and pointer. */
  predicate SameButItem(x: RawLayer, y: RawLayer) {
    y == x.(itemType := y.itemType, item := y.item)
  }

  lemma MarkersStoredGrows(ms: seq<Marker>, p: Option<nat>, a: Arenas, b: Arenas)
    requires MarkersStored(ms, p, a) && a.names <= b.names && a.markers <= b.markers
    ensures MarkersStored(ms, p, b)
  {
    if p.Some? {
      forall j | 0 <= j < |ms|
        ensures b.markers[p.value + j].time == ms[j].time && b.markers[p.value + j].name < |b.names|
        ensures b.names[b.markers[p.value + j].name] == CName(ms[j].name)
      {
        var m := a.markers[p.value + j];
        assert a.markers[p.value + j].time == ms[j].time;
        assert b.markers[p.value + j] == m && m.name < |a.names|;
        assert b.names[m.name] == a.names[m.name];
      }
    }
  }

  lemma VideoBlockStoredGrows(v: LayerVideo, p: nat, a: Arenas, b: Arenas)
    requires VideoBlockStored(v, p, a) && a.keys <= b.keys && a.video3ds <= b.video3ds &&
      a.layerVideos <= b.layerVideos
    ensures VideoBlockStored(v, p, b)
  {
    var r := a.layerVideos[p];
    assert b.layerVideos[p] == r;
    RunReadsBackGrows(VideoCurves(v), RawVideoCurves(r), a.keys, b.keys);
    if v.threeD.Some? {
      assert b.video3ds[r.threeD.value] == a.video3ds[r.threeD.value];
      RunReadsBackGrows(Video3DCurves(v.threeD.value), RawVideo3DCurves(a.video3ds[r.threeD.value]), a.keys, b.keys);
    }
  }

  lemma AudioBlockStoredGrows(au: LayerAudio, p: nat, a: Arenas, b: Arenas)
    requires AudioBlockStored(au, p, a) && a.keys <= b.keys && a.layerAudios <= b.layerAudios
    ensures AudioBlockStored(au, p, b)
  {
    assert b.layerAudios[p] == a.layerAudios[p];
    RunReadsBackGrows(AudioCurves(au), RawAudioCurves(a.layerAudios[p]), a.keys, b.keys);
  }

  /** A layer record keeps holding its layer while the arenas grow and its item is rewritten. */
  lemma LayerStoredGrows(r: RawLayer, r': RawLayer, l: Layer, a: Arenas, b: Arenas)
    requires LayerStored(r, l, a) && ContentsGrew(a, b) && SameButItem(r, r')
    ensures LayerStored(r', l, b)
  {
    assert b.names[r.name] == a.names[r.name];
    MarkersStoredGrows(l.markers, r.markers, a, b);
    if l.video.Some? {
      VideoBlockStoredGrows(l.video.value, r.video.value, a, b);
    }
    if l.audio.Some? {
      AudioBlockStoredGrows(l.audio.value, r.audio.value, a, b);
    }
  }

  /**
   * A video record holds the owned video: its header, with `fpf` the same bits or equal
   * as `f32`, and its sources with their names and ids. Both the record stored for the
   * video and an earlier record the scan accepted do.
   */
  predicate VideoHeld(v: Video, r: RawVideo, a: Arenas) {
    r.color == v.color && r.width == v.width && r.height == v.height && SameFloat(r.fpf, v.fpf) &&
    r.sourcesCount == |v.sources| && r.sources + r.sourcesCount <= |a.videoSources| &&
    SourcesStored(r, v, a)
  }

  /** The record stored for a video holds it. */
  lemma StoredVideoHeld(v: Video, r: RawVideo, a: Arenas)
    requires StoresVideo(r, v, a)
    ensures VideoHeld(v, r, a)
  {
    assert SameFloat(r.fpf, v.fpf);
  }

  /** A record the video scan accepts holds the video: stored names hold no NUL, so they are the names themselves. */
  lemma {:induction false} MatchedVideoHeld(v: Video, r: RawVideo, a: Arenas)
    requires Linked(a) && r.sources + r.sourcesCount <= |a.videoSources| && VideoMatches(v, r, a)
    ensures VideoHeld(v, r, a)
  {
    forall j | 0 <= j < |v.sources|
      ensures SourceHeld(r, v, a, j)
    {
      var k := a.videoSources[r.sources + j].spriteName;
      assert !HasNul(a.names[k]);
    }
  }

  /** A video record keeps holding its video while the name and source arenas grow. */
  lemma VideoHeldGrows(v: Video, r: RawVideo, a: Arenas, b: Arenas)
    requires VideoHeld(v, r, a) && a.names <= b.names && a.videoSources <= b.videoSources
    ensures VideoHeld(v, r, b)
  {
    SourcesStoredGrows(r, v, a, b);
  }

  /** A source run keeps holding its sources while the name and source arenas grow. */
  lemma SourcesStoredGrows(r: RawVideo, v: Video, a: Arenas, b: Arenas)
    requires SourcesStored(r, v, a) && a.names <= b.names && a.videoSources <= b.videoSources
    ensures SourcesStored(r, v, b)
  {
    forall j | 0 <= j < |v.sources|
      ensures SourceHeld(r, v, b, j)
    {
      assert SourceHeld(r, v, a, j);
      var src := a.videoSources[r.sources + j];
      assert b.videoSources[r.sources + j] == src && src.spriteName < |a.names|;
      assert b.names[src.spriteName] == a.names[src.spriteName];
    }
  }

  /** The state of `SetMemory` as a value. */
  datatype Snapshot = Snapshot(arenas: Arenas, fcurves: seq<RawFCurve>, layerPtrs: seq<(LayerId, nat)>)

  /** From `s0` to `s1` every arena only grew at its end; records already there stayed put. */
  predicate Grew(s0: Snapshot, s1: Snapshot) {
    var a, b := s0.arenas, s1.arenas;
    a.audios <= b.audios && a.cameras <= b.cameras && a.comps <= b.comps && a.keys <= b.keys &&
    a.layerAudios <= b.layerAudios && a.layers <= b.layers && a.video3ds <= b.video3ds &&
    a.layerVideos <= b.layerVideos && a.markers <= b.markers && a.names <= b.names &&
    a.scenes <= b.scenes && a.videos <= b.videos && a.videoSources <= b.videoSources &&
    s0.fcurves <= s1.fcurves && s0.layerPtrs <= s1.layerPtrs
  }

  lemma GrewTrans(s0: Snapshot, s1: Snapshot, s2: Snapshot)
    requires Grew(s0, s1) && Grew(s1, s2)
    ensures Grew(s0, s2)
  {
  }

  /**
   * `Grew` except that the layer records from `n` on may have been rewritten: what the
   * patching loop of `alloc_comp` does to the run it stored.
   */
  predicate GrewAbove(s0: Snapshot, s1: Snapshot, n: nat) {
    var a, b := s0.arenas, s1.arenas;
    a.audios <= b.audios && a.cameras <= b.cameras && a.comps <= b.comps && a.keys <= b.keys &&
    a.layerAudios <= b.layerAudios && a.video3ds <= b.video3ds &&
    a.layerVideos <= b.layerVideos && a.markers <= b.markers && a.names <= b.names &&
    a.scenes <= b.scenes && a.videos <= b.videos && a.videoSources <= b.videoSources &&
    s0.fcurves <= s1.fcurves && s0.layerPtrs <= s1.layerPtrs &&
    n <= |a.layers| <= |b.layers| && a.layers[..n] == b.layers[..n]
  }

  lemma GrewAboveSelf(s0: Snapshot, n: nat)
    requires n <= |s0.arenas.layers|
    ensures GrewAbove(s0, s0, n)
  {
  }

  lemma GrewAboveTrans(s0: Snapshot, s1: Snapshot, s2: Snapshot, n: nat)
    requires GrewAbove(s0, s1, n) && Grew(s1, s2)
    ensures GrewAbove(s0, s2, n)
  {
    assert s1.arenas.layers[..n] == s2.arenas.layers[..n];
  }

  lemma GrewAboveAbove(s0: Snapshot, s1: Snapshot, s2: Snapshot, n: nat)
    requires GrewAbove(s0, s1, n) && GrewAbove(s1, s2, n)
    ensures GrewAbove(s0, s2, n)
  {
  }

  /** Rewriting a layer record at or above `n`. */
  lemma GrewAbovePatch(s0: Snapshot, s1: Snapshot, n: nat, k: nat, r: RawLayer)
    requires GrewAbove(s0, s1, n) && n <= k < |s1.arenas.layers|
    ensures GrewAbove(s0, s1.(arenas := s1.arenas.(layers := s1.arenas.layers[k := r])), n)
  {
    assert s1.arenas.layers[k := r][..n] == s1.arenas.layers[..n];
  }

  /** Growth, then rewrites above where the growth began, is growth. */
  lemma GrewThenAbove(s0: Snapshot, s1: Snapshot, s2: Snapshot)
    requires Grew(s0, s1) && GrewAbove(s1, s2, |s0.arenas.layers|)
    ensures Grew(s0, s2)
  {
    assert s0.arenas.layers == s1.arenas.layers[..|s0.arenas.layers|];
  }

  lemma LeTrans(u0: Counts, u1: Counts, u2: Counts, x: Counts, y: Counts)
    requires Le(u1, Plus(u0, x)) && Le(u2, Plus(u1, y))
    ensures Le(u2, Plus(u0, Plus(x, y)))
  {
  }


  lemma PushAudio(a: Arenas, r: RawAudio)
    requires Linked(a)
    ensures Linked(a.(audios := a.audios + [r]))
  {
    var b := a.(audios := a.audios + [r]);
    assert LayersOk(b) by {
      forall i | 0 <= i < |b.layers|
        ensures LayerOk(b.layers[i], b)
      {
        assert LayerOk(a.layers[i], a);
      }
    }
  }

  lemma PushVideo(a: Arenas, r: RawVideo)
    requires Linked(a) && r.sources + r.sourcesCount <= |a.videoSources|
    ensures Linked(a.(videos := a.videos + [r]))
  {
    var b := a.(videos := a.videos + [r]);
    assert LayersOk(b) by {
      forall i | 0 <= i < |b.layers|
        ensures LayerOk(b.layers[i], b)
      {
        assert LayerOk(a.layers[i], a);
      }
    }
    assert VideosOk(b) by {
      forall i | 0 <= i < |b.videos|
        ensures b.videos[i].sources + b.videos[i].sourcesCount <= |b.videoSources|
      {
        if i < |a.videos| {
          assert a.videos[i] == b.videos[i];
        }
      }
    }
  }

  lemma PushVideoSource(a: Arenas, r: RawVideoSource)
    requires Linked(a) && r.spriteName < |a.names|
    ensures Linked(a.(videoSources := a.videoSources + [r]))
  {
    var b := a.(videoSources := a.videoSources + [r]);
    assert VideoSourcesOk(b) by {
      forall i | 0 <= i < |b.videoSources|
        ensures b.videoSources[i].spriteName < |b.names|
      {
        if i < |a.videoSources| {
          assert a.videoSources[i] == b.videoSources[i];
        }
      }
    }
  }

  /**
   * From `s0` to `s1` every arena grew at its end; of the layer records already there,
   * those below `lo` may have had their item rewritten and the others stayed put.
   */
  predicate ItemsFrame(s0: Snapshot, s1: Snapshot, lo: nat) {
    var a, b := s0.arenas, s1.arenas;
    a.audios <= b.audios && a.comps <= b.comps && a.keys <= b.keys &&
    a.layerAudios <= b.layerAudios && a.video3ds <= b.video3ds &&
    a.layerVideos <= b.layerVideos && a.markers <= b.markers && a.names <= b.names &&
    a.videos <= b.videos && a.videoSources <= b.videoSources &&
    s0.layerPtrs <= s1.layerPtrs && |a.layers| <= |b.layers| &&
    (forall k :: 0 <= k < |a.layers| ==> SameButItem(a.layers[k], b.layers[k])) &&
    (forall k :: lo <= k < |a.layers| ==> b.layers[k] == a.layers[k])
  }

  lemma GrewFrame(s0: Snapshot, s1: Snapshot, lo: nat)
    requires Grew(s0, s1)
    ensures ItemsFrame(s0, s1, lo)
  {
    forall k | 0 <= k < |s0.arenas.layers|
      ensures s1.arenas.layers[k] == s0.arenas.layers[k]
    {
    }
  }

  /** Rewriting the item of a record below `lo`. */
  lemma PatchFrame(s: Snapshot, k: nat, t: byte, p: Option<nat>, lo: nat)
    requires k < lo && k < |s.arenas.layers|
    ensures ItemsFrame(s, s.(arenas := s.arenas.(layers := s.arenas.layers[k := s.arenas.layers[k].(itemType := t, item := p)])), lo)
  {
  }

  /**
   * The item code and pointer `alloc_item` leaves for an owned item: code 0 and null for
   * none; otherwise a video record holding the video, an audio record with its sound
   * index, or a comp record holding the composition. A comp flattened anew has its run at
   * or above `lo`.
   */
  predicate ItemStored(i: Item, t: byte, p: Option<nat>, s: Snapshot, lo: nat)
    decreases i, 0
  {
    var a := s.arenas;
    t == ItemType(i) &&
    match i
    case NoItem => p.None?
    case VideoItem(v) => p.Some? && p.value < |a.videos| && VideoHeld(v, a.videos[p.value], a)
    case AudioItem(au) => p.Some? && p.value < |a.audios| && a.audios[p.value].soundIndex == au.soundIndex
    case CompItem(c) => p.Some? && p.value < |a.comps| && CompHeld(c, a.comps[p.value], s, lo)
  }

  /**
   * A comp record holds the owned composition: it has as many layers, and either every
   * layer of its run passes `layer_eq` (an earlier comp the scan accepted) or its run, at
   * or above `lo`, stores the composition with every item.
   */
  predicate CompHeld(c: Composition, rc: RawComp, s: Snapshot, lo: nat)
    decreases c, 2
  {
    var a := s.arenas;
    rc.layersCount == |c.layers| && rc.layers + rc.layersCount <= |a.layers| &&
    ((Linked(a) && CompMatches(c, rc, a)) ||
     (lo <= rc.layers && RunStored(s, c, rc.layers, |c.layers|, |c.layers|)))
  }

  /**
   * The run of `alloc_comp`: records `start ..` hold the first `count` layers of `c` in
   * order and `layer_ptrs` pairs each with its layer's identity; the first `typed` of them
   * already carry their item, whose own runs lie after this one.
   */
  predicate RunStored(s: Snapshot, c: Composition, start: nat, count: nat, typed: nat)
    decreases c, 1
  {
    var a := s.arenas;
    typed <= count <= |c.layers| && start + count <= |a.layers| && start + count <= |s.layerPtrs| &&
    forall j :: 0 <= j < count ==>
      LayerStored(a.layers[start + j], c.layers[j], a) && s.layerPtrs[start + j].0 == c.layers[j].id &&
      (j < typed ==>
        ItemStored(c.layers[j].item, a.layers[start + j].itemType, a.layers[start + j].item, s, start + count))
  }

  /** A bound on where fresh runs lie can always be lowered. */
  lemma ItemStoredLower(i: Item, t: byte, p: Option<nat>, s: Snapshot, lo: nat, lo': nat)
    requires ItemStored(i, t, p, s, lo) && lo' <= lo
    ensures ItemStored(i, t, p, s, lo')
  {
  }

  /** `layer_eq` keeps accepting a record whose arenas grew and whose item was rewritten. */
  lemma LayerMatchesGrows(own: Layer, r: RawLayer, r': RawLayer, a: Arenas, b: Arenas)
    requires Linked(a) && LayerOk(r, a) && LayerMatches(own, r, a)
    requires Linked(b) && LayerOk(r', b) && SameButItem(r, r') && ContentsGrew(a, b)
    ensures LayerMatches(own, r', b)
  {
    assert b.names[r.name] == a.names[r.name];
    if own.video.Some? {
      var v, rv := own.video.value, a.layerVideos[r.video.value];
      assert b.layerVideos[r.video.value] == rv;
      var vs, rs := VideoCurves(v), RawVideoCurves(rv);
      forall i | 0 <= i < 8
        ensures CurveMatches(vs[i], rs[i], b.keys)
      {
        CurveMatchesGrows(vs[i], rs[i], a.keys, b.keys);
      }
      if v.threeD.Some? {
        var d := a.video3ds[rv.threeD.value];
        assert b.video3ds[rv.threeD.value] == d;
        var ws, ds := Video3DCurves(v.threeD.value), RawVideo3DCurves(d);
        forall i | 0 <= i < 8
          ensures CurveMatches(ws[i], ds[i], b.keys)
        {
          CurveMatchesGrows(ws[i], ds[i], a.keys, b.keys);
        }
      }
    }
    if own.audio.Some? {
      var ra := a.layerAudios[r.audio.value];
      assert b.layerAudios[r.audio.value] == ra;
      var vs, rs := AudioCurves(own.audio.value), RawAudioCurves(ra);
      forall i | 0 <= i < 4
        ensures CurveMatches(vs[i], rs[i], b.keys)
      {
        CurveMatchesGrows(vs[i], rs[i], a.keys, b.keys);
      }
    }
  }

  /** A comp the scan accepted keeps being accepted. */
  lemma CompMatchesFrame(c: Composition, rc: RawComp, s0: Snapshot, s1: Snapshot, f: nat)
    requires Linked(s0.arenas) && rc.layers + rc.layersCount <= |s0.arenas.layers|
    requires CompMatches(c, rc, s0.arenas) && ItemsFrame(s0, s1, f) && Linked(s1.arenas)
    ensures CompMatches(c, rc, s1.arenas)
  {
    var a, b := s0.arenas, s1.arenas;
    forall j | 0 <= j < |c.layers|
      ensures LayerMatches(c.layers[j], b.layers[rc.layers + j], b)
    {
      assert LayerOk(b.layers[rc.layers + j], b);
      LayerMatchesGrows(c.layers[j], a.layers[rc.layers + j], b.layers[rc.layers + j], a, b);
    }
  }

  /**
   * A stored item stays stored while the arenas grow and records below `f` have their
   * items rewritten, as long as its own fresh runs lie at or above `f`.
   */
  lemma {:induction false} ItemStoredFrame(i: Item, t: byte, p: Option<nat>, s0: Snapshot, s1: Snapshot,
                                           lo: nat, f: nat)
    requires ItemStored(i, t, p, s0, lo) && ItemsFrame(s0, s1, f) && f <= lo && Linked(s1.arenas)
    ensures ItemStored(i, t, p, s1, lo)
    decreases i, 0
  {
    var a, b := s0.arenas, s1.arenas;
    match i
    case NoItem =>
    case VideoItem(v) =>
      assert b.videos[p.value] == a.videos[p.value];
      VideoHeldGrows(v, a.videos[p.value], a, b);
    case AudioItem(au) =>
      assert b.audios[p.value] == a.audios[p.value];
    case CompItem(c) =>
      var rc := a.comps[p.value];
      assert b.comps[p.value] == rc;
      if Linked(a) && CompMatches(c, rc, a) {
        CompMatchesFrame(c, rc, s0, s1, f);
      } else {
        RunStoredFrame(s0, s1, c, rc.layers, |c.layers|, |c.layers|, f);
      }
  }

  /** A run at or above `f` survives the same changes. */
  lemma {:induction false} RunStoredFrame(s0: Snapshot, s1: Snapshot, c: Composition, start: nat, count: nat,
                                          typed: nat, f: nat)
    requires RunStored(s0, c, start, count, typed) && ItemsFrame(s0, s1, f) && f <= start && Linked(s1.arenas)
    ensures RunStored(s1, c, start, count, typed)
    decreases c, 1
  {
    var a, b := s0.arenas, s1.arenas;
    forall j | 0 <= j < count
      ensures LayerStored(b.layers[start + j], c.layers[j], b) && s1.layerPtrs[start + j].0 == c.layers[j].id
      ensures j < typed ==>
        ItemStored(c.layers[j].item, b.layers[start + j].itemType, b.layers[start + j].item, s1, start + count)
    {
      var k := start + j;
      assert b.layers[k] == a.layers[k] && s1.layerPtrs[k] == s0.layerPtrs[k];
      LayerStoredGrows(a.layers[k], b.layers[k], c.layers[j], a, b);
      if j < typed {
        ItemStoredFrame(c.layers[j].item, a.layers[k].itemType, a.layers[k].item, s0, s1, start + count, f);
      }
    }
  }

  /** The invariant of the storing loop of `alloc_comp`, on values: the first `i` layers of `c` stored from `start`. */
  predicate StoringRun(s0: Snapshot, u0: Counts, c: Composition, start: nat, i: nat, s: Snapshot, u: Counts) {
    i <= |c.layers| && Grew(s0, s) && |s.arenas.layers| == start + i &&
    RunStored(s, c, start, i, 0) && Le(u, Plus(u0, LayersOwnCounts(c, i)))
  }

  /** The invariant of the patching loop of `alloc_comp`, on values. */
  predicate PatchedUpTo(s0: Snapshot, u0: Counts, c: Composition, start: nat, i: nat, s: Snapshot, u: Counts) {
    i <= |c.layers| && GrewAbove(s0, s, start) && RunStored(s, c, start, |c.layers|, i) &&
    Le(u, Plus(u0, LayersItemCounts(c, i)))
  }

  /** The run and the bound survive the allocation of one more item (bound not yet bumped in `i`). */
  lemma PatchedGrows(s0: Snapshot, u0: Counts, c: Composition, start: nat, i: nat,
                     sb: Snapshot, ub: Counts, sc: Snapshot, uc: Counts)
    requires i < |c.layers| && PatchedUpTo(s0, u0, c, start, i, sb, ub)
    requires Grew(sb, sc) && Linked(sc.arenas) && Le(uc, Plus(ub, ItemCounts(c.layers[i].item)))
    ensures GrewAbove(s0, sc, start)
    ensures RunStored(sc, c, start, |c.layers|, i)
    ensures Le(uc, Plus(u0, LayersItemCounts(c, i + 1)))
  {
    GrewFrame(sb, sc, 0);
    RunStoredFrame(sb, sc, c, start, |c.layers|, i, 0);
    ItemStep(u0, ub, uc, c, i);
    GrewAboveTrans(s0, sb, sc, start);
  }

  /** Patching the item of layer `i` into its record completes step `i`. */
  lemma PatchStep(s0: Snapshot, u0: Counts, c: Composition, start: nat, i: nat,
                  sc: Snapshot, uc: Counts, t: byte, p: Option<nat>, lo: nat, sd: Snapshot)
    requires i < |c.layers| && GrewAbove(s0, sc, start)
    requires RunStored(sc, c, start, |c.layers|, i) && Le(uc, Plus(u0, LayersItemCounts(c, i + 1)))
    requires start + |c.layers| <= lo && ItemStored(c.layers[i].item, t, p, sc, lo)
    requires sd == sc.(arenas := sc.arenas.(layers := sc.arenas.layers[start + i := sc.arenas.layers[start + i].(itemType := t, item := p)]))
    requires Linked(sd.arenas)
    ensures PatchedUpTo(s0, u0, c, start, i + 1, sd, uc)
  {
    var ls := sc.arenas.layers;
    GrewAbovePatch(s0, sc, start, start + i, ls[start + i].(itemType := t, item := p));
    ItemStoredLower(c.layers[i].item, t, p, sc, lo, start + |c.layers|);
    RunStoredPatch(sc, sd, c, start, i, t, p);
  }

  /** Patching the next layer's item into the run. */
  lemma RunStoredPatch(sc: Snapshot, sd: Snapshot, c: Composition, start: nat, i: nat, t: byte, p: Option<nat>)
    requires RunStored(sc, c, start, |c.layers|, i) && i < |c.layers|
    requires ItemStored(c.layers[i].item, t, p, sc, start + |c.layers|)
    requires sd == sc.(arenas := sc.arenas.(layers := sc.arenas.layers[start + i := sc.arenas.layers[start + i].(itemType := t, item := p)]))
    requires Linked(sd.arenas)
    ensures RunStored(sd, c, start, |c.layers|, i + 1)
  {
    var n := |c.layers|;
    var a, b := sc.arenas, sd.arenas;
    PatchFrame(sc, start + i, t, p, start + n);
    forall j | 0 <= j < n
      ensures LayerStored(b.layers[start + j], c.layers[j], b)
      ensures j < i + 1 ==>
        ItemStored(c.layers[j].item, b.layers[start + j].itemType, b.layers[start + j].item, sd, start + n)
    {
      var k := start + j;
      LayerStoredGrows(a.layers[k], b.layers[k], c.layers[j], a, b);
      if j < i {
        ItemStoredFrame(c.layers[j].item, a.layers[k].itemType, a.layers[k].item, sc, sd, start + n, start + n);
      } else if j == i {
        ItemStoredFrame(c.layers[j].item, t, p, sc, sd, start + n, start + n);
      }
    }
  }

  /** Appending the next layer of the comp extends the run. */
  lemma RunStoredExtend(s: Snapshot, s': Snapshot, c: Composition, start: nat, count: nat)
    requires RunStored(s, c, start, count, 0) && count < |c.layers|
    requires |s.arenas.layers| == start + count && |s.layerPtrs| == |s.arenas.layers|
    requires |s'.arenas.layers| == |s.arenas.layers| + 1 && s'.arenas.layers[..|s.arenas.layers|] == s.arenas.layers
    requires s'.layerPtrs == s.layerPtrs + [(c.layers[count].id, |s.arenas.layers|)]
    requires ContentsGrew(s.arenas, s'.arenas)
    requires LayerStored(s'.arenas.layers[|s.arenas.layers|], c.layers[count], s'.arenas)
    ensures RunStored(s', c, start, count + 1, 0)
  {
    var a, b := s.arenas, s'.arenas;
    forall j | 0 <= j < count + 1
      ensures LayerStored(b.layers[start + j], c.layers[j], b) && s'.layerPtrs[start + j].0 == c.layers[j].id
    {
      if j < count {
        assert b.layers[start + j] == a.layers[start + j];
        LayerStoredGrows(a.layers[start + j], b.layers[start + j], c.layers[j], a, b);
      }
    }
  }

  lemma PatchItem(a: Arenas, k: nat, t: byte, p: Option<nat>)
    requires Linked(a) && k < |a.layers| && ItemOk(t, p, a)
    ensures Linked(a.(layers := a.layers[k := a.layers[k].(itemType := t, item := p)]))
  {
    var b := a.(layers := a.layers[k := a.layers[k].(itemType := t, item := p)]);
    assert LayersOk(b) by {
      forall i | 0 <= i < |b.layers|
        ensures LayerOk(b.layers[i], b)
      {
        assert LayerOk(a.layers[i], a);
      }
    }
  }

  lemma PushComp(a: Arenas, r: RawComp)
    requires Linked(a) && r.layers + r.layersCount <= |a.layers|
    ensures Linked(a.(comps := a.comps + [r]))
  {
    var b := a.(comps := a.comps + [r]);
    assert LayersOk(b) by {
      forall i | 0 <= i < |b.layers|
        ensures LayerOk(b.layers[i], b)
      {
        assert LayerOk(a.layers[i], a);
      }
    }
    assert CompsOk(b) by {
      forall i | 0 <= i < |b.comps|
        ensures b.comps[i].layers + b.comps[i].layersCount <= |b.layers|
      {
        if i < |a.comps| {
          assert a.comps[i] == b.comps[i];
        }
      }
    }
  }

  /** The root comp record and the scene record that close a scene. */
  lemma PushCompScene(a: Arenas, root: RawComp, r: RawScene)
    requires Linked(a) && root.layers + root.layersCount <= |a.layers|
    ensures Linked(a.(comps := a.comps + [root], scenes := a.scenes + [r]))
  {
    PushComp(a, root);
  }

  lemma OwnStep(u0: Counts, ub: Counts, u1: Counts, c: Composition, i: nat)
    requires i < |c.layers|
    requires Le(ub, Plus(u0, LayersOwnCounts(c, i))) && Le(u1, Plus(ub, LayerOwnCounts(c.layers[i])))
    ensures Le(u1, Plus(u0, LayersOwnCounts(c, i + 1)))
  {
    LeTrans(u0, ub, u1, LayersOwnCounts(c, i), LayerOwnCounts(c.layers[i]));
  }

  lemma ItemStep(u0: Counts, ub: Counts, u1: Counts, c: Composition, i: nat)
    requires i < |c.layers|
    requires Le(ub, Plus(u0, LayersItemCounts(c, i)))
    requires Le(u1, Plus(ub, ItemCounts(c.layers[i].item)))
    ensures Le(u1, Plus(u0, LayersItemCounts(c, i + 1)))
  {
    LeTrans(u0, ub, u1, LayersItemCounts(c, i), ItemCounts(c.layers[i].item));
  }

  lemma LeSelf(u: Counts, x: Counts)
    ensures Le(u, Plus(u, x))
  {
  }

  /** A comp's layers, then its own record. */
  lemma CompPushBound(u0: Counts, u1: Counts, u2: Counts, x: Counts)
    requires Le(u1, Plus(u0, x)) && u2 == u1.(comp := u1.comp + 1)
    ensures Le(u2, Plus(u0, Plus(NoCounts.(comp := 1), x)))
  {
  }

  /** The arenas grew by one layer, its names and markers, and at most its blocks. */
  lemma OwnCountsBound(u0: Counts, u1: Counts, l: Layer)
    requires u1.layer == u0.layer + 1 && u1.name == u0.name + 1 + |l.markers| &&
      u1.marker == u0.marker + |l.markers|
    requires u1.fcurveKey <= u0.fcurveKey + LayerOwnCounts(l).fcurveKey
    requires u1.layerVideo3d == u0.layerVideo3d + LayerOwnCounts(l).layerVideo3d
    requires u1.layerVideo == u0.layerVideo + LayerOwnCounts(l).layerVideo
    requires u1.layerAudio == u0.layerAudio + LayerOwnCounts(l).layerAudio
    requires u1.audio == u0.audio && u1.camera == u0.camera && u1.comp == u0.comp &&
      u1.scene == u0.scene && u1.video == u0.video && u1.videoSource == u0.videoSource
    ensures Le(u1, Plus(u0, LayerOwnCounts(l)))
  {
  }

  lemma PushLayer(a: Arenas, r: RawLayer)
    requires Linked(a) && LayerOk(r, a)
    ensures Linked(a.(layers := a.layers + [r]))
  {
    var b := a.(layers := a.layers + [r]);
    assert LayersOk(b) by {
      forall i | 0 <= i < |b.layers|
        ensures LayerOk(b.layers[i], b)
      {
        if i < |a.layers| {
          assert LayerOk(a.layers[i], a);
        }
      }
    }
  }

  /** No pointer checked by `Linked` leads into the camera arena. */
  lemma PushCamera(a: Arenas, r: RawCamera)
    requires Linked(a)
    ensures Linked(a.(cameras := a.cameras + [r]))
  {
  }

  lemma PushVideo3D(a: Arenas, r: RawLayerVideo3D)
    requires Linked(a) && CurvesInArena(RawVideo3DCurves(r), |a.keys|)
    ensures Linked(a.(video3ds := a.video3ds + [r]))
  {
    var b := a.(video3ds := a.video3ds + [r]);
    assert LayerVideosOk(b) by {
      forall i | 0 <= i < |b.layerVideos|
        ensures LayerVideoOk(b.layerVideos[i], b)
      {
        assert LayerVideoOk(a.layerVideos[i], a);
      }
    }
  }

  lemma PushLayerVideo(a: Arenas, r: RawLayerVideo)
    requires Linked(a) && LayerVideoOk(r, a)
    ensures Linked(a.(layerVideos := a.layerVideos + [r]))
  {
    var b := a.(layerVideos := a.layerVideos + [r]);
    assert LayerVideosOk(b) by {
      forall i | 0 <= i < |b.layerVideos|
        ensures LayerVideoOk(b.layerVideos[i], b)
      {
        if i < |a.layerVideos| {
          assert LayerVideoOk(a.layerVideos[i], a);
        }
      }
    }
    assert LayersOk(b) by {
      forall i | 0 <= i < |b.layers|
        ensures LayerOk(b.layers[i], b)
      {
        assert LayerOk(a.layers[i], a);
      }
    }
  }

  lemma PushLayerAudio(a: Arenas, r: RawLayerAudio)
    requires Linked(a) && CurvesInArena(RawAudioCurves(r), |a.keys|)
    ensures Linked(a.(layerAudios := a.layerAudios + [r]))
  {
    var b := a.(layerAudios := a.layerAudios + [r]);
    assert LayersOk(b) by {
      forall i | 0 <= i < |b.layers|
        ensures LayerOk(b.layers[i], b)
      {
        assert LayerOk(a.layers[i], a);
      }
    }
  }

  /** Growing the float arena keeps every stored curve inside it. */
  lemma KeysGrow(a: Arenas, b: Arenas)
    requires Linked(a) && b == a.(keys := b.keys) && |a.keys| <= |b.keys|
    ensures Linked(b)
  {
    forall i | 0 <= i < |b.video3ds|
      ensures CurvesInArena(RawVideo3DCurves(b.video3ds[i]), |b.keys|)
    {
      assert CurvesInArena(RawVideo3DCurves(a.video3ds[i]), |a.keys|);
    }
    forall i | 0 <= i < |b.layerVideos|
      ensures LayerVideoOk(b.layerVideos[i], b)
    {
      assert LayerVideoOk(a.layerVideos[i], a);
    }
    forall i | 0 <= i < |b.layerAudios|
      ensures CurvesInArena(RawAudioCurves(b.layerAudios[i]), |b.keys|)
    {
      assert CurvesInArena(RawAudioCurves(a.layerAudios[i]), |a.keys|);
    }
  }
}
