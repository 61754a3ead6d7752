# KKdLib core in Dafny

A model of the core of the KKdLib Rust/C++ bindings, with proofs about it. The core has four parts.

- **Animation-scene (AET) graph codec**, in `src/aet.rs`.
  - Encoding: `Set::to_buf` flattens an owned scene graph into flat arenas in three passes:
    - the counting pass (`count_fcurve`, `count_comp`, filling `SetCounts`);
    - the flattening pass into `SetMemory` (`alloc_fcurve`, `alloc_item`, `alloc_comp`), which deduplicates curves, videos, audios and comps by linear scan;
    - the fix-up pass, which turns each layer's parent `Rc` into the address of that layer's record.
  - Decoding: `aet_comp::decode` rebuilds the owned layers and an address map. `Set::from_buf` then resolves the parents through that map.
- **Uncompressed pixel conversions**, in `src/txp.rs`.
  - `Mipmap::rgba` and `Mipmap::from_rgba`, over the `Rgb565`, `Rgba5551` and `Rgba4444` bit layouts.
  - `Texture::is_ycbcr`.
  - `MipmapIterator`.
- **Texture containers behind the C interface**, in `bridge/txp.cpp`: the mipmap setters and getters, the size-checked data accessors, 2-D mipmap indexing and the appends.
- **Sprite sets**, in `bridge/spr.cpp` and `src/spr.rs`.
  - The parallel-array grow-and-append of `add_spr`.
  - The texture installation of `set_txp`.
  - The guard of `pack_file` and the indexed getters.
  - The Rust argument guards, the sprite iterator and the resolution table.

## How the model is built

Types:
- `f32` values are 32-bit patterns (`Float32.F32`). Only IEEE equality is modelled: NaN never equals anything, and +0.0 equals -0.0.
- Each `Rc<Mutex<Layer>>` is the layer's `id`. A parent is that identity.
- Every raw pointer into an arena is an index (`Option<nat>` where it may be null).
- Enumerations and bit-fields are kept as their integer codes.

Classes:
- `AetCounts.SetCounts` stands for `SetCounts`.
- `AetMemory.SetMemory` has one `seq` field per `Vec`.
- `AetMemory.OutScene` holds the counters of the `aet_scene` under construction.
- The allocation routines are methods that append to those fields. Each is proved against value-level functions and predicates:
  - `AllocCurve`, `FirstMatch`, `FirstVideo`, `FirstAudio` and `FirstComp` for the scans;
  - `RunStored` for the contiguous layer run of a comp;
  - `FixedLayers` for the fix-up;
  - `Le(Used(), …Counts)` for the capacity bound the counting pass promises.

Decoding:
- Decoding works on values (`AetDecode`).
- The loops of `decode` and `from_buf` are methods in `AetFromBuf`, each proved to compute its function.
- `decode` takes a fuel bound equal to the number of comp records.

Texture and sprite containers:
- The C++ containers are classes over `seq` fields (`TxpBridge`).
- The sprite set's three parallel arrays are Dafny `array`s, reallocated by `add_spr` (`SprBridge.SprSet`).

Where the system's design description and the code differ, the model follows the code:
- The video and audio dedup scans of `alloc_item` run over arena indices `0 .. video_count` and `0 .. audio_count`. The counts are per scene, but the scans start at the first record of the whole arena, not at the scene's first record (`src/aet.rs:544`, `:602`). The comp scan runs over `0 .. comp_count - 1` (`src/aet.rs:623`).
- The comp dedup compares layers with `layer_eq`. It ignores quality, markers, item and parent, not only the identity (`AetRaw.LayerMatchesIgnoresRest`). So a nested comp can be resolved to an earlier comp record whose layers carry other markers or other items, and the stored tree below that record is the earlier comp's.
- `Composition::eq` zips the layer lists. A composition therefore equals any longer composition whose first layers equal its own, as long as each compared pair of layers sits in two distinct `Rc`s (`AetGraph.CompEqualsLongerCopy`).
- `from_buf` takes `is_x` from the big-endian flag (`src/aet.rs:790`).

## Model

| member | source | states |
|---|---|---|
| Float32.FEqReflexive | src/aet.rs:448-460 | `f32` equality holds of a value with itself exactly when it is not NaN |
| Float32.FEqZero | src/aet.rs:312 | comparing with the literal 0.0 accepts exactly +0.0 and -0.0 |
| Float32.SignedZerosEqual | src/aet.rs:397 | the two zeros compare equal although their bit patterns differ |
| AetGraph.CompEqIgnoresExtraLayers | src/aet.rs:264-271 | when each compared pair of layers sits in distinct `Rc`s, appending layers to the longer composition leaves the verdict of the zipping `Composition::eq` unchanged |
| AetGraph.CompEqualsLongerCopy | src/aet.rs:264-271 | a composition equals every longer composition whose first layers are pairwise equal to its own and held in other `Rc`s |
| AetGraph.EmptyCompEqualsAll | src/aet.rs:264-271 | the empty composition equals every composition, in both argument orders |
| AetCurves.Frames | src/aet.rs:416-419 | one float per key, holding that key's frame, in order |
| AetCurves.Pairs | src/aet.rs:420-423 | two floats per key, value then tangent, in key order |
| AetCurves.StoredBlockSize | src/aet.rs:311-318 | the block appended for a stored curve is as long as `count_fcurve` reserves: 1 float for one key, 3·n for n ≥ 2 |
| AetCurves.DecodeCurve | src/aet.rs:1033-1062 | `Into<FCurve>` yields exactly `keys_count` keys |
| AetCurves.StoredCurveRoundTrip | src/aet.rs:1033-1062 | a block stored by `alloc_fcurve` reads back as the same keys for n ≥ 2, and as {0.0, v, 0.0} for one key of value v |
| AetCurves.EmptyRecordDecodesEmpty | src/aet.rs:1035-1036 | the zero-count record decodes to a curve with no keys |
| AetCurves.StoredBlockMatches | src/aet.rs:433-468 | `fcurve_eq` accepts a freshly stored block exactly when the curve holds no NaN |
| AetCurves.MatchDecodesEqual | src/aet.rs:433-468 | a record that `fcurve_eq` accepts reads back as a curve `f32`-equal to the argument key by key (for one key, its value) |
| AetCurves.ShortCurveStorageKeepsValue | src/aet.rs:94-100 | for curves of at most one key, the stored and read-back curve gives the same frame-independent `interpolate` value (up to the sign of zero) |
| AetCurves.FirstMatch | src/aet.rs:402-407 | the first registered record that `fcurve_eq` accepts, with none before it, or None when no record is accepted |
| AetCurves.AllocCurveBounds | src/aet.rs:391-431 | `alloc_fcurve` only appends, and never more floats than `count_fcurve` counts for the curve; all records stay inside the arena |
| AetCurves.AllocCurveMissReadsBack | src/aet.rs:409-428 | on a dedup miss the curve's block is appended and registered, and the new record reads back as the curve |
| AetCurves.AllocCurveHitReadsBack | src/aet.rs:402-407 | on a dedup hit nothing is appended, and the record lent by the match reads back `f32`-equal to the curve |
| AetCurves.AllocCurveReadsBack | src/aet.rs:391-431 | whatever `alloc_fcurve` returns reads back as the curve it was given: no keys when it stores nothing, {0, v, 0} for one key, key by key otherwise |
| AetCurves.AllocRunReadsBack | src/aet.rs:719-726 | allocating a block's curves in declaration order gives one record per curve, each reading back as its curve from the final arena, within the counted floats |
| AetCounts.SumRecordsAppend | src/aet.rs:320-371 | the records of two lists of layers add up to the records of their concatenation |
| AetCounts.SumRecordsShape | src/aet.rs:323-369 | a list of layers has exactly one layer record per layer and no scene or camera record |
| AetCounts.LayersCountsTree | src/aet.rs:322-370 | what `count_comp`'s layer loop counts equals, in every field, the sum of the records of every layer of the tree below those layers, each layer taken once at any depth |
| AetCounts.TreeStep | src/aet.rs:323-369 | one iteration of the layer loop adds exactly the records of the layer and of the tree below its item |
| AetCounts.ItemRecords | src/aet.rs:360-369 | what `count_comp` counts for an item is its own record plus the records of every layer below it |
| AetCounts.CompCountsTree | src/aet.rs:320-371 | `count_comp` of a composition is one comp record plus the records of every layer of its tree |
| AetCounts.LayersCountsNoScene | src/aet.rs:322-370 | the layer count of any prefix of a composition's layers is exactly the number of layers in the tree below them, and no scene or camera record is counted |
| AetCounts.LayersCountsSplit | src/aet.rs:322-370 | what the layers count is the sum of their own records and their items' records, the order in which `alloc_comp` appends them |
| AetCounts.SetCounts.constructor | src/aet.rs:855 | `SetCounts::default()` starts with every count at zero |
| AetCounts.SetCounts.CountFCurve | src/aet.rs:311-318 | adds 0, 1 or 3·n to the float count by the storage rule; no other count changes |
| AetCounts.SetCounts.CountFCurves | src/aet.rs:330-337 | adds what each curve of a block reserves |
| AetCounts.SetCounts.CountLayerVideo | src/aet.rs:328-350 | adds the video block, its eight curves and, when present, the 3D block and its eight curves |
| AetCounts.SetCounts.CountLayerAudio | src/aet.rs:352-358 | adds the audio block and its four curves |
| AetCounts.SetCounts.CountCamera | src/aet.rs:860-875 | adds one camera record and its thirteen curves |
| AetCounts.SetCounts.CountLayerOwn | src/aet.rs:323-358 | adds the layer, its name, its markers and their names, and its blocks |
| AetCounts.SetCounts.CountItem | src/aet.rs:360-369 | adds a video with its sources and their names, an audio, or a whole nested composition |
| AetCounts.SetCounts.CountComp | src/aet.rs:320-371 | `count_comp` adds one comp plus everything its layers add |
| AetCounts.SetCounts.CountLayers | src/aet.rs:322-370 | the layer loop adds each layer's own counts and its item's counts |
| AetCounts.SetCounts.CountLayer | src/aet.rs:323-369 | one iteration of the layer loop |
| AetCounts.SetCounts.CountScene | src/aet.rs:858-877 | one scene record, its name, its camera and its root composition |
| AetCounts.CountScenes | src/aet.rs:854-878 | the first pass of `to_buf` yields the sum over all scenes |
| AetRaw.LayerMatchesIgnoresRest | src/aet.rs:470-534 | `layer_eq` gives the same answer whatever the quality, markers, item, parent and identity |
| AetRaw.FirstVideo | src/aet.rs:544-568 | the first video record among indices `0 .. video_count` with equal header fields and element-wise equal sources, or None when none matches |
| AetRaw.FirstAudio | src/aet.rs:602-611 | the first audio record among `0 .. audio_count` with the same sound index, or None |
| AetRaw.FirstComp | src/aet.rs:623-640 | the first comp record among `0 .. comp_count - 1` with the same layer count and `layer_eq` on every layer, or None |
| AetArenas.CName | src/aet.rs:674 | `CString::new(..).unwrap_or_default()`: a name holding NUL becomes empty, any other is kept unchanged |
| AetArenas.LayerStoredGrows | src/aet.rs:672-767 | a layer record keeps holding its layer (fields, markers, video, 3D and audio blocks) while the arenas it points into grow at their ends |
| AetArenas.MatchedVideoHeld | src/aet.rs:544-568 | a video record the dedup scan accepts holds the video: equal header fields and, since stored names hold no NUL, each sprite's own name and id |
| AetArenas.VideoHeldGrows | src/aet.rs:544-568 | a video record keeps holding its video (header, each source's sprite name and id) while the name and source arenas grow at their ends, so a later scan still finds it |
| AetArenas.CompMatchesFrame | src/aet.rs:623-640 | a comp record the dedup scan accepted keeps passing `layer_eq` on every layer while arenas grow and items are patched |
| AetArenas.ItemStoredFrame | src/aet.rs:536-654 | an item's record keeps holding the item while arenas grow and items below its own runs are patched |
| AetArenas.RunStoredFrame | src/aet.rs:656-777 | a comp's layer run keeps holding its layers and their items under the same changes, so flattening later layers and scenes does not disturb it |
| AetArenas.RunStoredExtend | src/aet.rs:672-768 | storing one more layer at the end of a run extends the run by that layer |
| AetArenas.PatchStep | src/aet.rs:770-776 | patching layer i's item into its record extends the typed prefix of the run by one, keeping the earlier items stored |
| AetScenes.SceneStoredGrows | src/aet.rs:903-976 | a flattened scene record keeps describing its scene while later scenes are appended |
| AetScenes.SceneClose | src/aet.rs:974-975 | pushing the root comp after its nested comps, then the scene record, completes the scene: `comp[comp_count - 1]` is the root |
| AetScenes.SceneBound | src/aet.rs:857-878 | a scene's records never exceed what the counting pass reserved for it |
| AetScenes.FirstPtr | src/aet.rs:985-989 | the first `layer_ptrs` entry for an identity, with none before it, or None when there is no entry |
| AetScenes.FixedLayers | src/aet.rs:979-991 | the fix-up keeps the number of layer records |
| AetScenes.FixParentAddress | src/aet.rs:979-991 | a non-null parent becomes the address of the first flattened layer with that `Rc`, and becomes null exactly when that layer was never flattened |
| AetScenes.FixedLayersKeepFields | src/aet.rs:979-991 | the fix-up changes only the parent field of each record |
| AetMemory.OutScene.constructor | src/aet.rs:928-958 | a fresh scene record counts one comp (the root, pushed last), no videos and no audios |
| AetMemory.SetMemory.constructor | src/aet.rs:881-897 | all arenas start empty |
| AetMemory.SetMemory.FCurveEq | src/aet.rs:433-468 | the loop of `fcurve_eq` computes the comparison against the float arena |
| AetMemory.SetMemory.PushBlock | src/aet.rs:415-423 | appends all frames, then each key's value and tangent |
| AetMemory.SetMemory.PushFrames | src/aet.rs:416-419 | appends the frames in key order |
| AetMemory.SetMemory.PushPairs | src/aet.rs:420-423 | appends the (value, tangent) pairs in key order |
| AetMemory.SetMemory.AllocFCurve | src/aet.rs:391-431 | `alloc_fcurve` returns and leaves what `AllocCurve` describes; the arena only grows, by at most the counted floats |
| AetMemory.SetMemory.AllocFCurves | src/aet.rs:698-707 | a block's curves allocated in order, each record reading back as its curve, within the counted floats |
| AetMemory.SetMemory.AllocVideo3D | src/aet.rs:697-708 | one new 3D record whose eight curves read back as the block's |
| AetMemory.SetMemory.AllocLayerVideo | src/aet.rs:696-732 | the 3D block first when present, then the video record pointing at it, with the transfer mode copied and all curves reading back |
| AetMemory.SetMemory.AllocVideoBlock | src/aet.rs:713-729 | the video record with its eight curves and its 3D pointer |
| AetMemory.SetMemory.AllocLayerAudio | src/aet.rs:734-744 | one new audio record whose four curves read back |
| AetMemory.SetMemory.AllocCamera | src/aet.rs:907-923 | one new camera record whose thirteen curves read back |
| AetMemory.SetMemory.PushName | src/aet.rs:674-675 | appends the `CString` of the name and returns its address |
| AetMemory.SetMemory.PushMarkers | src/aet.rs:677-694 | null for no markers; otherwise one contiguous run starting at the old end, each record with the marker's time and a new name record holding `CName` of its name |
| AetMemory.SetMemory.AllocLayer | src/aet.rs:672-767 | one layer record appended that holds the layer: name, the scalar fields, the parent's identity, its markers, and its video (transfer mode, curves, 3D block) and audio blocks; no item yet; plus its `layer_ptrs` entry; within the layer's own counts |
| AetMemory.SetMemory.AllocLayerRecord | src/aet.rs:673-763 | the layer record, holding the name, fields, markers and blocks of the layer, all pointing into the grown arenas |
| AetMemory.SetMemory.AllocLayerBlocks | src/aet.rs:696-744 | a video pointer exactly when the layer has a video block, at the old end and holding its transfer mode, eight curves and 3D block; an audio pointer exactly when it has an audio block, holding its four curves |
| AetMemory.SetMemory.ScanVideos | src/aet.rs:544-568 | the loop computes `FirstVideo` from index 0 |
| AetMemory.SetMemory.ScanAudios | src/aet.rs:602-611 | the loop computes `FirstAudio` from index 0 |
| AetMemory.SetMemory.ScanComps | src/aet.rs:623-640 | the loop computes `FirstComp` from index 0 |
| AetMemory.SetMemory.AllocAudioItem | src/aet.rs:601-621 | a record with the audio's sound index; on a hit, the matching index with nothing appended and no count bumped; on a miss, one new record and `audio_count + 1` |
| AetMemory.SetMemory.AllocVideoItem | src/aet.rs:543-600 | a record holding the video (header, each source's name and id); on a hit, the matching index with nothing appended; on a miss, a new record with its contiguous sources and names, and `video_count + 1` |
| AetMemory.SetMemory.PushSources | src/aet.rs:571-586 | a new video's sources as one run, each with its own new sprite-name record and the source id |
| AetMemory.SetMemory.AllocItem | src/aet.rs:536-654 | code 0 with null for no item; codes 1, 2 and 3 with a pointer to a record holding the video, the audio's sound index, or the composition: a nested comp is either flattened in full, every layer and item stored, or resolved to an earlier comp record that `layer_eq` accepts layer by layer; the arenas only grow, within the item's counts |
| AetMemory.SetMemory.Patch | src/aet.rs:773-775 | writes the item code and pointer into one layer record and changes nothing else |
| AetMemory.SetMemory.AllocCompItem | src/aet.rs:622-652 | a comp record for the composition; on a hit, the earlier comp that `layer_eq` accepts layer by layer, and no change; on a miss, the comp flattened by `alloc_comp` is appended last, its layers one run holding every layer and item |
| AetMemory.SetMemory.AllocComp | src/aet.rs:656-777 | the comp's layers form one contiguous run starting at the old end of the layer arena, each record holding its layer (fields, markers, blocks) and its item, a nested comp as its own run lying after it or as an earlier comp record `layer_eq` accepts; all within `count_comp`'s bound |
| AetMemory.SetMemory.AllocNewComp | src/aet.rs:641-650 | the miss branch: the comp flattened by `alloc_comp` is pushed as the last comp record, holding its layer count and the start of its run, the run holding every layer and item; the scene's comp counter rises with the arena so their difference stays; all within `count_comp`'s bound |
| AetMemory.SetMemory.StoreLayers | src/aet.rs:672-768 | every layer is stored with its fields, markers and blocks, in order, from the old end, before any item is allocated |
| AetMemory.SetMemory.StoreLayerAt | src/aet.rs:673-767 | one iteration of that loop: layer `i` is stored at the end of the layer arena with its fields, markers and blocks, the run of the first `i` layers stays stored, the arenas only grow, and the used records stay within the first `i + 1` layers' own counts |
| AetMemory.SetMemory.AllocItems | src/aet.rs:770-776 | each stored layer gets its item's code and a pointer to a record holding the item; records below the run are untouched |
| AetMemory.SetMemory.AllocItemAt | src/aet.rs:771-775 | one iteration of the patch loop: item `i` is allocated and patched into its layer record, which then names the record holding that item; the run and the earlier items stay stored, the layers before `start` stay put, and the used records stay within the first `i + 1` items' counts |
| AetMemory.SetMemory.AllocSceneHead | src/aet.rs:904-926 | the scene's name, then its camera when present, within the counts |
| AetMemory.SetMemory.AllocSceneCamera | src/aet.rs:907-926 | a camera record exactly when the scene has a camera, and null otherwise |
| AetMemory.SetMemory.AllocScene | src/aet.rs:903-976 | one iteration of the scene loop appends one scene record that describes the scene, within `SceneCounts` |
| AetMemory.SetMemory.AllocSceneBody | src/aet.rs:928-975 | the scene record points at the end of the comp arena; the video and audio pointers are null when the scene added none |
| AetMemory.SetMemory.PushScene | src/aet.rs:974-975 | the root comp record, then the scene record |
| AetMemory.SetMemory.AllocRoot | src/aet.rs:960-965 | the root is flattened against a fresh scene record; its final counters are the records the scene appended |
| AetMemory.SetMemory.ScanPtrs | src/aet.rs:985-989 | the loop computes `FirstPtr` from index 0 |
| AetMemory.SetMemory.FixParents | src/aet.rs:979-991 | the layer arena becomes `FixedLayers` of its old value |
| AetEncode.ToBuf | src/aet.rs:853-1004 | every scene record holds its scene: header, camera, and a root comp whose layer run holds every layer with its fields, markers, blocks and item; a nested comp is either flattened in full, recursively, or resolved to an earlier comp record that `layer_eq` accepts, which need not hold its markers or items; every arena stays within the counting pass's total; only parent fields were rewritten by the fix-up; the header copies the flags |
| AetEncode.Flatten | src/aet.rs:903-976 | all scenes flattened in order into arenas created empty, each scene record holding its scene |
| AetEncode.FlattenScene | src/aet.rs:904-975 | one scene more flattened, keeping all earlier scene records and the bound |
| AetDecode.CRead | src/aet.rs:1189 | `CStr::from_ptr`: the characters before the first NUL |
| AetDecode.NameReadsBack | src/aet.rs:1311-1312 | a name stored by `to_buf` reads back as itself, or as empty when it held NUL |
| AetDecode.DecodeCurves | src/aet.rs:1207-1214 | one decoded curve per curve record |
| AetDecode.DecodeCurvesReadBack | src/aet.rs:1033-1062 | curves stored by `to_buf` decode back to curves of the same key counts (none for a curve that stores nothing) |
| AetDecode.CameraOf | src/aet.rs:814-833 | the camera's thirteen curves are the decoded records, in declaration order |
| AetDecode.VideoReadsBack | src/aet.rs:1254-1284 | a video item stored by `to_buf` decodes equal, with each sprite name passed through the NUL rule |
| AetDecode.MarkersOfReads | src/aet.rs:1191-1200 | one marker per record, with its time and its name read up to the NUL |
| AetDecode.VideoOfReads | src/aet.rs:1254-1284 | a video item's header fields are copied, with one source per record |
| AetDecode.LayerOfReads | src/aet.rs:1311-1324 | a decoded layer has the given item and identity, no parent yet, its name read up to NUL and its scalar fields copied |
| AetDecode.LayerBlocksRead | src/aet.rs:1202-1250 | the video, 3D and audio blocks are present exactly when their pointers are non-null, with every curve converted |
| AetDecode.RunRecovers | src/aet.rs:1202-1250 | records that read back as a run of curves decode, position by position, to curves that give those curves back |
| AetDecode.StoredLayerReadsBack | src/aet.rs:1188-1324 | a layer record `alloc_layer` wrote decodes to its layer: the name and each marker name through the NUL rule, equal scalar fields and marker times, the same blocks, and every curve given back |
| AetDecode.AppendedShape | src/aet.rs:1326-1337 | one iteration pushes the layer, inserts its own entry at its record's address and takes a fresh identity |
| AetDecode.DecodeCompWell | src/aet.rs:1175-1341 | `decode` returns one layer per record and a map with a key for every record address of the run; identities are fresh, and no `Rc` sits at two addresses |
| AetDecode.DecodeRunWell | src/aet.rs:1188-1338 | the same for every prefix of the layer loop |
| AetDecode.DecodeStepWell | src/aet.rs:1188-1338 | one iteration keeps that invariant |
| AetDecode.RunUnfold | src/aet.rs:1188-1338 | a successful prefix is the shorter prefix with one more layer appended |
| AetDecode.RunFold | src/aet.rs:1188-1338 | a prefix and the next item decoded give the longer prefix |
| AetDecode.RunStepWell | src/aet.rs:1304-1337 | merging the inner map, then inserting the own entry, keeps identities fresh and distinct |
| AetDecode.DecodeItemWell | src/aet.rs:1252-1309 | a decoded item's map and identities are well formed |
| AetDecode.MergeWell | src/aet.rs:1304-1336 | `map.extend` followed by `map.insert` keeps every `Rc` at one address |
| AetDecode.CompFuel | src/aet.rs:1297-1307 | a decode that succeeds with some fuel gives the same result with more fuel |
| AetDecode.RunFuel | src/aet.rs:1297-1307 | the same for every prefix of the layer loop |
| AetDecode.RunFuelStep | src/aet.rs:1297-1307 | the same for one more iteration |
| AetDecode.ItemFuel | src/aet.rs:1297-1307 | the same for the item of one layer |
| AetDecode.ParentTableVisit | src/aet.rs:805-811 | each visit of a map value adds that value's parent and changes no other entry, so the visiting order does not matter |
| AetDecode.ParentTableEntries | src/aet.rs:805-811 | every layer whose record had a parent address gets the `Rc` the map holds at that address, or None when it holds none; no other layer gets an entry |
| AetDecode.ResolveComp | src/aet.rs:810 | assigning parents keeps the number of layers |
| AetDecode.ResolveOnlyParents | src/aet.rs:805-811 | the parent pass changes parents and nothing else, at every depth |
| AetDecode.ResolveLayerOnlyParent | src/aet.rs:810 | the same for a single layer |
| AetDecode.ResolveIdempotent | src/aet.rs:805-811 | running the parent pass twice with the same table changes nothing more |
| AetDecode.ResolveLayerIdempotent | src/aet.rs:810 | the same for a single layer |
| AetDecode.RootOf | src/aet.rs:803 | the root of a kept scene, `comp[comp_count - 1]`, has its layer run inside the layer arena |
| AetDecode.ScenesSkip | src/aet.rs:799-801 | a scene with zero comps or a null comp pointer adds nothing |
| AetDecode.FromBufSpec | src/aet.rs:780-851 | `from_buf` copies `modern` and `big_endian`, and sets `is_x` to the big-endian flag |
| AetDecode.DecodeScenesCount | src/aet.rs:796-846 | the scene loop yields exactly one scene per kept record |
| AetDecode.FromBufSceneCount | src/aet.rs:796-846 | `from_buf` yields one scene per scene record that has comps and a non-null comp pointer |
| AetFailure.RunFails | src/aet.rs:1188-1338 | a failed prefix of the layer loop fails every longer prefix |
| AetFailure.ScenesFail | src/aet.rs:796-846 | a failed scene fails the whole set |
| AetFromBuf.DecodeCompLoop | src/aet.rs:1175-1341 | the loop of `decode` computes `DecodeComp` |
| AetFromBuf.DecodeItemStep | src/aet.rs:1252-1309 | the item match computes `DecodeItem`; a null pointer gives no item for every code, and a code above 3 fails |
| AetFromBuf.ParentPass | src/aet.rs:805-811 | the loop over the map's values, in any order, computes `ParentTable` |
| AetFromBuf.FromBuf | src/aet.rs:780-851 | the loop of `from_buf` computes `FromBufSpec` |
| SprResolution.Code | src/spr.rs:20-57 | every mode's discriminant lies in 0x00 .. 0x20 |
| SprResolution.FromCode | src/spr.rs:20-57 | a code names a mode exactly when it is at most 0x20 |
| SprResolution.CodeRoundTrip | src/spr.rs:20-57 | decoding a mode's discriminant gives the mode back |
| SprResolution.FromCodeRoundTrip | src/spr.rs:20-57 | every discriminant in range is the code of its own mode |
| SprResolution.Resolution | src/spr.rs:62-98 | `resolution` is total, and every mode is wider than it is high |
| SprResolution.ModeOfResolution | src/spr.rs:62-98 | every mode except `Res3KatUHD` can be recovered from its resolution |
| SprResolution.ResolutionNotInjective | src/spr.rs:79-80 | UHD and Res3KatUHD are different modes with the same resolution, 3840x2160 |
| SprResolution.ResolutionCollision | src/spr.rs:62-98 | that pair is the only collision in the table |
| SprBridge.CString | bridge/spr.cpp:195-196 | the characters of a `const char *` argument are a NUL-free prefix of it, and all of it when it holds no NUL |
| SprBridge.CopyCString | bridge/spr.cpp:195-196 | `strlen`, then a copy of that many characters and the terminator, gives exactly the C string |
| SprBridge.CStringStops | bridge/spr.cpp:195-196 | the C string ends at the first NUL |
| SprBridge.Memcpy | bridge/spr.cpp:191-193 | the first n entries are copied and the rest of the destination is untouched |
| SprBridge.Grow | bridge/spr.cpp:187-197 | a fresh array of n + 1 entries, holding the old entries followed by the new one |
| SprBridge.SecondSetTxpReadsFreed | bridge/spr.cpp:217-220 | as written, a `set_txp` on a set that already has a txp set copies from the set it has just deleted; a first call does not |
| SprBridge.SetTxpRelease | bridge/spr.cpp:217 | the intended release frees the previously installed set exactly when there is one, and never the incoming set |
| SprBridge.SprSet.constructor | bridge/spr.cpp:103-108 | a new sprite set has null arrays, zero counts, no txp set and cleared flags |
| SprBridge.SprSet.GetSprinfo | bridge/spr.cpp:170-173 | the info entry at the index |
| SprBridge.SprSet.GetSprname | bridge/spr.cpp:175-178 | the name entry at the index |
| SprBridge.SprSet.GetSprdata | bridge/spr.cpp:180-183 | the data entry at the index |
| SprBridge.SprSet.GetTexname | bridge/spr.cpp:205-208 | the texture name at the index |
| SprBridge.SprSet.AddSpr | bridge/spr.cpp:185-203 | the count grows by exactly one; all old entries are kept in all three arrays; the new last entry is the given info, a copy of the C string of the name, and the given data; nothing else changes |
| SprBridge.SprSet.GrowEntries | bridge/spr.cpp:187-197 | the three fresh arrays hold the old entries followed by the new entry |
| SprBridge.SprSet.SetTxp | bridge/spr.cpp:215-227 | releases the previously installed set exactly when there is one (`SetTxpRelease`), then installs the incoming textures, sets the texture count to their number and copies one name per texture, in order; the sprite arrays are untouched |
| SprBridge.SprSet.PackFile | bridge/spr.cpp:229-242 | nothing happens without a txp set or sprites; otherwise the sprites are rewritten in order, each to `PackInfo`, until one whose texture index is out of range (`at` throws) or whose texture has no mipmap; the sprites before it stay rewritten and the rest unchanged; `ready` is set exactly when every sprite was rewritten; the other fields and arrays stay |
| SprBridge.RewriteUVs | bridge/spr.cpp:232-238 | the loop of `pack_file` on the info array: the first sprites rewritten to `PackInfo`, stopping at the first out-of-range texture index or texture without a mipmap, the rest untouched |
| SprBridge.PackInfo | bridge/spr.cpp:233-237 | a packed sprite keeps its texture index, rotation and pixel rectangle; its UV rectangle is the pixel rectangle, and its far corner, divided by the width and height of its texture's first mipmap |
| SprBridge.PackInfoIdempotent | bridge/spr.cpp:233-237 | packing a packed sprite again leaves it as it is, since only the texture index and pixel rectangle it keeps are read |
| Spr.ToCStrings | src/spr.rs:173-179 | None exactly when some name holds a NUL; otherwise the names unchanged, in order |
| Spr.SetTxp | src/spr.rs:169-182 | when there is one name per texture and no name holds NUL, the set holds the textures and exactly those names in order; otherwise nothing changes |
| Spr.AddSpr | src/spr.rs:184-189 | a name with NUL changes nothing; otherwise the sprite is appended with its info, name and data |
| Spr.InfoIterator.constructor | src/spr.rs:250-257 | the iterator starts at index 0 with the sprite count as its length |
| Spr.InfoIterator.Next | src/spr.rs:451-477 | None exactly at the end, without advancing; otherwise the entry at the index, advancing by one |
| Spr.CollectSprites | src/spr.rs:448-482 | draining the iterator yields every sprite once, in index order |
| TxpBridge.FormatCode | src/txp.rs:25-45 | the format codes are 0 to 13, 15 and 127 |
| TxpBridge.FormatCodeInjective | src/txp.rs:25-45 | distinct formats have distinct codes |
| TxpBridge.BytesPerPixel | src/txp.rs:759-822 | every uncompressed format takes 1 to 4 bytes per pixel |
| TxpBridge.Mipmap.constructor | bridge/txp.cpp:4-7 | a new mipmap has zero dimensions, format A8 and no data |
| TxpBridge.Mipmap.SetWidth | bridge/txp.cpp:14-17 | the getter then returns the width set, and no other field changes |
| TxpBridge.Mipmap.SetHeight | bridge/txp.cpp:24-27 | the getter then returns the height set, and no other field changes |
| TxpBridge.Mipmap.SetFormat | bridge/txp.cpp:34-37 | the getter then returns the format set, and no other field changes |
| TxpBridge.Mipmap.GetData | bridge/txp.cpp:44-48 | the data, exactly when its length is what the dimensions and format call for; null otherwise |
| TxpBridge.Mipmap.SetData | bridge/txp.cpp:50-55 | `size` becomes `get_size()`, and the data becomes that many leading bytes of the source, which `get_data` then returns |
| TxpBridge.MipmapOffset | bridge/txp.cpp:97-101 | null exactly when an index reaches its bound; undefined exactly when, past the bounds test, the `int32_t` product `array_index * mipmaps_count` or the sum with `mipmap_index` leaves the `int32_t` range; otherwise that offset. `Texture.GetMipmap` is this function on the texture's own counts |
| TxpBridge.SmallGridNoOverflow | bridge/txp.cpp:97-101 | when `array_size * mipmaps_count` fits in `int32_t`, non-negative indices never overflow |
| TxpBridge.LargeGridOverflows | bridge/txp.cpp:97-101 | with 65536 arrays of 65536 mipmaps, the in-bound indices (32768, 0) overflow |
| TxpBridge.MipmapOffsetInGrid | bridge/txp.cpp:97-101 | for non-negative indices a non-null result lies inside the `array_size * mipmaps_count` grid |
| TxpBridge.NegativeIndexNotRejected | bridge/txp.cpp:97-101 | a negative array index passes the check and points before the vector |
| TxpBridge.Texture.constructor | bridge/txp.cpp:62-65 | a new texture has no cube map, zero counts and no mipmaps |
| TxpBridge.Texture.SetHasCubeMap | bridge/txp.cpp:72-75 | the getter then returns the flag set, and no other field changes |
| TxpBridge.Texture.SetArraySize | bridge/txp.cpp:82-85 | the getter then returns the array size set, and no other field changes |
| TxpBridge.Texture.SetMipmapsCount | bridge/txp.cpp:92-95 | the getter then returns the count set, and no other field changes |
| TxpBridge.Texture.AddMipmap | bridge/txp.cpp:103-106 | appends a copy of the mipmap; earlier mipmaps and the counts are unchanged |
| TxpBridge.TxpSet.constructor | bridge/txp.cpp:113-116 | a new texture set is empty |
| TxpBridge.TxpSet.AddTexture | bridge/txp.cpp:128-131 | appends a copy of the texture; earlier textures are unchanged |
| TxpPixels.Rgb565Fields | src/txp.rs:48-56 | r, g and b occupy 5, 6 and 5 bits from the least significant bit, and each reads back as packed |
| TxpPixels.Rgba5551Fields | src/txp.rs:58-68 | r, g, b and a occupy 5, 5, 5 and 1 bits, and each reads back as packed |
| TxpPixels.Rgba4444Fields | src/txp.rs:70-80 | the four channels occupy one nibble each, and each reads back as packed |
| TxpPixels.LowHighReadBack | src/txp.rs:930-931 | the low byte, then the high byte, read back on a little-endian host as the 16-bit pixel |
| TxpPixels.DecodePixel | src/txp.rs:759-822 | `rgba` writes four bytes for each pixel |
| TxpPixels.EncodePixel | src/txp.rs:902-963 | `from_rgba` writes as many bytes as the format's pixel size |
| TxpPixels.Rgb565RoundTrip | src/txp.rs:920-933 | decoding an encoded RGB565 pixel clears the low 3, 2 and 3 bits of red, green and blue, and gives alpha 255 |
| TxpPixels.Rgba5551RoundTrip | src/txp.rs:934-948 | decoding an encoded RGB5A1 pixel gives green as `(g >> 3) << 2`, and alpha as 255 exactly when it was 255 (0 otherwise) |
| TxpPixels.Rgba4444RoundTrip | src/txp.rs:949-963 | decoding an encoded RGBA4 pixel clears every channel's low nibble |
| TxpPixels.PixelRoundTrip | src/txp.rs:902-963 | per format: A8 keeps only alpha, RGB8 drops alpha, RGBA8 is exact, and RGB565, RGBA4 and RGB5A1 behave as stated above |
| TxpPixels.Rgb5a1GreenLoss | src/txp.rs:940 | in RGB5A1, green 0x08 comes back as 0x04, while RGB565 keeps it |
| TxpPixels.DecodeImage | src/txp.rs:759-822 | the decoded buffer holds four bytes per pixel |
| TxpPixels.EncodeImage | src/txp.rs:902-963 | the encoded buffer holds the format's pixel size per pixel |
| TxpPixels.DecodeImagePixel | src/txp.rs:759-822 | pixel i of the output is the decoding of pixel i of the data |
| TxpPixels.EncodeImagePixel | src/txp.rs:902-963 | pixel i of the mipmap data is the encoding of RGBA pixel i |
| TxpPixels.ImageRoundTrip | src/txp.rs:902-963 | `rgba` after `from_rgba` returns every pixel as its one-pixel round trip |
| TxpPixels.PixelOfRoundTrip | src/txp.rs:902-963 | the same, for one pixel at a time |
| TxpPixels.Rgba8ImageRoundTrip | src/txp.rs:917-919 | RGBA8 images come back unchanged |
| TxpCodec.DecodeRgba8Identity | src/txp.rs:778-780 | decoding RGBA8 is a copy of the data |
| TxpCodec.Rgba | src/txp.rs:753-890 | None exactly when the data is absent or the format is block-compressed; otherwise `width * height * 4` bytes, pixel i being the decoding of data pixel i |
| TxpCodec.DecodePixels | src/txp.rs:759-822 | the pixel loops fill the output buffer with `DecodeImage` |
| TxpCodec.FromRgba | src/txp.rs:893-1041 | None exactly for a block-compressed format; otherwise a mipmap of the given dimensions and format whose data is `EncodeImage` of the buffer |
| TxpCodec.EncodePixels | src/txp.rs:902-963 | the pixel loops fill the mipmap data with `EncodeImage` |
| TxpCodec.EncodedPixelBytes | src/txp.rs:902-963 | the bytes of encoded pixel i, by position, for each format |
| TxpCodec.EncodeRgba8Identity | src/txp.rs:917-919 | encoding RGBA8 is a copy of the buffer |
| TxpCodec.View16Overrun | src/txp.rs:783-786 | as written, the 16-bit view of a non-empty mipmap spans twice the mipmap's data, so pixel `width * height` is read past the data (undefined behaviour), and its output indices run past the output buffer, where the bounds-checked write panics |
| TxpCodec.IsYcbcr | src/txp.rs:278-283 | true exactly when `array_size` is 1, `mipmaps_count` is 2, and mipmaps (0,0) and (0,1) are both BC5 |
| TxpCodec.MipmapIterator.constructor | src/txp.rs:298-305 | the iterator starts at index 0, with length the `i32` product `array_size * mipmaps_count`, wrapped to 32 bits, cast to `usize` |
| Ints.Wrap32 | src/txp.rs:302 | the `i32` congruent to an integer modulo 2^32, which is the integer itself when it fits |
| TxpCodec.YieldedWithoutWrap | src/txp.rs:298-305 | when `array_size * mipmaps_count` fits in `i32`, the iterator yields every mipmap of array 0 |
| TxpCodec.WrappedLenYieldsNone | src/txp.rs:302 | 65536 arrays of 65536 mipmaps wrap the length to 0, and the iterator yields none of array 0's 65536 mipmaps |
| TxpCodec.MipmapIterator.Next | src/txp.rs:1104-1119 | None at the end; otherwise `get_mipmap(0, index)`, advancing exactly when that is non-null |
| TxpCodec.CollectMipmaps | src/txp.rs:1104-1119 | draining the iterator yields positions 0, 1, … of array 0's mipmaps: `mipmaps_count` of them (none when either count is below 1) unless the wrapped length is smaller, whatever `array_size` is |

## Left out

- Byte-level AET packing and unpacking: `kkdlib_aet_set_pack_file` and `kkdlib_aet_set_unpack_file` are foreign code. `ToBuf` stops at the header it hands to the packer. `FromBuf` starts from the unpacked arenas.
- Decoding on unpacked data: `AetDecode.Readable` states what `from_buf` relies on the unpacker for. Every pointer it follows lies in its arena, and a parent is null or an address. This is assumed, not proved.
- `SprBridge.SprSet.PackFile`: reading `texture.mipmaps[0]` of a texture without mipmaps is undefined in the source. The model stops there with `MipmapMissing`, leaving the sprites before it rewritten.
- `txp_mipmap::get_size` belongs to the external texture library and is not shown. `TxpBridge.GetSize` assumes width·height·bytes-per-pixel for the uncompressed formats, and 8 or 16 bytes per 4x4 block for the block formats.
- Floating point:
  - The Hermite arithmetic of `FCurve::interpolate` is left out. Only its frame-independent branches are modelled (`AetCurves.ShortValue`).
  - `SprBridge.PackInfo`: the `float` addition and division of `kkdlib_spr_set_pack_file` are not computed. They are the caller-supplied `FloatOps`, so the contract says which operations produce each UV field, not their IEEE values.
  - The float-luma L8 and L8A8 branches of `from_rgba` are left out. L8 and L8A8 decoding is modelled.
- Build variant: the block-compressed formats, YCbCr decode/encode and `scratch_image` need the external DirectXTex library. The model follows the build without it, where `rgba` and `from_rgba` return None for those formats.
- `TxpCodec.Rgba`, `TxpCodec.FromRgba`: a buffer shorter than the loops read panics in the source. This is a precondition here, as is an RGBA8 length mismatch in `copy_from_slice`.
  - The checked `i32` product `width * height * 4` is required not to overflow.
  - Negative dimensions are excluded.
  - 16-bit pixels are read as on a little-endian host.
- Foreign or plumbing code, not part of this model:
  - the packers and unpackers (`pack_file`, `unpack_file`);
  - `SprTexIterator`, the texture set's `TextureIterator`, and the `size_hint` of both iterators;
  - the archive, hash and sprite-database wrappers, the block-encoder wrapper and the Python bindings;
  - `Drop` impls and the trivial flag accessors of the sprite set.
- Spr.InfoIterator.Next: the null tests of `src/spr.rs:459-464` are not modelled. For an index below the count, the getters return addresses inside non-null arrays, so the tests cannot fire. `to_string_lossy` is modelled as the identity on names that were copied from Rust strings.
- AetDecode.CRead: lossy UTF-8 replacement is not modelled. Strings are sequences of characters, and only the cut at the first NUL is.
- Integer widths:
  - `as u32` casts of lengths (key counts, layer counts, source counts) are unbounded `nat`s. Graphs with 2^32 or more keys or layers are not modelled.
  - `usize` counters are unbounded. An overflow could only come from graphs larger than memory.
- Capacity: `Vec::with_capacity` and pointer stability are not modelled directly. The model proves the bound they rely on instead: every arena holds no more records than the counting pass reserved (`Le(Used(), …)`).
- AetDecode.DecodeComp: the recursion through nested comps is bounded by fuel set to the number of comp records. A cycle of comp pointers, which `to_buf` never produces, gives None where the source recurses without end.
- `Rc`/`Mutex`: each is a layer identity, and a fresh `Rc` is a fresh identity from a counter. Locking is not modelled.
- AetGraph.CompEq, AetGraph.LayerEq: comparing two compositions that hold the same `Rc` at one position locks that `Mutex` twice; the second `lock()` never returns (`src/aet.rs:268`). The model compares values there instead, so its lemmas require the compared pairs to be distinct `Rc`s. Equality through nested shared `Rc`s is not modelled.
- TxpCodec.MipmapIterator.constructor: the `i32` product of `src/txp.rs:302` panics on overflow in a debug build; the model follows the release build, where it wraps.
- TxpCodec.IsYcbcr: requires the texture to hold at least two mipmaps when `array_size` is 1 and `mipmaps_count` is 2. With fewer, `get_mipmap` returns a pointer past the end of the vector, and the read of its format is undefined.
- AetScenes.FixParent: a record whose parent is already an address is left unchanged. `to_buf` never produces one before its fix-up pass.
- Enumerations and bit-fields (blend mode, quality, layer flags, resolution mode in `SpriteData`) are their integer codes. The `transmute`s are identity on codes.

## Findings

| source | as written | input that shows it | evidently intended | confidence | as-written member | corrected member |
|---|---|---|---|---|---|---|
| src/txp.rs:783-786 | the RGB5, RGB5A1 and RGBA4 branches of `rgba` view the data as `width * height * 2` 16-bit pixels | a 1x1 RGB5 mipmap: its data is 2 bytes, but the view spans 4; at pixel 1 the loop reads past the data (undefined behaviour), then panics on the bounds-checked `out[4]` of a 4-byte buffer | a view of `width * height` pixels | not executed | TxpCodec.View16Overrun | TxpCodec.Rgba |
| bridge/spr.cpp:217 | `if (set->set.txp) delete txp;` deletes the incoming argument | a second `kkdlib_spr_set_set_txp` on one sprite set: the incoming set is freed, then copied at line 219 and measured at line 220 | delete the previously installed `set->set.txp` | not executed | SprBridge.SecondSetTxpReadsFreed | SprBridge.SetTxpRelease |
