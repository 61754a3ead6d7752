/**
 * The sprite-set record of `bridge/spr.cpp`: three parallel arrays of sprite entries
 * (info, name, data) that `add_spr` grows by one, the texture names and the txp set that
 * `set_txp` installs, the guard of `pack_file` and the indexed getters.
 */
module SprBridge {
  import opened Ints
  import opened Wrappers
  import opened Float32
  import opened TxpBridge
  import opened SprResolution

  /** `spr::SprInfo`: texture index, rotation, UV rectangle and pixel rectangle. */
  datatype SprInfo = SprInfo(
    texid: u32, rotate: i32,
    su: F32, sv: F32, eu: F32, ev: F32,
    px: F32, py: F32, width: F32, height: F32)

  /** `SpriteData`: attribute bits and resolution mode. */
  datatype SpriteData = SpriteData(attr: u32, resolutionMode: ResolutionMode)

  /** The characters of a `const char *` argument: those before the first NUL. */
  function CString(s: string): (c: string)
    ensures !HasNul(c) && c <= s
    ensures !HasNul(s) ==> c == s
  {
    if s == [] || s[0] == '\0' then [] else [s[0]] + CString(s[1..])
  }

  /**
   * `strlen` followed by a copy of that many characters and the terminator into fresh
   * storage: the copy holds exactly the C string.
   */
  method CopyCString(s: string) returns (copy: string)
    ensures copy == CString(s)
  {
    var len := 0;
    while len < |s| && s[len] != '\0'
      invariant 0 <= len <= |s|
      invariant !HasNul(s[..len])
    {
      assert s[..len + 1] == s[..len] + [s[len]];
      len := len + 1;
    }
    CStringStops(s, len);
    copy := s[..len];
  }

  /** The C string of `s` ends at its first NUL, or at its end. */
  lemma {:induction false} CStringStops(s: string, len: nat)
    requires len <= |s| && !HasNul(s[..len]) && (len == |s| || s[len] == '\0')
    ensures CString(s) == s[..len]
  {
    if len > 0 {
      assert s[0] in s[..len];
      assert s[1..][..len - 1] == s[1..len];
      assert forall c :: c in s[1..len] ==> c in s[..len];
      CStringStops(s[1..], len - 1);
    }
  }

  /** `memcpy` of `n` entries from `src` (null when `n` is 0) into the fresh array `dst`. */
  method Memcpy<T>(dst: array<T>, src: array?<T>, n: nat)
    requires n <= dst.Length && (n > 0 ==> src != null && n <= src.Length) && dst != src
    modifies dst
    ensures n > 0 ==> dst[..n] == old(src[..n])
    ensures dst[n..] == old(dst[n..])
  {
    var i := 0;
    while i < n
      invariant 0 <= i <= n
      invariant n > 0 ==> dst[..i] == old(src[..i])
      invariant dst[n..] == old(dst[n..])
    {
      dst[i] := src[i];
      i := i + 1;
    }
  }

  /**
   * `allocate (n + 1)`, `memcpy` of the `n` old entries and a write of slot `n`: a fresh
   * array holding the old entries followed by `last`.
   */
  method Grow<T(0)>(src: array?<T>, n: nat, last: T, ghost contents: seq<T>) returns (dst: array<T>)
    requires Elements(src) == contents && |contents| == n
    ensures fresh(dst) && dst[..] == contents + [last]
  {
    dst := new T[n + 1];
    Memcpy(dst, src, n);
    dst[n] := last;
    assert dst[..] == dst[..n] + [last];
  }

  /** The contents of an array that is null while empty. */
  function Elements<T>(a: array?<T>): seq<T>
    reads a
  {
    if a == null then [] else a[..]
  }

  /** What `set_txp` releases before installing its copy. */
  datatype Release = ReleaseNothing | ReleaseIncoming | ReleasePrevious

  /**
   * As written, `set_txp` deletes the incoming txp set, not the installed one, when a set
   * is already installed; it then copies from and measures that deleted set.
   */
  function SetTxpReleaseAsWritten(hadTxp: bool): (r: Release)
  {
    if hadTxp then ReleaseIncoming else ReleaseNothing
  }

  /** The copy that follows the release reads the incoming set: is it still alive? */
  predicate CopyReadsReleased(r: Release) {
    r == ReleaseIncoming
  }

  /** A second `set_txp` on one sprite set reads freed memory as written. */
  lemma SecondSetTxpReadsFreed()
    ensures CopyReadsReleased(SetTxpReleaseAsWritten(true))
    ensures !CopyReadsReleased(SetTxpReleaseAsWritten(false))
  {
  }

  /** The release `set_txp` evidently intends: the previously installed set, never the argument. */
  function SetTxpRelease(hadTxp: bool): (r: Release)
    ensures !CopyReadsReleased(r)
    ensures hadTxp <==> r == ReleasePrevious
  {
    if hadTxp then ReleasePrevious else ReleaseNothing
  }

  /** The outcome of `pack_file` up to the external packer. */
  datatype PackOutcome =
    | Ignored                         // txp null or no sprites: nothing is produced
    | TexidOutOfRange(sprite: nat)    // `textures.at (texid)` throws for this sprite
    | MipmapMissing(sprite: nat)      // the sprite's texture has no `mipmaps[0]` to read
    | Packed                          // `ready` set, external packer called

  /** How many sprites, of `n`, had their UV rectangle rewritten when `pack_file` stopped. */
  function Rewritten(out: PackOutcome, n: nat): nat {
    match out
    case Ignored => 0
    case TexidOutOfRange(i) => i
    case MipmapMissing(i) => i
    case Packed => n
  }

  /**
   * The `float` arithmetic of `pack_file`, which the model does not compute: the sum of two
   * floats, and the quotient of a float by an `int32_t` converted to `float`.
   */
  datatype FloatOps = FloatOps(add: (F32, F32) -> F32, divide: (F32, i32) -> F32)

  /** A sprite whose texture `at` finds, and whose texture has a first mipmap. */
  predicate Packable(s: SprInfo, textures: seq<TextureValue>) {
    s.texid as int < |textures| && |textures[s.texid].mipmaps| > 0
  }

  /**
   * A sprite as `pack_file` leaves it: the UV rectangle is the pixel rectangle divided by
   * the size of its texture's first mipmap; the texture index, the rotation and the pixel
   * rectangle are kept.
   */
  function PackInfo(s: SprInfo, textures: seq<TextureValue>, ops: FloatOps): (p: SprInfo)
    requires Packable(s, textures)
    ensures p.texid == s.texid && p.rotate == s.rotate
    ensures p.px == s.px && p.py == s.py && p.width == s.width && p.height == s.height
    ensures var m := textures[s.texid].mipmaps[0];
      p.su == ops.divide(s.px, m.width) && p.sv == ops.divide(s.py, m.height) &&
      p.eu == ops.divide(ops.add(s.px, s.width), m.width) &&
      p.ev == ops.divide(ops.add(s.py, s.height), m.height)
  {
    var m := textures[s.texid].mipmaps[0];
    s.(su := ops.divide(s.px, m.width), sv := ops.divide(s.py, m.height),
       eu := ops.divide(ops.add(s.px, s.width), m.width),
       ev := ops.divide(ops.add(s.py, s.height), m.height))
  }

  /**
   * Packing reads only the texture index and the pixel rectangle, which it keeps: packing a
   * packed sprite again changes nothing.
   */
  lemma PackInfoIdempotent(s: SprInfo, textures: seq<TextureValue>, ops: FloatOps)
    requires Packable(s, textures)
    ensures Packable(PackInfo(s, textures, ops), textures)
    ensures PackInfo(PackInfo(s, textures, ops), textures, ops) == PackInfo(s, textures, ops)
  {
  }

  /**
   * The loop of `pack_file`: each sprite in turn has its texture looked up and its UV
   * rectangle rewritten, until a sprite's `texid` is out of range or its texture has no
   * mipmap; the sprites before that one stay rewritten, the rest untouched.
   */
  method RewriteUVs(infos: array<SprInfo>, textures: seq<TextureValue>, ops: FloatOps)
    returns (out: PackOutcome)
    modifies infos
    ensures !out.Ignored?
    ensures out.TexidOutOfRange? ==>
      out.sprite < infos.Length && old(infos[out.sprite]).texid as int >= |textures|
    ensures out.MipmapMissing? ==>
      out.sprite < infos.Length && old(infos[out.sprite]).texid as int < |textures| &&
      textures[old(infos[out.sprite]).texid].mipmaps == []
    ensures Rewritten(out, infos.Length) <= infos.Length
    ensures forall j :: 0 <= j < Rewritten(out, infos.Length) ==>
      Packable(old(infos[j]), textures) && infos[j] == PackInfo(old(infos[j]), textures, ops)
    ensures forall j :: Rewritten(out, infos.Length) <= j < infos.Length ==> infos[j] == old(infos[j])
  {
    var i := 0;
    while i < infos.Length
      invariant 0 <= i <= infos.Length
      invariant forall j :: 0 <= j < i ==>
        Packable(old(infos[j]), textures) && infos[j] == PackInfo(old(infos[j]), textures, ops)
      invariant forall j :: i <= j < infos.Length ==> infos[j] == old(infos[j])
    {
      var s := infos[i];
      if s.texid as int >= |textures| {
        return TexidOutOfRange(i);
      }
      if |textures[s.texid].mipmaps| == 0 {
        return MipmapMissing(i);
      }
      var m := textures[s.texid].mipmaps[0];
      infos[i] := s.(su := ops.divide(s.px, m.width), sv := ops.divide(s.py, m.height),
                     eu := ops.divide(ops.add(s.px, s.width), m.width),
                     ev := ops.divide(ops.add(s.py, s.height), m.height));
      i := i + 1;
    }
    return Packed;
  }

  class SprSet {
    var ready: bool
    var modern: bool
    var bigEndian: bool
    var isX: bool
    var flag: u32
    var numOfTexture: i32
    var numOfSprite: i32
    var sprinfo: array?<SprInfo>
    var sprname: array?<string>
    var sprdata: array?<SpriteData>
    var texname: array?<string>
    /** The installed copy of a txp set (`txp_set *`, null as None). */
    var txp: Option<seq<TextureValue>>

    /** The arrays hold exactly the counted entries; the name count follows the txp set. */
    predicate Valid()
      reads this, sprinfo, sprname, sprdata, texname
    {
      0 <= numOfSprite && 0 <= numOfTexture &&
      |Elements(sprinfo)| == |Elements(sprname)| == |Elements(sprdata)| == numOfSprite as int &&
      |Elements(texname)| == numOfTexture as int &&
      (txp.Some? ==> |txp.value| == numOfTexture as int) &&
      (txp.None? ==> numOfTexture == 0) &&
      (sprinfo != null ==> sprname != null && sprdata != null)
    }

    function Infos(): seq<SprInfo> reads this, sprinfo { Elements(sprinfo) }
    function Names(): seq<string> reads this, sprname { Elements(sprname) }
    function Datas(): seq<SpriteData> reads this, sprdata { Elements(sprdata) }
    function TexNames(): seq<string> reads this, texname { Elements(texname) }

    /** `kkdlib_spr_set_new`: a value-initialised set with null arrays. */
    constructor ()
      ensures Valid() && !ready && !modern && !bigEndian && !isX && flag == 0
      ensures txp.None? && numOfSprite == 0 && Infos() == [] && Names() == [] && Datas() == [] && TexNames() == []
    {
      ready, modern, bigEndian, isX, flag := false, false, false, false, 0;
      numOfTexture, numOfSprite := 0, 0;
      sprinfo, sprname, sprdata, texname := null, null, null, null;
      txp := None;
    }

    /** `kkdlib_spr_set_get_sprinfo`: the entry at `index`; the index is not checked. */
    function GetSprinfo(index: i32): (r: SprInfo)
      reads this, sprinfo, sprname, sprdata, texname
      requires Valid() && 0 <= index < numOfSprite
      ensures r == Infos()[index]
    {
      sprinfo[index]
    }

    /** `kkdlib_spr_set_get_sprname`: the name at `index`; the index is not checked. */
    function GetSprname(index: i32): (r: string)
      reads this, sprinfo, sprname, sprdata, texname
      requires Valid() && 0 <= index < numOfSprite
      ensures r == Names()[index]
    {
      sprname[index]
    }

    /** `kkdlib_spr_set_get_sprdata`: the entry at `index`; the index is not checked. */
    function GetSprdata(index: i32): (r: SpriteData)
      reads this, sprinfo, sprname, sprdata, texname
      requires Valid() && 0 <= index < numOfSprite
      ensures r == Datas()[index]
    {
      sprdata[index]
    }

    /** `kkdlib_spr_set_get_texname`: the texture name at `index`; the index is not checked. */
    function GetTexname(index: i32): (r: string)
      reads this, sprinfo, sprname, sprdata, texname
      requires Valid() && 0 <= index < numOfTexture
      ensures r == TexNames()[index]
    {
      texname[index]
    }

    /**
     * `kkdlib_spr_set_add_spr`: three fresh arrays one entry longer, the old entries
     * copied, the new entry last (its name a copy of the C string), the count bumped.
     */
    method AddSpr(info: SprInfo, name: string, data: SpriteData)
      requires Valid() && numOfSprite < 0x7FFF_FFFF
      modifies this
      ensures Valid()
      ensures numOfSprite == old(numOfSprite) + 1
      ensures Infos() == old(Infos()) + [info]
      ensures Names() == old(Names()) + [CString(name)]
      ensures Datas() == old(Datas()) + [data]
      ensures texname == old(texname) && txp == old(txp) && numOfTexture == old(numOfTexture)
      ensures ready == old(ready) && modern == old(modern) && bigEndian == old(bigEndian)
      ensures isX == old(isX) && flag == old(flag)
    {
      var copy := CopyCString(name);
      var newInfo, newName, newData := GrowEntries(info, copy, data);
      numOfSprite := numOfSprite + 1;
      sprinfo, sprname, sprdata := newInfo, newName, newData;
    }

    /** The three grown arrays of `add_spr`, before they replace the old ones. */
    method GrowEntries(info: SprInfo, name: string, data: SpriteData)
      returns (newInfo: array<SprInfo>, newName: array<string>, newData: array<SpriteData>)
      requires Valid()
      ensures fresh(newInfo) && fresh(newName) && fresh(newData)
      ensures newInfo[..] == Infos() + [info]
      ensures newName[..] == Names() + [name]
      ensures newData[..] == Datas() + [data]
    {
      var n := numOfSprite as int;
      newInfo := Grow(sprinfo, n, info, Infos());
      newName := Grow(sprname, n, name, Names());
      newData := Grow(sprdata, n, data, Datas());
    }

    /**
     * `kkdlib_spr_set_set_txp` with the release it evidently intends (`SetTxpRelease`):
     * installs a copy of the incoming set, counts its textures and copies one name per
     * texture. The incoming set is only read; `released` is what is freed first.
     */
    method SetTxp(incoming: TxpSet, names: seq<string>) returns (released: Release)
      requires Valid() && |incoming.textures| <= |names| && |incoming.textures| < 0x8000_0000
      modifies this
      ensures Valid()
      ensures released == SetTxpRelease(old(txp).Some?)
      ensures txp == Some(incoming.textures) && numOfTexture as int == |incoming.textures|
      ensures |TexNames()| == |incoming.textures|
      ensures forall i :: 0 <= i < |TexNames()| ==> TexNames()[i] == CString(names[i])
      ensures sprinfo == old(sprinfo) && sprname == old(sprname) && sprdata == old(sprdata)
      ensures numOfSprite == old(numOfSprite) && ready == old(ready) && modern == old(modern)
      ensures bigEndian == old(bigEndian) && isX == old(isX) && flag == old(flag)
    {
      released := SetTxpRelease(txp.Some?);
      var n := |incoming.textures|;
      txp := Some(incoming.textures);
      numOfTexture := n as i32;
      var copies := new string[n];
      for i := 0 to n
        modifies copies
        invariant forall j :: 0 <= j < i ==> copies[j] == CString(names[j])
      {
        copies[i] := CopyCString(names[i]);
      }
      texname := copies;
    }

    /**
     * `kkdlib_spr_set_pack_file` up to the external packer: nothing without a txp set or
     * sprites; otherwise each sprite in turn has its texture looked up with `at`, which
     * throws for an out-of-range `texid`, and its UV rectangle rewritten from the first
     * mipmap of that texture; the sprites before the one that stops it stay rewritten.
     * When every sprite is rewritten, `ready` is set before packing.
     */
    method PackFile(ops: FloatOps) returns (out: PackOutcome)
      requires Valid()
      modifies this, sprinfo
      ensures Valid() && |Infos()| == |old(Infos())|
      ensures out.Ignored? <==> txp.None? || numOfSprite == 0
      ensures out.TexidOutOfRange? ==>
        out.sprite < |Infos()| && old(Infos())[out.sprite].texid as int >= |txp.value|
      ensures out.MipmapMissing? ==>
        out.sprite < |Infos()| && old(Infos())[out.sprite].texid as int < |txp.value| &&
        txp.value[old(Infos())[out.sprite].texid].mipmaps == []
      ensures forall j :: 0 <= j < Rewritten(out, |Infos()|) ==>
        Packable(old(Infos())[j], txp.value) && Infos()[j] == PackInfo(old(Infos())[j], txp.value, ops)
      ensures forall j :: Rewritten(out, |Infos()|) <= j < |Infos()| ==> Infos()[j] == old(Infos())[j]
      ensures ready == (old(ready) || out.Packed?)
      ensures txp == old(txp) && numOfSprite == old(numOfSprite) && numOfTexture == old(numOfTexture)
      ensures sprinfo == old(sprinfo) && sprname == old(sprname) && sprdata == old(sprdata) && texname == old(texname)
      ensures modern == old(modern) && bigEndian == old(bigEndian) && isX == old(isX) && flag == old(flag)
    {
      if txp.None? || numOfSprite == 0 {
        return Ignored;
      }
      out := RewriteUVs(sprinfo, txp.value, ops);
      if out.Packed? {
        ready := true;
      }
    }
  }
}
