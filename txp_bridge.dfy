/**
 * The texture containers behind the C interface of the texture library: a mipmap
 * (`txp_mipmap`), a texture (`txp`, a flat vector of mipmaps addressed by array slice and
 * mipmap level) and a texture set (`txp_set`). The structures themselves belong to the
 * external texture library; the accessors modelled here are those of the bridge.
 */
module TxpBridge {
  import opened Ints
  import opened Wrappers

  /** Pixel formats with their numeric codes (`Format` / `txp_format`). */
  datatype Format =
    | A8 | RGB8 | RGBA8 | RGB5 | RGB5A1 | RGBA4
    | BC1 | BC1a | BC2 | BC3 | BC4 | BC5
    | L8 | L8A8 | BC7 | BC6H

  function FormatCode(f: Format): (code: u32)
    ensures code <= 13 || code == 15 || code == 127
  {
    match f
    case A8 => 0 case RGB8 => 1 case RGBA8 => 2 case RGB5 => 3 case RGB5A1 => 4
    case RGBA4 => 5 case BC1 => 6 case BC1a => 7 case BC2 => 8 case BC3 => 9
    case BC4 => 10 case BC5 => 11 case L8 => 12 case L8A8 => 13 case BC7 => 15
    case BC6H => 127
  }

  /** Distinct formats have distinct codes, so the code identifies the format. */
  lemma FormatCodeInjective(f: Format, g: Format)
    requires FormatCode(f) == FormatCode(g)
    ensures f == g
  {
  }

  /** The block-compressed formats, whose codec lives in a separate library. */
  predicate IsBlockCompressed(f: Format) {
    f in {BC1, BC1a, BC2, BC3, BC4, BC5, BC7, BC6H}
  }

  /** Bytes per pixel of an uncompressed format. */
  function BytesPerPixel(f: Format): (n: nat)
    requires !IsBlockCompressed(f)
    ensures 1 <= n <= 4
  {
    match f
    case A8 => 1 case L8 => 1
    case RGB5 => 2 case RGB5A1 => 2 case RGBA4 => 2 case L8A8 => 2
    case RGB8 => 3
    case RGBA8 => 4
  }

  /**
   * `txp_mipmap::get_size` of the external texture library: width * height * bytes per
   * pixel for the uncompressed formats and, for the block formats, 8 (BC1, BC1a, BC4) or
   * 16 bytes per 4x4 block of the dimensions rounded up to a multiple of 4.
   */
  function GetSize(format: Format, width: int, height: int): int {
    if !IsBlockCompressed(format) then width * height * BytesPerPixel(format)
    else
      var blocks := ((width + 3) / 4) * ((height + 3) / 4);
      if format in {BC1, BC1a, BC4} then blocks * 8 else blocks * 16
  }

  /** A copy of a mipmap, as `push_back (*mipmap)` stores it. */
  datatype MipmapValue = MipmapValue(width: i32, height: i32, format: Format, size: int, data: seq<byte>)

  /** A copy of a texture, as `push_back (*txp)` stores it. */
  datatype TextureValue = TextureValue(hasCubeMap: bool, arraySize: i32, mipmapsCount: i32, mipmaps: seq<MipmapValue>)

  class Mipmap {
    var width: i32
    var height: i32
    var format: Format
    /** The `size` member, written by `set_data`. */
    var size: int
    var data: seq<byte>

    /** `kkdlib_txp_mipmap_new`: a value-initialised mipmap. */
    constructor ()
      ensures width == 0 && height == 0 && format == A8 && size == 0 && data == []
    {
      width, height, format, size, data := 0, 0, A8, 0, [];
    }

    function Value(): (v: MipmapValue)
      reads this
    {
      MipmapValue(width, height, format, size, data)
    }

    function GetWidth(): i32 reads this { width }
    function GetHeight(): i32 reads this { height }
    function GetFormat(): Format reads this { format }

    /** `kkdlib_txp_mipmap_get_size`: the size the dimensions and the format call for. */
    function GetSizeOf(): int reads this { GetSize(format, width as int, height as int) }

    method SetWidth(w: i32)
      modifies this
      ensures GetWidth() == w
      ensures height == old(height) && format == old(format) && size == old(size) && data == old(data)
    {
      width := w;
    }

    method SetHeight(h: i32)
      modifies this
      ensures GetHeight() == h
      ensures width == old(width) && format == old(format) && size == old(size) && data == old(data)
    {
      height := h;
    }

    method SetFormat(f: Format)
      modifies this
      ensures GetFormat() == f
      ensures width == old(width) && height == old(height) && size == old(size) && data == old(data)
    {
      format := f;
    }

    /**
     * `kkdlib_txp_mipmap_get_data`: the pixel data, or null unless the stored data is
     * exactly as long as the dimensions and the format call for.
     */
    function GetData(): (r: Option<seq<byte>>)
      reads this
      ensures r.Some? <==> |data| == GetSizeOf()
      ensures r.Some? ==> |r.value| == GetSizeOf() && r.value == data
    {
      if |data| == GetSizeOf() then Some(data) else None
    }

    /**
     * `kkdlib_txp_mipmap_set_data`: sets `size` to `get_size ()`, resizes the data to that
     * length and copies that many bytes from `src`, which must hold at least that many.
     */
    method SetData(src: seq<byte>)
      requires 0 <= GetSizeOf() <= |src|
      modifies this
      ensures width == old(width) && height == old(height) && format == old(format)
      ensures size == GetSizeOf() && data == src[..size]
      ensures GetData() == Some(src[..size])
    {
      size := GetSizeOf();
      data := src[..size];
    }
  }

  /**
   * What `kkdlib_txp_get_mipmap` returns: null, a position in the texture's flat mipmap
   * vector, or nothing defined, when the `int32_t` arithmetic of the offset overflows.
   */
  datatype MipmapRef = Null | At(offset: int) | Overflowed

  predicate InI32(x: int) {
    -0x8000_0000 <= x < 0x8000_0000
  }

  /**
   * The position of mipmap `(arrayIndex, mipmapIndex)`: null when an index reaches its
   * bound; otherwise `arrayIndex * mipmapsCount + mipmapIndex`, computed in `int32_t`, so
   * a product or sum outside that range is undefined behaviour. Negative indices are not
   * rejected.
   */
  function MipmapOffset(arraySize: i32, mipmapsCount: i32, arrayIndex: i32, mipmapIndex: i32): (r: MipmapRef)
    ensures r.Null? <==> arrayIndex >= arraySize || mipmapIndex >= mipmapsCount
    ensures r.Overflowed? <==>
      !r.Null? && !(InI32(arrayIndex as int * mipmapsCount as int) &&
                    InI32(arrayIndex as int * mipmapsCount as int + mipmapIndex as int))
    ensures r.At? ==> r.offset == arrayIndex as int * mipmapsCount as int + mipmapIndex as int
  {
    if arrayIndex >= arraySize || mipmapIndex >= mipmapsCount then Null
    else
      var product := arrayIndex as int * mipmapsCount as int;
      if !InI32(product) || !InI32(product + mipmapIndex as int) then Overflowed
      else At(product + mipmapIndex as int)
  }

  /** For non-negative indices a defined result lies inside the `arraySize * mipmapsCount` grid. */
  lemma MipmapOffsetInGrid(arraySize: i32, mipmapsCount: i32, arrayIndex: i32, mipmapIndex: i32)
    requires 0 <= arrayIndex && 0 <= mipmapIndex
    requires MipmapOffset(arraySize, mipmapsCount, arrayIndex, mipmapIndex).At?
    ensures 0 <= MipmapOffset(arraySize, mipmapsCount, arrayIndex, mipmapIndex).offset < arraySize as int * mipmapsCount as int
  {
    RowMajorBound(arrayIndex as int, mipmapIndex as int, arraySize as int, mipmapsCount as int);
  }

  /**
   * When the whole grid fits in `int32_t`, in-bound non-negative indices never overflow:
   * they are null or a position inside the grid.
   */
  lemma SmallGridNoOverflow(arraySize: i32, mipmapsCount: i32, arrayIndex: i32, mipmapIndex: i32)
    requires 0 <= arrayIndex && 0 <= mipmapIndex
    requires arraySize as int * mipmapsCount as int < 0x8000_0000
    ensures !MipmapOffset(arraySize, mipmapsCount, arrayIndex, mipmapIndex).Overflowed?
  {
    if arrayIndex < arraySize && mipmapIndex < mipmapsCount {
      RowMajorBound(arrayIndex as int, mipmapIndex as int, arraySize as int, mipmapsCount as int);
      MulNonNegative(arrayIndex as int, mipmapsCount as int);
    }
  }

  /** 65536 arrays of 65536 mipmaps: the in-bound indices (32768, 0) overflow `int32_t`. */
  lemma LargeGridOverflows()
    ensures MipmapOffset(0x1_0000, 0x1_0000, 0x8000, 0).Overflowed?
  {
  }

  /** Row-major offsets of a `rows * cols` grid stay below `rows * cols`. */
  lemma RowMajorBound(a: int, m: int, rows: int, cols: int)
    requires 0 <= a < rows && 0 <= m < cols
    ensures 0 <= a * cols + m < rows * cols
  {
    assert 0 <= a * cols by {
      MulNonNegative(a, cols);
    }
    assert (a + 1) * cols == a * cols + cols;
    assert rows * cols - (a + 1) * cols == (rows - (a + 1)) * cols;
    MulNonNegative(rows - (a + 1), cols);
  }

  lemma MulNonNegative(x: int, y: int)
    requires 0 <= x && 0 <= y
    ensures 0 <= x * y
  {
  }

  /** A negative array index passes the bounds test and points before the vector. */
  lemma NegativeIndexNotRejected()
    ensures MipmapOffset(1, 1, -1, 0) == At(-1)
  {
  }

  class Texture {
    var hasCubeMap: bool
    var arraySize: i32
    var mipmapsCount: i32
    var mipmaps: seq<MipmapValue>

    /** `kkdlib_txp_new`: a value-initialised texture. */
    constructor ()
      ensures !hasCubeMap && arraySize == 0 && mipmapsCount == 0 && mipmaps == []
    {
      hasCubeMap, arraySize, mipmapsCount, mipmaps := false, 0, 0, [];
    }

    function Value(): TextureValue
      reads this
    {
      TextureValue(hasCubeMap, arraySize, mipmapsCount, mipmaps)
    }

    function GetHasCubeMap(): bool reads this { hasCubeMap }
    function GetArraySize(): i32 reads this { arraySize }
    function GetMipmapsCount(): i32 reads this { mipmapsCount }

    method SetHasCubeMap(b: bool)
      modifies this
      ensures GetHasCubeMap() == b
      ensures arraySize == old(arraySize) && mipmapsCount == old(mipmapsCount) && mipmaps == old(mipmaps)
    {
      hasCubeMap := b;
    }

    method SetArraySize(n: i32)
      modifies this
      ensures GetArraySize() == n
      ensures hasCubeMap == old(hasCubeMap) && mipmapsCount == old(mipmapsCount) && mipmaps == old(mipmaps)
    {
      arraySize := n;
    }

    method SetMipmapsCount(n: i32)
      modifies this
      ensures GetMipmapsCount() == n
      ensures hasCubeMap == old(hasCubeMap) && arraySize == old(arraySize) && mipmaps == old(mipmaps)
    {
      mipmapsCount := n;
    }

    /** `kkdlib_txp_get_mipmap`: the position of the requested mipmap, null, or an overflow. */
    function GetMipmap(arrayIndex: i32, mipmapIndex: i32): (r: MipmapRef)
      reads this
    {
      MipmapOffset(arraySize, mipmapsCount, arrayIndex, mipmapIndex)
    }

    /** `kkdlib_txp_add_mipmap`: appends a copy; earlier mipmaps are untouched. */
    method AddMipmap(m: Mipmap)
      modifies this
      ensures mipmaps == old(mipmaps) + [m.Value()]
      ensures hasCubeMap == old(hasCubeMap) && arraySize == old(arraySize) && mipmapsCount == old(mipmapsCount)
    {
      mipmaps := mipmaps + [m.Value()];
    }
  }

  class TxpSet {
    var textures: seq<TextureValue>

    /** `kkdlib_txp_set_new`. */
    constructor ()
      ensures textures == []
    {
      textures := [];
    }

    function GetTexturesSize(): nat reads this { |textures| }

    /** `kkdlib_txp_set_add_texture`: appends a copy; earlier textures are untouched. */
    method AddTexture(t: Texture)
      modifies this
      ensures textures == old(textures) + [t.Value()]
    {
      textures := textures + [t.Value()];
    }
  }
}
