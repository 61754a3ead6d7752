/**
 * The texture operations of `src/txp.rs` built on the mipmap storage: conversion of an
 * uncompressed mipmap to 8-bit RGBA and back, the YCbCr test, and the mipmap iterator.
 */
module TxpCodec {
  import opened Ints
  import opened Wrappers
  import opened TxpBridge
  import opened TxpPixels

  /** The number of pixels of a mipmap, `width * height`. */
  function PixelCount(width: i32, height: i32): nat
    requires 0 <= width && 0 <= height
  {
    MulNonNegative(width as int, height as int);
    width as int * height as int
  }

  /** `DecodeImage` of an RGBA8 buffer is that buffer. */
  lemma {:induction false} DecodeRgba8Identity(data: seq<byte>, n: nat)
    requires 4 * n <= |data|
    ensures Span(n, 4) <= |data|
    ensures DecodeImage(RGBA8, data, n) == data[..4 * n]
  {
    SpanIsProduct(n, 4);
    if n > 0 {
      DecodeRgba8Identity(data, n - 1);
      var m := n - 1;
      assert Span(n, 4) == 4 * m + 4;
      assert DecodeImage(RGBA8, data, n) == data[..4 * m] + data[4 * m..4 * m + 4];
      assert data[..4 * n] == data[..4 * m] + data[4 * m..4 * m + 4];
    }
  }

  /**
   * `Mipmap::rgba`: None when the mipmap has no data or is block-compressed (the build
   * without the block codec); otherwise the RGBA buffer of `width * height` pixels, pixel
   * `i` being `DecodePixel` of pixel `i` of the data. The RGB5, RGB5A1 and RGBA4 branches
   * are modelled as iterating over `width * height` pixels (see Findings).
   */
  method Rgba(m: Mipmap) returns (r: Option<seq<byte>>)
    requires 0 <= m.width && 0 <= m.height && 4 * PixelCount(m.width, m.height) < 0x8000_0000
    ensures r.Some? <==> m.GetData().Some? && !IsBlockCompressed(m.format)
    ensures r.Some? ==>
      Span(PixelCount(m.width, m.height), BytesPerPixel(m.format)) <= |m.data| &&
      r.value == DecodeImage(m.format, m.data, PixelCount(m.width, m.height))
  {
    var n := PixelCount(m.width, m.height);
    MulNonNegative(m.width as int, m.height as int);
    var out := new byte[4 * n];
    var data := m.GetData();
    if data.None? || IsBlockCompressed(m.format) {
      return None;
    }
    var format := m.format;
    SpanIsProduct(n, BytesPerPixel(format));
    if format == RGBA8 {
      DecodeRgba8Identity(data.value, n);
      return Some(data.value);
    }
    var decoded := DecodePixels(format, data.value, n, out);
    return Some(decoded);
  }

  /** The pixel loops of `rgba`: fills `out`, four bytes per pixel, and returns its contents. */
  method DecodePixels(format: Format, data: seq<byte>, n: nat, out: array<byte>) returns (decoded: seq<byte>)
    requires !IsBlockCompressed(format) && Span(n, BytesPerPixel(format)) <= |data| && out.Length == 4 * n
    modifies out
    ensures decoded == out[..] == DecodeImage(format, data, n)
  {
    var w := BytesPerPixel(format);
    ghost var image := DecodeImage(format, data, n);
    var i := 0;
    while i < n
      invariant 0 <= i <= n
      invariant forall k :: 0 <= k < 4 * i ==> out[k] == image[k]
    {
      DecodeImagePixel(format, data, n, i);
      var px := DecodePixel(format, Chunk(data, w, i));
      assert forall k :: 4 * i <= k < 4 * i + 4 ==> px[k - 4 * i] == image[k];
      forall k | 4 * i <= k < 4 * i + 4 {
        out[k] := px[k - 4 * i];
      }
      i := i + 1;
    }
    decoded := out[..];
    assert decoded == image;
  }

  /**
   * `Mipmap::from_rgba` for the formats it converts without floating point: a new mipmap
   * of the given dimensions and format whose data is `EncodeImage` of the RGBA buffer, or
   * None for a block-compressed format (the build without the block codec).
   */
  method FromRgba(width: i32, height: i32, data: seq<byte>, format: Format) returns (r: Option<Mipmap>)
    requires 0 <= width && 0 <= height && 4 * PixelCount(width, height) < 0x8000_0000
    requires format != L8 && format != L8A8
    requires !IsBlockCompressed(format) ==> 4 * PixelCount(width, height) <= |data|
    requires format == RGBA8 ==> |data| == 4 * PixelCount(width, height)
    ensures r.None? <==> IsBlockCompressed(format)
    ensures r.Some? ==>
      r.value.width == width && r.value.height == height && r.value.format == format &&
      r.value.GetData() == Some(EncodeImage(format, data, PixelCount(width, height)))
  {
    var mip := new Mipmap();
    mip.SetWidth(width);
    mip.SetHeight(height);
    mip.SetFormat(format);
    if IsBlockCompressed(format) {
      return None;
    }
    var n := PixelCount(width, height);
    MulNonNegative(width as int, height as int);
    var w := BytesPerPixel(format);
    MulNonNegative(n, w);
    SpanIsProduct(n, w);
    assert mip.GetSizeOf() == Span(n, w);
    var mipData := new byte[mip.GetSizeOf()];
    if format == RGBA8 {
      EncodeRgba8Identity(data, n);
      mip.SetData(data);
      return Some(mip);
    }
    var encoded := EncodePixels(format, data, n, mipData);
    assert encoded[..Span(n, w)] == encoded;
    mip.SetData(encoded);
    return Some(mip);
  }

  /** The pixel loops of `from_rgba`: fills `mipData`, one encoded pixel after another. */
  method EncodePixels(format: Format, data: seq<byte>, n: nat, mipData: array<byte>) returns (encoded: seq<byte>)
    requires IsIntegerEncodable(format) && 4 * n <= |data| && mipData.Length == Span(n, BytesPerPixel(format))
    modifies mipData
    ensures encoded == mipData[..] == EncodeImage(format, data, n)
  {
    var w := BytesPerPixel(format);
    ghost var image := EncodeImage(format, data, n);
    var i, offset := 0, 0;
    while i < n
      invariant 0 <= i <= n && offset == Span(i, w)
      invariant offset <= mipData.Length
      invariant forall k :: 0 <= k < offset ==> mipData[k] == image[k]
    {
      EncodedPixelBytes(format, data, n, i);
      var px := EncodePixel(format, Quad(data, i));
      forall k | offset <= k < offset + w {
        mipData[k] := px[k - offset];
      }
      i, offset := i + 1, offset + w;
    }
    SpanMonotone(i, n, w);
    encoded := mipData[..];
    assert encoded == image;
  }

  /** The bytes of pixel `i` of an encoded image, by position. */
  lemma EncodedPixelBytes(format: Format, data: seq<byte>, n: nat, i: nat)
    requires IsIntegerEncodable(format) && 4 * n <= |data| && i < n
    ensures var w := BytesPerPixel(format);
      Span(i + 1, w) <= Span(n, w) &&
      forall k :: Span(i, w) <= k < Span(i, w) + w ==>
        EncodePixel(format, Quad(data, i))[k - Span(i, w)] == EncodeImage(format, data, n)[k]
  {
    EncodeImagePixel(format, data, n, i);
  }

  /** `EncodeImage` of an RGBA buffer into RGBA8 is that buffer. */
  lemma {:induction false} EncodeRgba8Identity(data: seq<byte>, n: nat)
    requires 4 * n <= |data|
    ensures EncodeImage(RGBA8, data, n) == data[..4 * n]
  {
    if n > 0 {
      EncodeRgba8Identity(data, n - 1);
      assert data[..4 * n] == data[..4 * (n - 1)] + data[4 * (n - 1)..4 * n];
    }
  }

  /**
   * The length, in 16-bit pixels, of the view the RGB5, RGB5A1 and RGBA4 branches of
   * `rgba` lay over the data as written: `width * height * 2`, twice the pixel count.
   */
  function View16PixelsAsWritten(width: i32, height: i32): (k: nat)
    requires 0 <= width && 0 <= height
  {
    PixelCount(width, height) * 2
  }

  /**
   * As written, the 16-bit branches of `rgba` overrun for every non-empty mipmap: the
   * view spans twice the bytes the mipmap's data holds, so pixel `width * height` is read
   * past the data (undefined behaviour), and the loop's output indices, four per view
   * pixel, run past the `4 * width * height` bytes of the output buffer, whose bounds
   * check panics at that pixel.
   */
  lemma View16Overrun(width: i32, height: i32, format: Format)
    requires 1 <= width && 1 <= height && format in {RGB5, RGB5A1, RGBA4}
    ensures 4 * View16PixelsAsWritten(width, height) > 4 * PixelCount(width, height)
    ensures 2 * View16PixelsAsWritten(width, height) > GetSize(format, width as int, height as int)
    ensures 2 * View16PixelsAsWritten(width, height) == 2 * GetSize(format, width as int, height as int)
  {
    MulAtLeast(width as int, height as int);
  }

  /**
   * `Texture::is_ycbcr`: a single array of exactly two mipmaps, both BC5. The two
   * requested mipmaps are the first two of the flat mipmap vector.
   */
  function IsYcbcr(t: Texture): (b: bool)
    reads t
    requires t.arraySize == 1 && t.mipmapsCount == 2 ==> |t.mipmaps| >= 2
    ensures b <==> t.arraySize == 1 && t.mipmapsCount == 2 && t.mipmaps[0].format == BC5 && t.mipmaps[1].format == BC5
  {
    if t.GetArraySize() == 1 && t.GetMipmapsCount() == 2 then
      var first := t.GetMipmap(0, 0).offset;
      var second := t.GetMipmap(0, 1).offset;
      t.mipmaps[first].format == BC5 && t.mipmaps[second].format == BC5
    else
      false
  }

  /** A 64-bit `usize` made from an `i32` by `as usize`: negative values wrap. */
  function AsUsize(x: i32): nat {
    if x >= 0 then x as nat else x as int + 0x1_0000_0000_0000_0000
  }

  /** The mipmaps of array 0 that `get_mipmap (0, index)` finds for `index` from 0. */
  function YieldCount(arraySize: i32, mipmapsCount: i32): nat {
    if arraySize >= 1 && mipmapsCount >= 1 then mipmapsCount as nat else 0
  }

  /** The `len` of `Texture::mipmaps`: the wrapped `i32` product, as a `usize`. */
  function IterLen(arraySize: i32, mipmapsCount: i32): nat {
    AsUsize(Wrap32(arraySize as int * mipmapsCount as int))
  }

  /** How many mipmaps draining the iterator yields: it stops at `len` or at the first null. */
  function Yielded(arraySize: i32, mipmapsCount: i32): nat {
    var len, found := IterLen(arraySize, mipmapsCount), YieldCount(arraySize, mipmapsCount);
    if len < found then len else found
  }

  /** When the product fits in `i32`, `len` never cuts the walk short: every mipmap of array 0 is yielded. */
  lemma YieldedWithoutWrap(arraySize: i32, mipmapsCount: i32)
    requires -0x8000_0000 <= arraySize as int * mipmapsCount as int < 0x8000_0000
    ensures Yielded(arraySize, mipmapsCount) == YieldCount(arraySize, mipmapsCount)
  {
    if arraySize >= 1 && mipmapsCount >= 1 {
      MulAtLeast(arraySize as int, mipmapsCount as int);
    }
  }

  /**
   * A product that wraps to 0 makes `len` 0: 65536 arrays of 65536 mipmaps yield none,
   * though every mipmap of array 0 exists.
   */
  lemma WrappedLenYieldsNone()
    ensures YieldCount(0x1_0000, 0x1_0000) == 0x1_0000
    ensures Yielded(0x1_0000, 0x1_0000) == 0
  {
    assert Wrap32(0x1_0000 * 0x1_0000) == 0;
  }

  /**
   * `MipmapIterator`: walks `get_mipmap (0, index)` for `index` from 0, stopping at `len`
   * or at the first null.
   */
  class MipmapIterator {
    const texture: Texture
    const len: nat
    var index: nat

    /** The iterator never passes the last mipmap of array 0 it produced. */
    predicate Valid()
      reads this, texture
    {
      index <= len && index <= YieldCount(texture.arraySize, texture.mipmapsCount)
    }

    /**
     * `Texture::mipmaps`: `len` is the `i32` product `array_size * mipmaps_count`, cast
     * to `usize`; a product out of `i32` range wraps, as in a release build.
     */
    constructor (t: Texture)
      ensures texture == t && index == 0 && Valid()
      ensures len == IterLen(t.arraySize, t.mipmapsCount)
    {
      texture := t;
      index := 0;
      len := AsUsize(Wrap32(t.arraySize as int * t.mipmapsCount as int));
    }

    /** `MipmapIterator::next`: the position of the next mipmap, or None. */
    method Next() returns (r: Option<int>)
      requires Valid()
      modifies this
      ensures Valid()
      ensures old(index) == len ==> r.None? && index == old(index)
      ensures old(index) < len ==> texture.GetMipmap(0, old(index) as i32) == if r.Some? then At(r.value) else Null
      ensures index == if r.Some? then old(index) + 1 else old(index)
    {
      if index == len {
        return None;
      }
      var p := texture.GetMipmap(0, index as i32);
      if p.Null? {
        return None;
      }
      r := Some(p.offset);
      index := index + 1;
    }
  }

  lemma MulAtLeast(a: int, b: int)
    requires 1 <= a && 1 <= b
    ensures b <= a * b
  {
    assert a * b - b == (a - 1) * b;
    MulNonNegative(a - 1, b);
  }

  /**
   * Draining `Texture::mipmaps`: the positions 0, 1, ... of the mipmaps of array 0, as
   * many as `Yielded` says: `mipmaps_count` of them (none when either count is below 1)
   * unless the wrapped `len` stops the walk first.
   */
  method CollectMipmaps(t: Texture) returns (positions: seq<int>)
    ensures |positions| == Yielded(t.arraySize, t.mipmapsCount)
    ensures forall i :: 0 <= i < |positions| ==> positions[i] == i
  {
    var it := new MipmapIterator(t);
    positions := [];
    while true
      invariant it.texture == t && it.Valid()
      invariant it.len == IterLen(t.arraySize, t.mipmapsCount)
      invariant |positions| == it.index
      invariant forall i :: 0 <= i < |positions| ==> positions[i] == i
      decreases it.len - it.index
    {
      var r := it.Next();
      if r.None? {
        break;
      }
      positions := positions + [r.value];
    }
  }
}
