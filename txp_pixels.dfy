/**
 * The 16-bit pixel layouts of the texture formats (`Rgb565`, `Rgba5551`, `Rgba4444`) and
 * the per-pixel conversions between each uncompressed format and 8-bit RGBA.
 * Bit fields are allocated from the least significant bit in declaration order; a 16-bit
 * pixel is stored low byte first.
 */
module TxpPixels {
  import opened Ints
  import opened TxpBridge

  // ---- Rgb565: r in bits 0-4, g in bits 5-10, b in bits 11-15

  function PackRgb565(r: nat, g: nat, b: nat): (bits: u16)
    requires r < 32 && g < 64 && b < 32
  {
    (r + g * 32 + b * 2048) as u16
  }

  function Rgb565R(bits: u16): nat { bits as int % 32 }
  function Rgb565G(bits: u16): nat { bits as int / 32 % 64 }
  function Rgb565B(bits: u16): nat { bits as int / 2048 }

  lemma {:induction false} Rgb565Fields(r: nat, g: nat, b: nat)
    requires r < 32 && g < 64 && b < 32
    ensures Rgb565R(PackRgb565(r, g, b)) == r
    ensures Rgb565G(PackRgb565(r, g, b)) == g
    ensures Rgb565B(PackRgb565(r, g, b)) == b
  {
    var x := r + g * 32 + b * 2048;
    assert PackRgb565(r, g, b) as int == x;
    assert x / 32 == g + b * 64;
  }

  // ---- Rgba5551: r in bits 0-4, g in 5-9, b in 10-14, a in bit 15

  function PackRgba5551(r: nat, g: nat, b: nat, a: nat): (bits: u16)
    requires r < 32 && g < 32 && b < 32 && a < 2
  {
    (r + g * 32 + b * 1024 + a * 32768) as u16
  }

  function Rgba5551R(bits: u16): nat { bits as int % 32 }
  function Rgba5551G(bits: u16): nat { bits as int / 32 % 32 }
  function Rgba5551B(bits: u16): nat { bits as int / 1024 % 32 }
  function Rgba5551A(bits: u16): nat { bits as int / 32768 }

  lemma {:induction false} Rgba5551Fields(r: nat, g: nat, b: nat, a: nat)
    requires r < 32 && g < 32 && b < 32 && a < 2
    ensures Rgba5551R(PackRgba5551(r, g, b, a)) == r
    ensures Rgba5551G(PackRgba5551(r, g, b, a)) == g
    ensures Rgba5551B(PackRgba5551(r, g, b, a)) == b
    ensures Rgba5551A(PackRgba5551(r, g, b, a)) == a
  {
    var x := r + g * 32 + b * 1024 + a * 32768;
    assert PackRgba5551(r, g, b, a) as int == x;
    assert x / 32 == g + b * 32 + a * 1024;
    assert x / 1024 == b + a * 32;
  }

  // ---- Rgba4444: r in bits 0-3, g in 4-7, b in 8-11, a in 12-15

  function PackRgba4444(r: nat, g: nat, b: nat, a: nat): (bits: u16)
    requires r < 16 && g < 16 && b < 16 && a < 16
  {
    (r + g * 16 + b * 256 + a * 4096) as u16
  }

  function Rgba4444R(bits: u16): nat { bits as int % 16 }
  function Rgba4444G(bits: u16): nat { bits as int / 16 % 16 }
  function Rgba4444B(bits: u16): nat { bits as int / 256 % 16 }
  function Rgba4444A(bits: u16): nat { bits as int / 4096 }

  lemma {:induction false} Rgba4444Fields(r: nat, g: nat, b: nat, a: nat)
    requires r < 16 && g < 16 && b < 16 && a < 16
    ensures Rgba4444R(PackRgba4444(r, g, b, a)) == r
    ensures Rgba4444G(PackRgba4444(r, g, b, a)) == g
    ensures Rgba4444B(PackRgba4444(r, g, b, a)) == b
    ensures Rgba4444A(PackRgba4444(r, g, b, a)) == a
  {
    var x := r + g * 16 + b * 256 + a * 4096;
    assert PackRgba4444(r, g, b, a) as int == x;
    assert x / 16 == g + b * 16 + a * 256;
    assert x / 256 == b + a * 16;
  }

  // ---- 16-bit pixels in a byte buffer

  /** The two bytes `from_rgba` writes for a 16-bit pixel: `(bits >> 0) as u8`, `(bits >> 8) as u8`. */
  function LowHigh(bits: u16): seq<byte> {
    [(bits as int % 256) as byte, (bits as int / 256) as byte]
  }

  /** A 16-bit pixel read from its two bytes on a little-endian host. */
  function Pixel16(px: seq<byte>): u16
    requires |px| == 2
  {
    (px[0] as int + 256 * px[1] as int) as u16
  }

  lemma LowHighReadBack(bits: u16)
    ensures Pixel16(LowHigh(bits)) == bits
  {
  }

  // ---- Per-pixel conversions

  /** The four RGBA bytes that `rgba` writes for one pixel `px` of an uncompressed mipmap. */
  function DecodePixel(format: Format, px: seq<byte>): (out: seq<byte>)
    requires !IsBlockCompressed(format) && |px| == BytesPerPixel(format)
    ensures |out| == 4
  {
    match format
    case A8 => [255, 255, 255, px[0]]
    case RGB8 => [px[0], px[1], px[2], 255]
    case RGBA8 => px
    case RGB5 =>
      var p := Pixel16(px);
      [(Rgb565R(p) * 8) as byte, (Rgb565G(p) * 4) as byte, (Rgb565B(p) * 8) as byte, 255]
    case RGB5A1 =>
      var p := Pixel16(px);
      [(Rgba5551R(p) * 8) as byte, (Rgba5551G(p) * 4) as byte, (Rgba5551B(p) * 8) as byte,
       (Rgba5551A(p) * 255) as byte]
    case RGBA4 =>
      var p := Pixel16(px);
      [(Rgba4444R(p) * 16) as byte, (Rgba4444G(p) * 16) as byte, (Rgba4444B(p) * 16) as byte,
       (Rgba4444A(p) * 16) as byte]
    case L8 => [px[0], px[0], px[0], 255]
    case L8A8 => [px[0], px[0], px[0], px[1]]
  }

  /** The formats `from_rgba` encodes without floating point or the block codec. */
  predicate IsIntegerEncodable(format: Format) {
    format in {A8, RGB8, RGBA8, RGB5, RGB5A1, RGBA4}
  }

  /** The bytes that `from_rgba` writes for one RGBA pixel `px`. */
  function EncodePixel(format: Format, px: seq<byte>): (out: seq<byte>)
    requires IsIntegerEncodable(format) && |px| == 4
    ensures |out| == BytesPerPixel(format)
  {
    match format
    case A8 => [px[3]]
    case RGB8 => [px[0], px[1], px[2]]
    case RGBA8 => px
    case RGB5 => LowHigh(PackRgb565(px[0] as nat / 8, px[1] as nat / 4, px[2] as nat / 8))
    case RGB5A1 => LowHigh(PackRgba5551(px[0] as nat / 8, px[1] as nat / 8, px[2] as nat / 8, px[3] as nat / 255))
    case RGBA4 => LowHigh(PackRgba4444(px[0] as nat / 16, px[1] as nat / 16, px[2] as nat / 16, px[3] as nat / 16))
  }

  /** A byte rounded down to a multiple of `m`. */
  function RoundDown(x: byte, m: nat): byte
    requires 1 <= m
  {
    (x as int / m * m) as byte
  }

  lemma Rgb565RoundTrip(px: seq<byte>)
    requires |px| == 4
    ensures DecodePixel(RGB5, EncodePixel(RGB5, px)) ==
      [RoundDown(px[0], 8), RoundDown(px[1], 4), RoundDown(px[2], 8), 255]
  {
    var r, g, b := px[0] as nat / 8, px[1] as nat / 4, px[2] as nat / 8;
    var bits := PackRgb565(r, g, b);
    assert EncodePixel(RGB5, px) == LowHigh(bits);
    LowHighReadBack(bits);
    Rgb565Fields(r, g, b);
  }

  lemma Rgba5551RoundTrip(px: seq<byte>)
    requires |px| == 4
    ensures DecodePixel(RGB5A1, EncodePixel(RGB5A1, px)) ==
      [RoundDown(px[0], 8), (px[1] as int / 8 * 4) as byte, RoundDown(px[2], 8), if px[3] == 255 then 255 else 0]
  {
    var r, g, b, a := px[0] as nat / 8, px[1] as nat / 8, px[2] as nat / 8, px[3] as nat / 255;
    assert a == if px[3] == 255 then 1 else 0;
    var bits := PackRgba5551(r, g, b, a);
    assert EncodePixel(RGB5A1, px) == LowHigh(bits);
    LowHighReadBack(bits);
    Rgba5551Fields(r, g, b, a);
    var out := DecodePixel(RGB5A1, LowHigh(bits));
    assert out[0] == (r * 8) as byte && out[1] == (g * 4) as byte;
    assert out[2] == (b * 8) as byte && out[3] == (a * 255) as byte;
  }

  lemma Rgba4444RoundTrip(px: seq<byte>)
    requires |px| == 4
    ensures DecodePixel(RGBA4, EncodePixel(RGBA4, px)) ==
      [RoundDown(px[0], 16), RoundDown(px[1], 16), RoundDown(px[2], 16), RoundDown(px[3], 16)]
  {
    var r, g, b, a := px[0] as nat / 16, px[1] as nat / 16, px[2] as nat / 16, px[3] as nat / 16;
    var bits := PackRgba4444(r, g, b, a);
    assert EncodePixel(RGBA4, px) == LowHigh(bits);
    LowHighReadBack(bits);
    Rgba4444Fields(r, g, b, a);
  }

  /**
   * Decoding what `from_rgba` encoded: A8 keeps only alpha, RGB8 drops it, RGBA8 is exact,
   * RGB565 clears the low 3, 2 and 3 bits of red, green and blue, RGBA4 clears every
   * channel's low nibble, and RGB5A1 brings green back as `(g >> 3) << 2` and alpha as
   * 255 exactly when it was 255 (0 otherwise).
   */
  lemma {:induction false} PixelRoundTrip(format: Format, px: seq<byte>)
    requires IsIntegerEncodable(format) && |px| == 4
    ensures format == A8 ==> DecodePixel(format, EncodePixel(format, px)) == [255, 255, 255, px[3]]
    ensures format == RGB8 ==> DecodePixel(format, EncodePixel(format, px)) == [px[0], px[1], px[2], 255]
    ensures format == RGBA8 ==> DecodePixel(format, EncodePixel(format, px)) == px
    ensures format == RGB5 ==>
      DecodePixel(format, EncodePixel(format, px)) == [RoundDown(px[0], 8), RoundDown(px[1], 4), RoundDown(px[2], 8), 255]
    ensures format == RGBA4 ==>
      DecodePixel(format, EncodePixel(format, px)) == [RoundDown(px[0], 16), RoundDown(px[1], 16), RoundDown(px[2], 16), RoundDown(px[3], 16)]
    ensures format == RGB5A1 ==>
      DecodePixel(format, EncodePixel(format, px)) ==
        [RoundDown(px[0], 8), (px[1] as int / 8 * 4) as byte, RoundDown(px[2], 8), if px[3] == 255 then 255 else 0]
  {
    match format
    case RGB5 => Rgb565RoundTrip(px);
    case RGB5A1 => Rgba5551RoundTrip(px);
    case RGBA4 => Rgba4444RoundTrip(px);
    case _ =>
  }

  /** RGB5A1 loses green: 0x08 comes back as 0x04, unlike RGB565 which keeps it. */
  lemma Rgb5a1GreenLoss()
    ensures DecodePixel(RGB5A1, EncodePixel(RGB5A1, [0, 8, 0, 255])) == [0, 4, 0, 255]
    ensures DecodePixel(RGB5, EncodePixel(RGB5, [0, 8, 0, 255])) == [0, 8, 0, 255]
  {
    Rgba5551RoundTrip([0, 8, 0, 255]);
    assert RoundDown(0, 8) == 0 && (8 / 8 * 4) as byte == 4;
    Rgb565RoundTrip([0, 8, 0, 255]);
    assert RoundDown(8, 4) == 8;
  }

  // ---- Whole images

  /**
   * `n * w`, the bytes of `n` pixels of `w` bytes each, written as repeated addition so
   * that pixel offsets stay linear.
   */
  function Span(n: nat, w: nat): nat {
    if n == 0 then 0 else Span(n - 1, w) + w
  }

  lemma {:induction false} SpanIsProduct(n: nat, w: nat)
    ensures Span(n, w) == n * w
  {
    if n > 0 {
      SpanIsProduct(n - 1, w);
    }
  }

  lemma {:induction false} SpanMonotone(a: nat, b: nat, w: nat)
    requires a <= b
    ensures Span(a, w) <= Span(b, w)
    decreases b - a
  {
    if a < b {
      SpanMonotone(a + 1, b, w);
    }
  }

  /** Pixel `i` of a buffer of `w`-byte pixels. */
  function Chunk(s: seq<byte>, w: nat, i: nat): (c: seq<byte>)
    requires Span(i + 1, w) <= |s|
    ensures |c| == w
  {
    s[Span(i, w)..Span(i + 1, w)]
  }

  /** RGBA pixel `i` of an 8-bit RGBA buffer. */
  function Quad(s: seq<byte>, i: nat): (c: seq<byte>)
    requires 4 * i + 4 <= |s|
    ensures |c| == 4
  {
    s[4 * i..4 * i + 4]
  }

  /** The RGBA buffer `rgba` fills for the first `n` pixels of `data`, pixel after pixel. */
  function DecodeImage(format: Format, data: seq<byte>, n: nat): (out: seq<byte>)
    requires !IsBlockCompressed(format) && Span(n, BytesPerPixel(format)) <= |data|
    ensures |out| == 4 * n
  {
    if n == 0 then [] else DecodeImage(format, data, n - 1) + DecodePixel(format, Chunk(data, BytesPerPixel(format), n - 1))
  }

  /** The buffer `from_rgba` fills for the first `n` pixels of the RGBA buffer `rgba`. */
  function EncodeImage(format: Format, rgba: seq<byte>, n: nat): (out: seq<byte>)
    requires IsIntegerEncodable(format) && 4 * n <= |rgba|
    ensures |out| == Span(n, BytesPerPixel(format))
  {
    if n == 0 then [] else EncodeImage(format, rgba, n - 1) + EncodePixel(format, Quad(rgba, n - 1))
  }

  /** Pixel `i` of a decoded image is the decoding of pixel `i` of the source buffer. */
  lemma {:induction false} DecodeImagePixel(format: Format, data: seq<byte>, n: nat, i: nat)
    requires !IsBlockCompressed(format) && Span(n, BytesPerPixel(format)) <= |data| && i < n
    ensures Span(i + 1, BytesPerPixel(format)) <= |data|
    ensures Quad(DecodeImage(format, data, n), i) == DecodePixel(format, Chunk(data, BytesPerPixel(format), i))
  {
    var w := BytesPerPixel(format);
    SpanMonotone(i + 1, n, w);
    var prefix := DecodeImage(format, data, n - 1);
    var last := DecodePixel(format, Chunk(data, w, n - 1));
    assert DecodeImage(format, data, n) == prefix + last;
    if i < n - 1 {
      DecodeImagePixel(format, data, n - 1, i);
      assert Quad(prefix + last, i) == Quad(prefix, i);
    } else {
      assert Quad(prefix + last, i) == last;
    }
  }

  /** Pixel `i` of an encoded image is the encoding of RGBA pixel `i`. */
  lemma {:induction false} EncodeImagePixel(format: Format, rgba: seq<byte>, n: nat, i: nat)
    requires IsIntegerEncodable(format) && 4 * n <= |rgba| && i < n
    ensures Span(i + 1, BytesPerPixel(format)) <= |EncodeImage(format, rgba, n)|
    ensures Chunk(EncodeImage(format, rgba, n), BytesPerPixel(format), i) == EncodePixel(format, Quad(rgba, i))
  {
    var w := BytesPerPixel(format);
    SpanMonotone(i + 1, n, w);
    var prefix := EncodeImage(format, rgba, n - 1);
    var last := EncodePixel(format, Quad(rgba, n - 1));
    assert EncodeImage(format, rgba, n) == prefix + last;
    if i < n - 1 {
      EncodeImagePixel(format, rgba, n - 1, i);
      ChunkAppend(prefix, last, w, i);
    } else {
      ChunkLast(prefix, last, w, n - 1);
    }
  }

  lemma ChunkAppend(x: seq<byte>, y: seq<byte>, w: nat, i: nat)
    requires Span(i + 1, w) <= |x|
    ensures Chunk(x + y, w, i) == Chunk(x, w, i)
  {
  }

  lemma ChunkLast(x: seq<byte>, y: seq<byte>, w: nat, k: nat)
    requires |x| == Span(k, w) && |y| == w
    ensures Chunk(x + y, w, k) == y
  {
  }

  /**
   * `rgba` after `from_rgba`: every pixel comes back as the one-pixel round trip of
   * `PixelRoundTrip` describes.
   */
  lemma ImageRoundTrip(format: Format, rgba: seq<byte>, n: nat)
    requires IsIntegerEncodable(format) && 4 * n <= |rgba|
    ensures forall i :: 0 <= i < n ==>
      Quad(DecodeImage(format, EncodeImage(format, rgba, n), n), i) ==
      DecodePixel(format, EncodePixel(format, Quad(rgba, i)))
  {
    var enc := EncodeImage(format, rgba, n);
    forall i | 0 <= i < n
      ensures Quad(DecodeImage(format, enc, n), i) == DecodePixel(format, EncodePixel(format, Quad(rgba, i)))
    {
      PixelOfRoundTrip(format, rgba, n, i);
    }
  }

  lemma PixelOfRoundTrip(format: Format, rgba: seq<byte>, n: nat, i: nat)
    requires IsIntegerEncodable(format) && 4 * n <= |rgba| && i < n
    ensures Quad(DecodeImage(format, EncodeImage(format, rgba, n), n), i) ==
      DecodePixel(format, EncodePixel(format, Quad(rgba, i)))
  {
    var enc := EncodeImage(format, rgba, n);
    EncodeImagePixel(format, rgba, n, i);
    DecodeImagePixel(format, enc, n, i);
  }

  /** RGBA8 images come back unchanged. */
  lemma Rgba8ImageRoundTrip(rgba: seq<byte>, n: nat)
    requires 4 * n <= |rgba|
    ensures DecodeImage(RGBA8, EncodeImage(RGBA8, rgba, n), n) == rgba[..4 * n]
  {
    var dec := DecodeImage(RGBA8, EncodeImage(RGBA8, rgba, n), n);
    forall p | 0 <= p < 4 * n
      ensures dec[p] == rgba[p]
    {
      var i := p / 4;
      PixelOfRoundTrip(RGBA8, rgba, n, i);
      assert Quad(dec, i) == Quad(rgba, i);
      assert dec[p] == Quad(dec, i)[p % 4];
    }
  }
}
