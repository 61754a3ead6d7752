/** The sprite resolution modes and their screen resolutions (`ResolutionMode` of `src/spr.rs`). */
module SprResolution {
  import opened Ints
  import opened Wrappers

  datatype ResolutionMode =
    | QVGA | VGA | SVGA | XGA | SXGA | SXGAPlus | UXGA | WVGA | WSVGA | WXGA | FWXGA | WUXGA
    | WQXGA | HD | FHD | UHD | Res3KatUHD | Res3K | QuadHD | WQVGA | QuarterHD | XGAPlus
    | Res1176x664 | Res1200x960 | WXGA1280x900 | SXGAMinus | FWXGA1366x768 | WXGAPlus | HDPlus
    | WSXGA | WSXGAPlus | Res1920x1440 | QWXGA

  /** The `#[repr(u32)]` discriminant of a mode: 0x00 to 0x20 in declaration order. */
  function Code(m: ResolutionMode): (c: u32)
    ensures c <= 0x20
  {
    match m
    case QVGA => 0x00 case VGA => 0x01 case SVGA => 0x02 case XGA => 0x03
    case SXGA => 0x04 case SXGAPlus => 0x05 case UXGA => 0x06 case WVGA => 0x07
    case WSVGA => 0x08 case WXGA => 0x09 case FWXGA => 0x0A case WUXGA => 0x0B
    case WQXGA => 0x0C case HD => 0x0D case FHD => 0x0E case UHD => 0x0F
    case Res3KatUHD => 0x10 case Res3K => 0x11 case QuadHD => 0x12 case WQVGA => 0x13
    case QuarterHD => 0x14 case XGAPlus => 0x15 case Res1176x664 => 0x16 case Res1200x960 => 0x17
    case WXGA1280x900 => 0x18 case SXGAMinus => 0x19 case FWXGA1366x768 => 0x1A case WXGAPlus => 0x1B
    case HDPlus => 0x1C case WSXGA => 0x1D case WSXGAPlus => 0x1E case Res1920x1440 => 0x1F
    case QWXGA => 0x20
  }

  /** The mode with a discriminant, if any. */
  function FromCode(c: u32): (r: Option<ResolutionMode>)
    ensures r.Some? <==> c <= 0x20
  {
    match c
    case 0x00 => Some(QVGA) case 0x01 => Some(VGA) case 0x02 => Some(SVGA) case 0x03 => Some(XGA)
    case 0x04 => Some(SXGA) case 0x05 => Some(SXGAPlus) case 0x06 => Some(UXGA) case 0x07 => Some(WVGA)
    case 0x08 => Some(WSVGA) case 0x09 => Some(WXGA) case 0x0A => Some(FWXGA) case 0x0B => Some(WUXGA)
    case 0x0C => Some(WQXGA) case 0x0D => Some(HD) case 0x0E => Some(FHD) case 0x0F => Some(UHD)
    case 0x10 => Some(Res3KatUHD) case 0x11 => Some(Res3K) case 0x12 => Some(QuadHD) case 0x13 => Some(WQVGA)
    case 0x14 => Some(QuarterHD) case 0x15 => Some(XGAPlus) case 0x16 => Some(Res1176x664) case 0x17 => Some(Res1200x960)
    case 0x18 => Some(WXGA1280x900) case 0x19 => Some(SXGAMinus) case 0x1A => Some(FWXGA1366x768) case 0x1B => Some(WXGAPlus)
    case 0x1C => Some(HDPlus) case 0x1D => Some(WSXGA) case 0x1E => Some(WSXGAPlus) case 0x1F => Some(Res1920x1440)
    case 0x20 => Some(QWXGA)
    case _ => None
  }

  /** The discriminants identify the modes: decoding a mode's code gives the mode back. */
  lemma CodeRoundTrip(m: ResolutionMode)
    ensures FromCode(Code(m)) == Some(m)
  {
  }

  /** Every discriminant in range comes from its own mode. */
  lemma {:induction false} FromCodeRoundTrip(c: u32)
    requires c <= 0x20
    ensures Code(FromCode(c).value) == c
  {
  }

  /** `ResolutionMode::resolution`: the (width, height) in pixels of every mode. */
  function Resolution(m: ResolutionMode): (r: (u32, u32))
    ensures 0 < r.1 < r.0
  {
    match m
    case QVGA => (320, 240)
    case VGA => (640, 480)
    case SVGA => (800, 600)
    case XGA => (1024, 768)
    case SXGA => (1280, 1024)
    case SXGAPlus => (1400, 1050)
    case UXGA => (1600, 1200)
    case WVGA => (800, 480)
    case WSVGA => (1024, 600)
    case WXGA => (1280, 768)
    case FWXGA => (1360, 768)
    case WUXGA => (1920, 1200)
    case WQXGA => (2560, 1536)
    case HD => (1280, 720)
    case FHD => (1920, 1080)
    case UHD => (3840, 2160)
    case Res3KatUHD => (3840, 2160)
    case Res3K => (2880, 1620)
    case QuadHD => (2560, 1440)
    case WQVGA => (480, 272)
    case QuarterHD => (960, 544)
    case XGAPlus => (1152, 864)
    case Res1176x664 => (1176, 664)
    case Res1200x960 => (1200, 960)
    case WXGA1280x900 => (1280, 900)
    case SXGAMinus => (1280, 960)
    case FWXGA1366x768 => (1366, 768)
    case WXGAPlus => (1440, 900)
    case HDPlus => (1600, 900)
    case WSXGA => (1600, 1024)
    case WSXGAPlus => (1680, 1050)
    case Res1920x1440 => (1920, 1440)
    case QWXGA => (2048, 1152)
  }

  /** The mode a resolution names, UHD standing for its 3840x2160 twin. */
  function ModeOf(width: u32, height: u32): Option<ResolutionMode> {
    match (width, height)
    case (320, 240) => Some(QVGA)
    case (640, 480) => Some(VGA)
    case (800, 600) => Some(SVGA)
    case (1024, 768) => Some(XGA)
    case (1280, 1024) => Some(SXGA)
    case (1400, 1050) => Some(SXGAPlus)
    case (1600, 1200) => Some(UXGA)
    case (800, 480) => Some(WVGA)
    case (1024, 600) => Some(WSVGA)
    case (1280, 768) => Some(WXGA)
    case (1360, 768) => Some(FWXGA)
    case (1920, 1200) => Some(WUXGA)
    case (2560, 1536) => Some(WQXGA)
    case (1280, 720) => Some(HD)
    case (1920, 1080) => Some(FHD)
    case (3840, 2160) => Some(UHD)
    case (2880, 1620) => Some(Res3K)
    case (2560, 1440) => Some(QuadHD)
    case (480, 272) => Some(WQVGA)
    case (960, 544) => Some(QuarterHD)
    case (1152, 864) => Some(XGAPlus)
    case (1176, 664) => Some(Res1176x664)
    case (1200, 960) => Some(Res1200x960)
    case (1280, 900) => Some(WXGA1280x900)
    case (1280, 960) => Some(SXGAMinus)
    case (1366, 768) => Some(FWXGA1366x768)
    case (1440, 900) => Some(WXGAPlus)
    case (1600, 900) => Some(HDPlus)
    case (1600, 1024) => Some(WSXGA)
    case (1680, 1050) => Some(WSXGAPlus)
    case (1920, 1440) => Some(Res1920x1440)
    case (2048, 1152) => Some(QWXGA)
    case _ => None
  }

  /** Every mode but `Res3KatUHD` is recovered from its resolution. */
  lemma ModeOfResolution(m: ResolutionMode)
    ensures ModeOf(Resolution(m).0, Resolution(m).1) == Some(if m == Res3KatUHD then UHD else m)
  {
  }

  /** The table is not injective: UHD and Res3KatUHD share 3840x2160. */
  lemma ResolutionNotInjective()
    ensures UHD != Res3KatUHD && Resolution(UHD) == Resolution(Res3KatUHD) == (3840, 2160)
  {
  }

  /** That pair is the only collision: any two modes with one resolution are equal or are UHD and Res3KatUHD. */
  lemma {:induction false} ResolutionCollision(m: ResolutionMode, n: ResolutionMode)
    requires Resolution(m) == Resolution(n)
    ensures m == n || {m, n} == {UHD, Res3KatUHD}
  {
    ModeOfResolution(m);
    ModeOfResolution(n);
  }
}
