/** Unity's `GraphicsFormat` enum, restricted to
    the values the texture tools name plus a few real values that none of
    their tables lists, together with a structural description of each
    format that does not depend on any tool's table. */
module Formats {
  import opened Strings

  /** An optional value; `Nothing` stands for C#'s `null`. */
  datatype Option<T> = Nothing | Some(value: T)

  datatype GraphicsFormat =
    | None
    | R8_SRGB | R8_UNorm | R8_SNorm | R8_UInt | R8_SInt
    | R8G8_SRGB | R8G8_UNorm | R8G8_SNorm | R8G8_UInt | R8G8_SInt
    | R8G8B8_SRGB | R8G8B8_UNorm | R8G8B8_SNorm | R8G8B8_UInt | R8G8B8_SInt
    | B8G8R8_SRGB | B8G8R8_UNorm
    | R8G8B8A8_SRGB | R8G8B8A8_UNorm | R8G8B8A8_SNorm | R8G8B8A8_UInt | R8G8B8A8_SInt
    | B8G8R8A8_SRGB | B8G8R8A8_UNorm
    | R16_UNorm | R16_SNorm | R16_UInt | R16_SInt | R16_SFloat
    | R16G16_UNorm | R16G16_SNorm | R16G16_UInt | R16G16_SInt | R16G16_SFloat
    | R16G16B16A16_UNorm | R16G16B16A16_SNorm | R16G16B16A16_UInt | R16G16B16A16_SInt | R16G16B16A16_SFloat
    | R32_UInt | R32_SInt | R32_SFloat
    | R32G32_UInt | R32G32_SInt | R32G32_SFloat
    | R32G32B32_SFloat
    | R32G32B32A32_UInt | R32G32B32A32_SInt | R32G32B32A32_SFloat
    | RGBA_DXT1_SRGB | RGBA_DXT1_UNorm | RGBA_DXT5_SRGB | RGBA_DXT5_UNorm
    | RGB_BC6H_UFloat | RGB_BC6H_SFloat
    | RGBA_BC7_SRGB | RGBA_BC7_UNorm
    | RGB_ETC_UNorm | RGBA_ETC2_SRGB | RGBA_ETC2_UNorm
    | RGB_PVRTC_4Bpp_UNorm | RGBA_PVRTC_4Bpp_UNorm
    | RGBA_ASTC4X4_SRGB | RGBA_ASTC4X4_UNorm | RGBA_ASTC6X6_SRGB | RGBA_ASTC6X6_UNorm
    | RGBA_ASTC8X8_UNorm | RGBA_ASTC10X10_UNorm | RGBA_ASTC12X12_UNorm

  /** The texel layout a format name starts with: channel order and width for
      uncompressed formats, the codec and block size for compressed ones. */
  datatype Layout =
    | R8 | R8G8 | R8G8B8 | B8G8R8 | R8G8B8A8 | B8G8R8A8 | R16 | R16G16 | R16G16B16A16
    | R32 | R32G32 | R32G32B32 | R32G32B32A32 | RGBA_DXT1 | RGBA_DXT5 | RGB_BC6H
    | RGBA_BC7 | RGB_ETC | RGBA_ETC2 | RGB_PVRTC_4Bpp | RGBA_PVRTC_4Bpp | RGBA_ASTC4X4
    | RGBA_ASTC6X6 | RGBA_ASTC8X8 | RGBA_ASTC10X10 | RGBA_ASTC12X12

  /** How the values of the channels are interpreted; the last part of a
      format name. */
  datatype NumericKind = UNorm | SNorm | UInt | SInt | SFloat | UFloat | SRGB

  function LayoutOf(f: GraphicsFormat): Layout
    requires !f.None?
  {
    match f
    case R8_SRGB => R8
    case R8_UNorm => R8
    case R8_SNorm => R8
    case R8_UInt => R8
    case R8_SInt => R8
    case R8G8_SRGB => R8G8
    case R8G8_UNorm => R8G8
    case R8G8_SNorm => R8G8
    case R8G8_UInt => R8G8
    case R8G8_SInt => R8G8
    case R8G8B8_SRGB => R8G8B8
    case R8G8B8_UNorm => R8G8B8
    case R8G8B8_SNorm => R8G8B8
    case R8G8B8_UInt => R8G8B8
    case R8G8B8_SInt => R8G8B8
    case B8G8R8_SRGB => B8G8R8
    case B8G8R8_UNorm => B8G8R8
    case R8G8B8A8_SRGB => R8G8B8A8
    case R8G8B8A8_UNorm => R8G8B8A8
    case R8G8B8A8_SNorm => R8G8B8A8
    case R8G8B8A8_UInt => R8G8B8A8
    case R8G8B8A8_SInt => R8G8B8A8
    case B8G8R8A8_SRGB => B8G8R8A8
    case B8G8R8A8_UNorm => B8G8R8A8
    case R16_UNorm => R16
    case R16_SNorm => R16
    case R16_UInt => R16
    case R16_SInt => R16
    case R16_SFloat => R16
    case R16G16_UNorm => R16G16
    case R16G16_SNorm => R16G16
    case R16G16_UInt => R16G16
    case R16G16_SInt => R16G16
    case R16G16_SFloat => R16G16
    case R16G16B16A16_UNorm => R16G16B16A16
    case R16G16B16A16_SNorm => R16G16B16A16
    case R16G16B16A16_UInt => R16G16B16A16
    case R16G16B16A16_SInt => R16G16B16A16
    case R16G16B16A16_SFloat => R16G16B16A16
    case R32_UInt => R32
    case R32_SInt => R32
    case R32_SFloat => R32
    case R32G32_UInt => R32G32
    case R32G32_SInt => R32G32
    case R32G32_SFloat => R32G32
    case R32G32B32_SFloat => R32G32B32
    case R32G32B32A32_UInt => R32G32B32A32
    case R32G32B32A32_SInt => R32G32B32A32
    case R32G32B32A32_SFloat => R32G32B32A32
    case RGBA_DXT1_SRGB => RGBA_DXT1
    case RGBA_DXT1_UNorm => RGBA_DXT1
    case RGBA_DXT5_SRGB => RGBA_DXT5
    case RGBA_DXT5_UNorm => RGBA_DXT5
    case RGB_BC6H_UFloat => RGB_BC6H
    case RGB_BC6H_SFloat => RGB_BC6H
    case RGBA_BC7_SRGB => RGBA_BC7
    case RGBA_BC7_UNorm => RGBA_BC7
    case RGB_ETC_UNorm => RGB_ETC
    case RGBA_ETC2_SRGB => RGBA_ETC2
    case RGBA_ETC2_UNorm => RGBA_ETC2
    case RGB_PVRTC_4Bpp_UNorm => RGB_PVRTC_4Bpp
    case RGBA_PVRTC_4Bpp_UNorm => RGBA_PVRTC_4Bpp
    case RGBA_ASTC4X4_SRGB => RGBA_ASTC4X4
    case RGBA_ASTC4X4_UNorm => RGBA_ASTC4X4
    case RGBA_ASTC6X6_SRGB => RGBA_ASTC6X6
    case RGBA_ASTC6X6_UNorm => RGBA_ASTC6X6
    case RGBA_ASTC8X8_UNorm => RGBA_ASTC8X8
    case RGBA_ASTC10X10_UNorm => RGBA_ASTC10X10
    case RGBA_ASTC12X12_UNorm => RGBA_ASTC12X12
  }

  function KindOf(f: GraphicsFormat): NumericKind
    requires !f.None?
  {
    match f
    case R8_SRGB => SRGB
    case R8_UNorm => UNorm
    case R8_SNorm => SNorm
    case R8_UInt => UInt
    case R8_SInt => SInt
    case R8G8_SRGB => SRGB
    case R8G8_UNorm => UNorm
    case R8G8_SNorm => SNorm
    case R8G8_UInt => UInt
    case R8G8_SInt => SInt
    case R8G8B8_SRGB => SRGB
    case R8G8B8_UNorm => UNorm
    case R8G8B8_SNorm => SNorm
    case R8G8B8_UInt => UInt
    case R8G8B8_SInt => SInt
    case B8G8R8_SRGB => SRGB
    case B8G8R8_UNorm => UNorm
    case R8G8B8A8_SRGB => SRGB
    case R8G8B8A8_UNorm => UNorm
    case R8G8B8A8_SNorm => SNorm
    case R8G8B8A8_UInt => UInt
    case R8G8B8A8_SInt => SInt
    case B8G8R8A8_SRGB => SRGB
    case B8G8R8A8_UNorm => UNorm
    case R16_UNorm => UNorm
    case R16_SNorm => SNorm
    case R16_UInt => UInt
    case R16_SInt => SInt
    case R16_SFloat => SFloat
    case R16G16_UNorm => UNorm
    case R16G16_SNorm => SNorm
    case R16G16_UInt => UInt
    case R16G16_SInt => SInt
    case R16G16_SFloat => SFloat
    case R16G16B16A16_UNorm => UNorm
    case R16G16B16A16_SNorm => SNorm
    case R16G16B16A16_UInt => UInt
    case R16G16B16A16_SInt => SInt
    case R16G16B16A16_SFloat => SFloat
    case R32_UInt => UInt
    case R32_SInt => SInt
    case R32_SFloat => SFloat
    case R32G32_UInt => UInt
    case R32G32_SInt => SInt
    case R32G32_SFloat => SFloat
    case R32G32B32_SFloat => SFloat
    case R32G32B32A32_UInt => UInt
    case R32G32B32A32_SInt => SInt
    case R32G32B32A32_SFloat => SFloat
    case RGBA_DXT1_SRGB => SRGB
    case RGBA_DXT1_UNorm => UNorm
    case RGBA_DXT5_SRGB => SRGB
    case RGBA_DXT5_UNorm => UNorm
    case RGB_BC6H_UFloat => UFloat
    case RGB_BC6H_SFloat => SFloat
    case RGBA_BC7_SRGB => SRGB
    case RGBA_BC7_UNorm => UNorm
    case RGB_ETC_UNorm => UNorm
    case RGBA_ETC2_SRGB => SRGB
    case RGBA_ETC2_UNorm => UNorm
    case RGB_PVRTC_4Bpp_UNorm => UNorm
    case RGBA_PVRTC_4Bpp_UNorm => UNorm
    case RGBA_ASTC4X4_SRGB => SRGB
    case RGBA_ASTC4X4_UNorm => UNorm
    case RGBA_ASTC6X6_SRGB => SRGB
    case RGBA_ASTC6X6_UNorm => UNorm
    case RGBA_ASTC8X8_UNorm => UNorm
    case RGBA_ASTC10X10_UNorm => UNorm
    case RGBA_ASTC12X12_UNorm => UNorm
  }

  /** Common beginning of the ASTC layout names, which go on with the block
      size. */
  const AstcPrefix: string := "RGBA_ASTC"

  function LayoutName(l: Layout): string {
    match l
    case R8 => "R8"
    case R8G8 => "R8G8"
    case R8G8B8 => "R8G8B8"
    case B8G8R8 => "B8G8R8"
    case R8G8B8A8 => "R8G8B8A8"
    case B8G8R8A8 => "B8G8R8A8"
    case R16 => "R16"
    case R16G16 => "R16G16"
    case R16G16B16A16 => "R16G16B16A16"
    case R32 => "R32"
    case R32G32 => "R32G32"
    case R32G32B32 => "R32G32B32"
    case R32G32B32A32 => "R32G32B32A32"
    case RGBA_DXT1 => "RGBA_DXT1"
    case RGBA_DXT5 => "RGBA_DXT5"
    case RGB_BC6H => "RGB_BC6H"
    case RGBA_BC7 => "RGBA_BC7"
    case RGB_ETC => "RGB_ETC"
    case RGBA_ETC2 => "RGBA_ETC2"
    case RGB_PVRTC_4Bpp => "RGB_PVRTC_4Bpp"
    case RGBA_PVRTC_4Bpp => "RGBA_PVRTC_4Bpp"
    case RGBA_ASTC4X4 => AstcPrefix + "4X4"
    case RGBA_ASTC6X6 => AstcPrefix + "6X6"
    case RGBA_ASTC8X8 => AstcPrefix + "8X8"
    case RGBA_ASTC10X10 => AstcPrefix + "10X10"
    case RGBA_ASTC12X12 => AstcPrefix + "12X12"
  }

  function KindName(k: NumericKind): string {
    match k
    case UNorm => "UNorm"
    case SNorm => "SNorm"
    case UInt => "UInt"
    case SInt => "SInt"
    case SFloat => "SFloat"
    case UFloat => "UFloat"
    case SRGB => "SRGB"
  }

  /** `format.ToString()`: every value other than `None` is named
      `<layout>_<kind>`. */
  function Name(f: GraphicsFormat): string {
    if f.None? then "None" else LayoutName(LayoutOf(f)) + "_" + KindName(KindOf(f))
  }

  datatype ChannelOrder = RGBA | BGRA

  /** What one texel of a layout stores: equally wide channels for an
      uncompressed layout, or a compressed block of `blockBits` bits covering
      `blockW` x `blockH` texels. */
  datatype Texel =
    | Plain(order: ChannelOrder, channels: nat, bits: nat)
    | Block(blockBits: nat, blockW: nat, blockH: nat)

  function LayoutTexel(l: Layout): Texel {
    match l
    case R8 => Plain(RGBA, 1, 8)
    case R8G8 => Plain(RGBA, 2, 8)
    case R8G8B8 => Plain(RGBA, 3, 8)
    case B8G8R8 => Plain(BGRA, 3, 8)
    case R8G8B8A8 => Plain(RGBA, 4, 8)
    case B8G8R8A8 => Plain(BGRA, 4, 8)
    case R16 => Plain(RGBA, 1, 16)
    case R16G16 => Plain(RGBA, 2, 16)
    case R16G16B16A16 => Plain(RGBA, 4, 16)
    case R32 => Plain(RGBA, 1, 32)
    case R32G32 => Plain(RGBA, 2, 32)
    case R32G32B32 => Plain(RGBA, 3, 32)
    case R32G32B32A32 => Plain(RGBA, 4, 32)
    case RGBA_DXT1 => Block(64, 4, 4)
    case RGBA_DXT5 => Block(128, 4, 4)
    case RGB_BC6H => Block(128, 4, 4)
    case RGBA_BC7 => Block(128, 4, 4)
    case RGB_ETC => Block(64, 4, 4)
    case RGBA_ETC2 => Block(128, 4, 4)
    case RGB_PVRTC_4Bpp => Block(64, 4, 4)
    case RGBA_PVRTC_4Bpp => Block(64, 4, 4)
    case RGBA_ASTC4X4 => Block(128, 4, 4)
    case RGBA_ASTC6X6 => Block(128, 6, 6)
    case RGBA_ASTC8X8 => Block(128, 8, 8)
    case RGBA_ASTC10X10 => Block(128, 10, 10)
    case RGBA_ASTC12X12 => Block(128, 12, 12)
  }

  /** The size a texel really takes, rounded up to whole bytes: channels times
      channel width for uncompressed formats, the block size spread over its
      texels for compressed ones, and 0 for `None`. */
  function ReferenceBytesPerPixel(f: GraphicsFormat): nat {
    if f.None? then 0
    else match LayoutTexel(LayoutOf(f))
      case Plain(_, channels, bits) => channels * bits / 8
      case Block(blockBits, w, h) =>
        if w * h == 0 then 0 else (blockBits + 8 * w * h - 1) / (8 * w * h)
  }

  predicate IsSrgb(f: GraphicsFormat) {
    !f.None? && KindOf(f) == SRGB
  }

  /** The ASTC prefix holds an 'S' but no "RGB" after it. */
  lemma AstcPrefixFacts()
    ensures Separator !in AstcPrefix && '.' !in AstcPrefix
    ensures !Contains(AstcPrefix, "SRGB")
  {
    NotContainsSplit(AstcPrefix, "SRGB", 3, 0, 1);
  }

  /** An ASTC name is the prefix followed by a block size that starts with a
      digit and holds no 'S', separator or dot. */
  lemma AstcNameFacts(size: string)
    requires |size| > 0 && size[0] !in "SRGB"[1..] && 'S' !in size
    requires Separator !in size && '.' !in size
    ensures Separator !in AstcPrefix + size && '.' !in AstcPrefix + size
    ensures !Contains(AstcPrefix + size, "SRGB")
  {
    AstcPrefixFacts();
    MissingCharNotContains(size, "SRGB", 0);
    ContainsConcat(AstcPrefix, size, "SRGB");
  }

  /** The layout part of a name holds no directory separator, no dot and
      no "SRGB": only ASTC layouts hold an 'S', and there no "RGB" follows it. */
  lemma LayoutNameFacts(l: Layout)
    ensures Separator !in LayoutName(l) && '.' !in LayoutName(l)
    ensures !Contains(LayoutName(l), "SRGB")
  {
    if l.R8? || l.R8G8? || l.R8G8B8? || l.B8G8R8? || l.R8G8B8A8? || l.B8G8R8A8? { LayoutNameFactsGroup1(l); }
    else if l.R16? || l.R16G16? || l.R16G16B16A16? || l.R32? || l.R32G32? || l.R32G32B32? || l.R32G32B32A32? { LayoutNameFactsGroup2(l); }
    else if l.RGBA_DXT1? || l.RGBA_DXT5? || l.RGB_BC6H? || l.RGBA_BC7? { LayoutNameFactsGroup3(l); }
    else if l.RGB_ETC? || l.RGBA_ETC2? { LayoutNameFactsGroup4(l); }
    else if l.RGB_PVRTC_4Bpp? { LayoutNameFactsGroup5(l); }
    else if l.RGBA_PVRTC_4Bpp? { LayoutNameFactsGroup7(l); }
    else { LayoutNameFactsGroup6(l); }
  }

  /** Facts about the kind part of a name: only the sRGB kind mentions
      "SRGB", and no kind name starts with a character that could complete
      an "SRGB" begun before it. */
  lemma KindNameFacts(k: NumericKind)
    ensures Contains(KindName(k), "SRGB") <==> k == SRGB
    ensures |KindName(k)| > 0 && KindName(k)[0] !in "SRGB"[1..]
    ensures Separator !in KindName(k) && '.' !in KindName(k)
  {
    match k
    case SRGB => OccursAtWitness(KindName(k), "SRGB", 0);
    case SNorm => MissingCharNotContains(KindName(k), "SRGB", 1);
    case SInt => MissingCharNotContains(KindName(k), "SRGB", 1);
    case SFloat => MissingCharNotContains(KindName(k), "SRGB", 1);
    case _ => MissingCharNotContains(KindName(k), "SRGB", 0);
  }

  /** The name of a format mentions "SRGB" exactly when its channels are
      sRGB-encoded, and it holds no directory separator and no dot, so it
      can be spliced into a file name without changing the directory or the
      extension. */
  lemma NameFacts(f: GraphicsFormat)
    ensures Contains(Name(f), "SRGB") <==> IsSrgb(f)
    ensures Separator !in Name(f) && '.' !in Name(f)
  {
    if f.None? {
      MissingCharNotContains(Name(f), "SRGB", 0);
    } else {
      var l, k := LayoutName(LayoutOf(f)), KindName(KindOf(f));
      LayoutNameFacts(LayoutOf(f));
      KindNameFacts(KindOf(f));
      MissingCharNotContains("_", "SRGB", 0);
      ContainsConcat(l, "_", "SRGB");
      ContainsConcat(l + "_", k, "SRGB");
    }
  }

  /** The linear (UNorm) counterpart of an sRGB format; every other format is
      its own counterpart. */
  function LinearTwin(f: GraphicsFormat): GraphicsFormat {
    match f
    case R8_SRGB => R8_UNorm
    case R8G8_SRGB => R8G8_UNorm
    case R8G8B8_SRGB => R8G8B8_UNorm
    case B8G8R8_SRGB => B8G8R8_UNorm
    case R8G8B8A8_SRGB => R8G8B8A8_UNorm
    case B8G8R8A8_SRGB => B8G8R8A8_UNorm
    case RGBA_DXT1_SRGB => RGBA_DXT1_UNorm
    case RGBA_DXT5_SRGB => RGBA_DXT5_UNorm
    case RGBA_BC7_SRGB => RGBA_BC7_UNorm
    case RGBA_ETC2_SRGB => RGBA_ETC2_UNorm
    case RGBA_ASTC4X4_SRGB => RGBA_ASTC4X4_UNorm
    case RGBA_ASTC6X6_SRGB => RGBA_ASTC6X6_UNorm
    case _ => f
  }

  /** The sRGB-encoded formats. */
  lemma SrgbFormats(f: GraphicsFormat)
    requires IsSrgb(f)
    ensures f.R8_SRGB? || f.R8G8_SRGB? || f.R8G8B8_SRGB? || f.B8G8R8_SRGB? || f.R8G8B8A8_SRGB? || f.B8G8R8A8_SRGB? || f.RGBA_DXT1_SRGB? || f.RGBA_DXT5_SRGB? || f.RGBA_BC7_SRGB? || f.RGBA_ETC2_SRGB? || f.RGBA_ASTC4X4_SRGB? || f.RGBA_ASTC6X6_SRGB?
  {
  }


  /** Every sRGB format has a UNorm twin of the same layout. */
  lemma LinearTwinOfSrgb(f: GraphicsFormat)
    requires IsSrgb(f)
    ensures !LinearTwin(f).None? && LayoutOf(LinearTwin(f)) == LayoutOf(f) && KindOf(LinearTwin(f)) == UNorm
  {
    SrgbFormats(f);
    if f.R8_SRGB? || f.R8G8_SRGB? || f.R8G8B8_SRGB? || f.B8G8R8_SRGB? { LinearTwinGroup1(f); } else if f.R8G8B8A8_SRGB? || f.B8G8R8A8_SRGB? || f.RGBA_DXT1_SRGB? { LinearTwinGroup2(f); } else if f.RGBA_DXT5_SRGB? || f.RGBA_BC7_SRGB? || f.RGBA_ETC2_SRGB? { LinearTwinGroup3(f); } else { LinearTwinGroup4(f); }
  }

  /** A format that is not sRGB-encoded is its own twin. */
  lemma LinearTwinOfLinear(f: GraphicsFormat)
    requires !IsSrgb(f)
    ensures LinearTwin(f) == f
  {
  }

  /** An sRGB format and its linear twin store the same number of bytes per
      texel. */
  lemma LinearTwinSameSize(f: GraphicsFormat)
    ensures ReferenceBytesPerPixel(LinearTwin(f)) == ReferenceBytesPerPixel(f)
  {
    if IsSrgb(f) { LinearTwinOfSrgb(f); } else { LinearTwinOfLinear(f); }
  }

  /** Every format, in the order of its value in Unity's `GraphicsFormat`,
      which is the order `Enum.GetValues` lists it in: `None` = 0, then the
      8-bit formats grouped by numeric kind (`R8_SRGB` = 1, `R8G8_SRGB` = 2,
      ..., `R8_UNorm` = 5, ...), the 16- and 32-bit ones (from 21), the
      packed `B8G8R8` ones (from 56) and the compressed ones (from 96, with
      PVRTC before ETC and ASTC last). */
  function AllFormats(): seq<GraphicsFormat> {
    FormatsBlock1() + FormatsBlock2() + FormatsBlock3() + FormatsBlock4() + FormatsBlock5() + FormatsBlock6() + FormatsBlock7()
  }

  /** The list leaves no format out. */
  lemma AllFormatsListed(g: GraphicsFormat)
    ensures g in AllFormats()
  {
    if g.None? || g.R8_SRGB? || g.R8G8_SRGB? || g.R8G8B8_SRGB? || g.R8G8B8A8_SRGB? || g.R8_UNorm? || g.R8G8_UNorm? || g.R8G8B8_UNorm? || g.R8G8B8A8_UNorm? || g.R8_SNorm? {
      AllFormatsListedPart1(g);
      InAllFromBlock1(g);
    } else if g.R8G8_SNorm? || g.R8G8B8_SNorm? || g.R8G8B8A8_SNorm? || g.R8_UInt? || g.R8G8_UInt? || g.R8G8B8_UInt? || g.R8G8B8A8_UInt? || g.R8_SInt? || g.R8G8_SInt? || g.R8G8B8_SInt? {
      AllFormatsListedPart2(g);
      InAllFromBlock2(g);
    } else if g.R8G8B8A8_SInt? || g.R16_UNorm? || g.R16G16_UNorm? || g.R16G16B16A16_UNorm? || g.R16_SNorm? || g.R16G16_SNorm? || g.R16G16B16A16_SNorm? || g.R16_UInt? || g.R16G16_UInt? || g.R16G16B16A16_UInt? {
      AllFormatsListedPart3(g);
      InAllFromBlock3(g);
    } else if g.R16_SInt? || g.R16G16_SInt? || g.R16G16B16A16_SInt? || g.R32_UInt? || g.R32G32_UInt? || g.R32G32B32A32_UInt? || g.R32_SInt? || g.R32G32_SInt? || g.R32G32B32A32_SInt? || g.R16_SFloat? {
      AllFormatsListedPart4(g);
      InAllFromBlock4(g);
    } else if g.R16G16_SFloat? || g.R16G16B16A16_SFloat? || g.R32_SFloat? || g.R32G32_SFloat? || g.R32G32B32_SFloat? || g.R32G32B32A32_SFloat? || g.B8G8R8_SRGB? || g.B8G8R8A8_SRGB? || g.B8G8R8_UNorm? || g.B8G8R8A8_UNorm? {
      AllFormatsListedPart5(g);
      InAllFromBlock5(g);
    } else if g.RGBA_DXT1_SRGB? || g.RGBA_DXT1_UNorm? || g.RGBA_DXT5_SRGB? || g.RGBA_DXT5_UNorm? || g.RGB_BC6H_UFloat? || g.RGB_BC6H_SFloat? || g.RGBA_BC7_SRGB? || g.RGBA_BC7_UNorm? || g.RGB_PVRTC_4Bpp_UNorm? || g.RGBA_PVRTC_4Bpp_UNorm? {
      AllFormatsListedPart6(g);
      InAllFromBlock6(g);
    } else {
      AllFormatsListedPart7(g);
      InAllFromBlock7(g);
    }
  }

  lemma AllFormatsComplete()
    ensures forall g :: g in AllFormats()
  {
    forall g: GraphicsFormat
      ensures g in AllFormats()
    {
      AllFormatsListed(g);
    }
  }

  // ---------------------------------------------------------------------
  // Case splits
  //
  // The properties above quantify over every format or layout. The
  // solver proves each for a few enum cases at a time, in the lemmas
  // below, which the properties' bodies dispatch to.

  /** Name facts for the 8-bit plain layouts. */
  lemma LayoutNameFactsGroup1(l: Layout)
    requires l.R8? || l.R8G8? || l.R8G8B8? || l.B8G8R8? || l.R8G8B8A8? || l.B8G8R8A8?
    ensures Separator !in LayoutName(l) && '.' !in LayoutName(l)
    ensures !Contains(LayoutName(l), "SRGB")
  {
    match l
    case R8 => MissingCharNotContains(LayoutName(l), "SRGB", 0);
    case R8G8 => MissingCharNotContains(LayoutName(l), "SRGB", 0);
    case R8G8B8 => MissingCharNotContains(LayoutName(l), "SRGB", 0);
    case B8G8R8 => MissingCharNotContains(LayoutName(l), "SRGB", 0);
    case R8G8B8A8 => MissingCharNotContains(LayoutName(l), "SRGB", 0);
    case B8G8R8A8 => MissingCharNotContains(LayoutName(l), "SRGB", 0);
  }

  /** Name facts for the 16- and 32-bit plain layouts. */
  lemma LayoutNameFactsGroup2(l: Layout)
    requires l.R16? || l.R16G16? || l.R16G16B16A16? || l.R32? || l.R32G32? || l.R32G32B32? || l.R32G32B32A32?
    ensures Separator !in LayoutName(l) && '.' !in LayoutName(l)
    ensures !Contains(LayoutName(l), "SRGB")
  {
    match l
    case R16 => MissingCharNotContains(LayoutName(l), "SRGB", 0);
    case R16G16 => MissingCharNotContains(LayoutName(l), "SRGB", 0);
    case R16G16B16A16 => MissingCharNotContains(LayoutName(l), "SRGB", 0);
    case R32 => MissingCharNotContains(LayoutName(l), "SRGB", 0);
    case R32G32 => MissingCharNotContains(LayoutName(l), "SRGB", 0);
    case R32G32B32 => MissingCharNotContains(LayoutName(l), "SRGB", 0);
    case R32G32B32A32 => MissingCharNotContains(LayoutName(l), "SRGB", 0);
  }

  /** Name facts for the DXT and BC layouts. */
  lemma LayoutNameFactsGroup3(l: Layout)
    requires l.RGBA_DXT1? || l.RGBA_DXT5? || l.RGB_BC6H? || l.RGBA_BC7?
    ensures Separator !in LayoutName(l) && '.' !in LayoutName(l)
    ensures !Contains(LayoutName(l), "SRGB")
  {
    match l
    case RGBA_DXT1 => MissingCharNotContains(LayoutName(l), "SRGB", 0);
    case RGBA_DXT5 => MissingCharNotContains(LayoutName(l), "SRGB", 0);
    case RGB_BC6H => MissingCharNotContains(LayoutName(l), "SRGB", 0);
    case RGBA_BC7 => MissingCharNotContains(LayoutName(l), "SRGB", 0);
  }

  /** Name facts for the ETC layouts. */
  lemma LayoutNameFactsGroup4(l: Layout)
    requires l.RGB_ETC? || l.RGBA_ETC2?
    ensures Separator !in LayoutName(l) && '.' !in LayoutName(l)
    ensures !Contains(LayoutName(l), "SRGB")
  {
    match l
    case RGB_ETC => MissingCharNotContains(LayoutName(l), "SRGB", 0);
    case RGBA_ETC2 => MissingCharNotContains(LayoutName(l), "SRGB", 0);
  }

  /** Name facts for the PVRTC layouts. */
  lemma LayoutNameFactsGroup5(l: Layout)
    requires l.RGB_PVRTC_4Bpp?
    ensures Separator !in LayoutName(l) && '.' !in LayoutName(l)
    ensures !Contains(LayoutName(l), "SRGB")
  {
    MissingCharNotContains(LayoutName(l), "SRGB", 0);
  }

  lemma LayoutNameFactsGroup7(l: Layout)
    requires l.RGBA_PVRTC_4Bpp?
    ensures Separator !in LayoutName(l) && '.' !in LayoutName(l)
    ensures !Contains(LayoutName(l), "SRGB")
  {
    MissingCharNotContains(LayoutName(l), "SRGB", 0);
  }

  /** Name facts for the ASTC layouts. */
  lemma LayoutNameFactsGroup6(l: Layout)
    requires l.RGBA_ASTC4X4? || l.RGBA_ASTC6X6? || l.RGBA_ASTC8X8? || l.RGBA_ASTC10X10? || l.RGBA_ASTC12X12?
    ensures Separator !in LayoutName(l) && '.' !in LayoutName(l)
    ensures !Contains(LayoutName(l), "SRGB")
  {
    match l
    case RGBA_ASTC4X4 => AstcNameFacts("4X4");
    case RGBA_ASTC6X6 => AstcNameFacts("6X6");
    case RGBA_ASTC8X8 => AstcNameFacts("8X8");
    case RGBA_ASTC10X10 => AstcNameFacts("10X10");
    case RGBA_ASTC12X12 => AstcNameFacts("12X12");
  }

  lemma LinearTwinGroup1(f: GraphicsFormat)
    requires f.R8_SRGB? || f.R8G8_SRGB? || f.R8G8B8_SRGB? || f.B8G8R8_SRGB?
    ensures !LinearTwin(f).None? && LayoutOf(LinearTwin(f)) == LayoutOf(f) && KindOf(LinearTwin(f)) == UNorm
  {
  }

  lemma LinearTwinGroup2(f: GraphicsFormat)
    requires f.R8G8B8A8_SRGB? || f.B8G8R8A8_SRGB? || f.RGBA_DXT1_SRGB?
    ensures !LinearTwin(f).None? && LayoutOf(LinearTwin(f)) == LayoutOf(f) && KindOf(LinearTwin(f)) == UNorm
  {
  }

  lemma LinearTwinGroup3(f: GraphicsFormat)
    requires f.RGBA_DXT5_SRGB? || f.RGBA_BC7_SRGB? || f.RGBA_ETC2_SRGB?
    ensures !LinearTwin(f).None? && LayoutOf(LinearTwin(f)) == LayoutOf(f) && KindOf(LinearTwin(f)) == UNorm
  {
  }

  lemma LinearTwinGroup4(f: GraphicsFormat)
    requires f.RGBA_ASTC4X4_SRGB? || f.RGBA_ASTC6X6_SRGB?
    ensures !LinearTwin(f).None? && LayoutOf(LinearTwin(f)) == LayoutOf(f) && KindOf(LinearTwin(f)) == UNorm
  {
  }

  // Formats with values 0 to 9.
  function FormatsBlock1(): seq<GraphicsFormat> {
    [None, R8_SRGB, R8G8_SRGB, R8G8B8_SRGB, R8G8B8A8_SRGB, R8_UNorm, R8G8_UNorm, R8G8B8_UNorm, R8G8B8A8_UNorm, R8_SNorm]
  }

  // Formats with values 10 to 19.
  function FormatsBlock2(): seq<GraphicsFormat> {
    [R8G8_SNorm, R8G8B8_SNorm, R8G8B8A8_SNorm, R8_UInt, R8G8_UInt, R8G8B8_UInt, R8G8B8A8_UInt, R8_SInt, R8G8_SInt, R8G8B8_SInt]
  }

  // Formats with values 20 to 32.
  function FormatsBlock3(): seq<GraphicsFormat> {
    [R8G8B8A8_SInt, R16_UNorm, R16G16_UNorm, R16G16B16A16_UNorm, R16_SNorm, R16G16_SNorm, R16G16B16A16_SNorm, R16_UInt, R16G16_UInt, R16G16B16A16_UInt]
  }

  // Formats with values 33 to 45.
  function FormatsBlock4(): seq<GraphicsFormat> {
    [R16_SInt, R16G16_SInt, R16G16B16A16_SInt, R32_UInt, R32G32_UInt, R32G32B32A32_UInt, R32_SInt, R32G32_SInt, R32G32B32A32_SInt, R16_SFloat]
  }

  // Formats with values 46 to 59.
  function FormatsBlock5(): seq<GraphicsFormat> {
    [R16G16_SFloat, R16G16B16A16_SFloat, R32_SFloat, R32G32_SFloat, R32G32B32_SFloat, R32G32B32A32_SFloat, B8G8R8_SRGB, B8G8R8A8_SRGB, B8G8R8_UNorm, B8G8R8A8_UNorm]
  }

  // Formats with values 96 to 117.
  function FormatsBlock6(): seq<GraphicsFormat> {
    [RGBA_DXT1_SRGB, RGBA_DXT1_UNorm, RGBA_DXT5_SRGB, RGBA_DXT5_UNorm, RGB_BC6H_UFloat, RGB_BC6H_SFloat, RGBA_BC7_SRGB, RGBA_BC7_UNorm, RGB_PVRTC_4Bpp_UNorm, RGBA_PVRTC_4Bpp_UNorm]
  }

  // Formats with values 118 to 140.
  function FormatsBlock7(): seq<GraphicsFormat> {
    [RGB_ETC_UNorm, RGBA_ETC2_SRGB, RGBA_ETC2_UNorm, RGBA_ASTC4X4_SRGB, RGBA_ASTC4X4_UNorm, RGBA_ASTC6X6_SRGB, RGBA_ASTC6X6_UNorm, RGBA_ASTC8X8_UNorm, RGBA_ASTC10X10_UNorm, RGBA_ASTC12X12_UNorm]
  }

  // `AllFormatsListed`, one block at a time.
  lemma AllFormatsListedPart1(g: GraphicsFormat)
    requires g.None? || g.R8_SRGB? || g.R8G8_SRGB? || g.R8G8B8_SRGB? || g.R8G8B8A8_SRGB? || g.R8_UNorm? || g.R8G8_UNorm? || g.R8G8B8_UNorm? || g.R8G8B8A8_UNorm? || g.R8_SNorm?
    ensures g in FormatsBlock1()
  {
  }

  lemma AllFormatsListedPart2(g: GraphicsFormat)
    requires g.R8G8_SNorm? || g.R8G8B8_SNorm? || g.R8G8B8A8_SNorm? || g.R8_UInt? || g.R8G8_UInt? || g.R8G8B8_UInt? || g.R8G8B8A8_UInt? || g.R8_SInt? || g.R8G8_SInt? || g.R8G8B8_SInt?
    ensures g in FormatsBlock2()
  {
  }

  lemma AllFormatsListedPart3(g: GraphicsFormat)
    requires g.R8G8B8A8_SInt? || g.R16_UNorm? || g.R16G16_UNorm? || g.R16G16B16A16_UNorm? || g.R16_SNorm? || g.R16G16_SNorm? || g.R16G16B16A16_SNorm? || g.R16_UInt? || g.R16G16_UInt? || g.R16G16B16A16_UInt?
    ensures g in FormatsBlock3()
  {
  }

  lemma AllFormatsListedPart4(g: GraphicsFormat)
    requires g.R16_SInt? || g.R16G16_SInt? || g.R16G16B16A16_SInt? || g.R32_UInt? || g.R32G32_UInt? || g.R32G32B32A32_UInt? || g.R32_SInt? || g.R32G32_SInt? || g.R32G32B32A32_SInt? || g.R16_SFloat?
    ensures g in FormatsBlock4()
  {
  }

  lemma AllFormatsListedPart5(g: GraphicsFormat)
    requires g.R16G16_SFloat? || g.R16G16B16A16_SFloat? || g.R32_SFloat? || g.R32G32_SFloat? || g.R32G32B32_SFloat? || g.R32G32B32A32_SFloat? || g.B8G8R8_SRGB? || g.B8G8R8A8_SRGB? || g.B8G8R8_UNorm? || g.B8G8R8A8_UNorm?
    ensures g in FormatsBlock5()
  {
  }

  lemma AllFormatsListedPart6(g: GraphicsFormat)
    requires g.RGBA_DXT1_SRGB? || g.RGBA_DXT1_UNorm? || g.RGBA_DXT5_SRGB? || g.RGBA_DXT5_UNorm? || g.RGB_BC6H_UFloat? || g.RGB_BC6H_SFloat? || g.RGBA_BC7_SRGB? || g.RGBA_BC7_UNorm? || g.RGB_PVRTC_4Bpp_UNorm? || g.RGBA_PVRTC_4Bpp_UNorm?
    ensures g in FormatsBlock6()
  {
  }

  lemma AllFormatsListedPart7(g: GraphicsFormat)
    requires g.RGB_ETC_UNorm? || g.RGBA_ETC2_SRGB? || g.RGBA_ETC2_UNorm? || g.RGBA_ASTC4X4_SRGB? || g.RGBA_ASTC4X4_UNorm? || g.RGBA_ASTC6X6_SRGB? || g.RGBA_ASTC6X6_UNorm? || g.RGBA_ASTC8X8_UNorm? || g.RGBA_ASTC10X10_UNorm? || g.RGBA_ASTC12X12_UNorm?
    ensures g in FormatsBlock7()
  {
  }

  lemma InAllFromBlock1(g: GraphicsFormat)
    requires g in FormatsBlock1()
    ensures g in AllFormats()
  {
  }

  lemma InAllFromBlock2(g: GraphicsFormat)
    requires g in FormatsBlock2()
    ensures g in AllFormats()
  {
  }

  lemma InAllFromBlock3(g: GraphicsFormat)
    requires g in FormatsBlock3()
    ensures g in AllFormats()
  {
  }

  lemma InAllFromBlock4(g: GraphicsFormat)
    requires g in FormatsBlock4()
    ensures g in AllFormats()
  {
  }

  lemma InAllFromBlock5(g: GraphicsFormat)
    requires g in FormatsBlock5()
    ensures g in AllFormats()
  {
  }

  lemma InAllFromBlock6(g: GraphicsFormat)
    requires g in FormatsBlock6()
    ensures g in AllFormats()
  {
  }

  lemma InAllFromBlock7(g: GraphicsFormat)
    requires g in FormatsBlock7()
    ensures g in AllFormats()
  {
  }
}
