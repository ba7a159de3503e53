/** The texture format converter window: it writes a converted PNG copy of
    one texture next to it and configures the copy's importer from the
    target format through a table of its own, with its own size estimate,
    sRGB list and platform-format choice. */
module FormatConverter {
  import opened Strings
  import opened Seqs
  import opened Formats
  import opened Textures
  import FormatUtility

  // ---------------------------------------------------------------------
  // Size estimate

  /** The formats the converter's `GetBytesPerPixel` lists. */
  predicate ConverterListed(f: GraphicsFormat) {
    match f
    case R8_UNorm => true
    case R8_SNorm => true
    case R8_UInt => true
    case R8_SInt => true
    case R8G8_UNorm => true
    case R8G8_SNorm => true
    case R8G8_UInt => true
    case R8G8_SInt => true
    case R16_UNorm => true
    case R16_SNorm => true
    case R16_UInt => true
    case R16_SInt => true
    case R16_SFloat => true
    case R8G8B8_UNorm => true
    case R8G8B8_SNorm => true
    case R8G8B8_UInt => true
    case R8G8B8_SInt => true
    case R8G8B8_SRGB => true
    case R8G8B8A8_UNorm => true
    case R8G8B8A8_SNorm => true
    case R8G8B8A8_UInt => true
    case R8G8B8A8_SInt => true
    case R8G8B8A8_SRGB => true
    case R16G16_UNorm => true
    case R16G16_SNorm => true
    case R16G16_UInt => true
    case R16G16_SInt => true
    case R16G16_SFloat => true
    case R32_UInt => true
    case R32_SInt => true
    case R32_SFloat => true
    case R16G16B16A16_UNorm => true
    case R16G16B16A16_SNorm => true
    case R16G16B16A16_UInt => true
    case R16G16B16A16_SInt => true
    case R16G16B16A16_SFloat => true
    case R32G32_UInt => true
    case R32G32_SInt => true
    case R32G32_SFloat => true
    case R32G32B32A32_UInt => true
    case R32G32B32A32_SInt => true
    case R32G32B32A32_SFloat => true
    case RGBA_DXT1_UNorm => true
    case RGBA_DXT1_SRGB => true
    case RGBA_DXT5_UNorm => true
    case RGBA_DXT5_SRGB => true
    case _ => false
  }

  /** `GetBytesPerPixel` of the converter. */
  function ConverterBytesPerPixel(f: GraphicsFormat): (r: nat)
    ensures r in {1, 2, 3, 4, 8, 16}
  {
    match f
    case R8_UNorm => 1
    case R8_SNorm => 1
    case R8_UInt => 1
    case R8_SInt => 1
    case R8G8_UNorm => 2
    case R8G8_SNorm => 2
    case R8G8_UInt => 2
    case R8G8_SInt => 2
    case R16_UNorm => 2
    case R16_SNorm => 2
    case R16_UInt => 2
    case R16_SInt => 2
    case R16_SFloat => 2
    case R8G8B8_UNorm => 3
    case R8G8B8_SNorm => 3
    case R8G8B8_UInt => 3
    case R8G8B8_SInt => 3
    case R8G8B8_SRGB => 3
    case R8G8B8A8_UNorm => 4
    case R8G8B8A8_SNorm => 4
    case R8G8B8A8_UInt => 4
    case R8G8B8A8_SInt => 4
    case R8G8B8A8_SRGB => 4
    case R16G16_UNorm => 4
    case R16G16_SNorm => 4
    case R16G16_UInt => 4
    case R16G16_SInt => 4
    case R16G16_SFloat => 4
    case R32_UInt => 4
    case R32_SInt => 4
    case R32_SFloat => 4
    case R16G16B16A16_UNorm => 8
    case R16G16B16A16_SNorm => 8
    case R16G16B16A16_UInt => 8
    case R16G16B16A16_SInt => 8
    case R16G16B16A16_SFloat => 8
    case R32G32_UInt => 8
    case R32G32_SInt => 8
    case R32G32_SFloat => 8
    case R32G32B32A32_UInt => 16
    case R32G32B32A32_SInt => 16
    case R32G32B32A32_SFloat => 16
    case RGBA_DXT1_UNorm => 1
    case RGBA_DXT1_SRGB => 1
    case RGBA_DXT5_UNorm => 1
    case RGBA_DXT5_SRGB => 1
    case _ => 4
  }

  /** The estimate is the true texel size, rounded up to a byte, for every
      listed format, and 4 for the rest. */
  lemma ConverterBytesPerPixelIsTexelSize(f: GraphicsFormat)
    ensures ConverterBytesPerPixel(f) == if ConverterListed(f) then ReferenceBytesPerPixel(f) else 4
  {
    if f.None? || f.R8_SRGB? || f.R8_UNorm? || f.R8_SNorm? || f.R8_UInt? || f.R8_SInt? || f.R8G8_SRGB? || f.R8G8_UNorm? || f.R8G8_SNorm? || f.R8G8_UInt? {
      ConverterBytesPerPixelIsTexelSizePart1(f);
    } else if f.R8G8_SInt? || f.R8G8B8_SRGB? || f.R8G8B8_UNorm? || f.R8G8B8_SNorm? || f.R8G8B8_UInt? || f.R8G8B8_SInt? || f.B8G8R8_SRGB? || f.B8G8R8_UNorm? {
      ConverterBytesPerPixelIsTexelSizePart2(f);
    } else if f.R8G8B8A8_SRGB? || f.R8G8B8A8_UNorm? || f.R8G8B8A8_SNorm? || f.R8G8B8A8_UInt? || f.R8G8B8A8_SInt? {
      ConverterBytesPerPixelIsTexelSizePart3(f);
    } else if f.B8G8R8A8_SRGB? || f.B8G8R8A8_UNorm? || f.R16_UNorm? || f.R16_SNorm? {
      ConverterBytesPerPixelIsTexelSizePart4(f);
    } else if f.R16_UInt? || f.R16_SInt? || f.R16_SFloat? {
      ConverterBytesPerPixelIsTexelSizePart5(f);
    } else if f.R16G16_UNorm? || f.R16G16_SNorm? || f.R16G16_UInt? {
      ConverterBytesPerPixelIsTexelSizePart6(f);
    } else if f.R16G16_SInt? || f.R16G16_SFloat? || f.R16G16B16A16_UNorm? {
      ConverterBytesPerPixelIsTexelSizePart7(f);
    } else if f.R16G16B16A16_SNorm? || f.R16G16B16A16_UInt? || f.R16G16B16A16_SInt? {
      ConverterBytesPerPixelIsTexelSizePart8(f);
    } else if f.R16G16B16A16_SFloat? || f.R32_UInt? {
      ConverterBytesPerPixelIsTexelSizePart9(f);
    } else if f.R32_SInt? || f.R32_SFloat? {
      ConverterBytesPerPixelIsTexelSizePart10(f);
    } else if f.R32G32_UInt? || f.R32G32_SInt? {
      ConverterBytesPerPixelIsTexelSizePart11(f);
    } else if f.R32G32_SFloat? || f.R32G32B32_SFloat? {
      ConverterBytesPerPixelIsTexelSizePart12(f);
    } else if f.R32G32B32A32_UInt? || f.R32G32B32A32_SInt? {
      ConverterBytesPerPixelIsTexelSizePart13(f);
    } else if f.R32G32B32A32_SFloat? || f.RGBA_DXT1_SRGB? {
      ConverterBytesPerPixelIsTexelSizePart14(f);
    } else if f.RGBA_DXT1_UNorm? || f.RGBA_DXT5_SRGB? {
      ConverterBytesPerPixelIsTexelSizePart15(f);
    } else if f.RGBA_DXT5_UNorm? || f.RGB_BC6H_UFloat? {
      ConverterBytesPerPixelIsTexelSizePart16(f);
    } else if f.RGB_BC6H_SFloat? || f.RGBA_BC7_SRGB? {
      ConverterBytesPerPixelIsTexelSizePart17(f);
    } else if f.RGBA_BC7_UNorm? || f.RGB_ETC_UNorm? {
      ConverterBytesPerPixelIsTexelSizePart18(f);
    } else if f.RGBA_ETC2_SRGB? || f.RGBA_ETC2_UNorm? {
      ConverterBytesPerPixelIsTexelSizePart19(f);
    } else if f.RGB_PVRTC_4Bpp_UNorm? || f.RGBA_PVRTC_4Bpp_UNorm? {
      ConverterBytesPerPixelIsTexelSizePart20(f);
    } else if f.RGBA_ASTC4X4_SRGB? || f.RGBA_ASTC4X4_UNorm? {
      ConverterBytesPerPixelIsTexelSizePart21(f);
    } else if f.RGBA_ASTC6X6_SRGB? || f.RGBA_ASTC6X6_UNorm? {
      ConverterBytesPerPixelIsTexelSizePart22(f);
    } else if f.RGBA_ASTC8X8_UNorm? || f.RGBA_ASTC10X10_UNorm? {
      ConverterBytesPerPixelIsTexelSizePart23(f);
    } else {
      ConverterBytesPerPixelIsTexelSizePart24(f);
    }
  }

  /** Listed formats of one channel layout, whatever their numeric kind, get
      one size. */
  lemma ConverterSameLayoutSameSize(f: GraphicsFormat, g: GraphicsFormat)
    requires !f.None? && !g.None? && ConverterListed(f) && ConverterListed(g)
    requires LayoutOf(f) == LayoutOf(g)
    ensures ConverterBytesPerPixel(f) == ConverterBytesPerPixel(g)
  {
    ConverterBytesPerPixelIsTexelSize(f);
    ConverterBytesPerPixelIsTexelSize(g);
  }

  /** The converter's and the utility's estimates agree wherever both list
      the format, and differ exactly where one of them lists a format whose
      texel does not take the default 4 bytes (the BC7 formats: 1 byte in
      the utility, the default 4 here). */
  lemma ConverterVersusUtility(f: GraphicsFormat)
    ensures ConverterListed(f) && FormatUtility.UtilityListed(f) ==>
              ConverterBytesPerPixel(f) == FormatUtility.UtilityBytesPerPixel(f)
    ensures ConverterBytesPerPixel(f) != FormatUtility.UtilityBytesPerPixel(f) <==>
              ConverterListed(f) != FormatUtility.UtilityListed(f) && ReferenceBytesPerPixel(f) != 4
  {
    ConverterBytesPerPixelIsTexelSize(f);
    FormatUtility.UtilityBytesPerPixelIsTexelSize(f);
  }

  /** `EstimateTextureSize` in bytes, before the conversion to megabytes:
      the dimensions are widened to 64 bits before multiplying, so the
      product does not wrap. */
  function ConverterEstimateBytes(width: nat, height: nat, f: GraphicsFormat): (r: nat)
    ensures ConverterListed(f) ==> r == width * height * ReferenceBytesPerPixel(f)
    ensures !ConverterListed(f) ==> r == 4 * width * height
  {
    ConverterBytesPerPixelIsTexelSize(f);
    width * height * ConverterBytesPerPixel(f)
  }

  // ---------------------------------------------------------------------
  // Importer settings of the converted copy

  /** The sRGB flag `SetImporterFormatSettings` gives a format: set for five
      named sRGB formats only. */
  predicate ConverterSrgb(f: GraphicsFormat) {
    f == R8G8B8A8_SRGB || f == R8G8B8_SRGB || f == RGBA_DXT1_SRGB || f == RGBA_DXT5_SRGB || f == RGBA_BC7_SRGB
  }

  lemma ConverterSrgbIsSrgb(f: GraphicsFormat)
    ensures ConverterSrgb(f) ==> IsSrgb(f)
  {
  }

  /** The converter marks exactly the sRGB formats of five layouts as sRGB. */
  lemma ConverterSrgbLayouts(f: GraphicsFormat)
    ensures ConverterSrgb(f) <==>
              IsSrgb(f) && LayoutOf(f) in {R8G8B8A8, R8G8B8, RGBA_DXT1, RGBA_DXT5, RGBA_BC7}
  {
    if !IsSrgb(f) {
      ConverterSrgbIsSrgb(f);
    } else {
      SrgbFormats(f);
      if f.R8_SRGB? || f.R8G8_SRGB? || f.R8G8B8_SRGB? || f.B8G8R8_SRGB? {
        SrgbLayoutsPart1(f);
      } else if f.R8G8B8A8_SRGB? || f.B8G8R8A8_SRGB? || f.RGBA_DXT1_SRGB? || f.RGBA_DXT5_SRGB? {
        SrgbLayoutsPart2(f);
      } else {
        SrgbLayoutsPart3(f);
      }
    }
  }

  /** Every format the converter marks sRGB is marked sRGB by the utility's
      `SetImporterFormat` too, which goes by the name; the utility marks
      the other sRGB formats as well (an ASTC, ETC2 or BGRA sRGB format,
      say), and the converter does not. */
  lemma ConverterSrgbVersusUtility(importer: TextureImporter, f: GraphicsFormat)
    ensures ConverterSrgb(f) ==> FormatUtility.SetImporterFormat(importer, f).sRGBTexture
    ensures FormatUtility.SetImporterFormat(importer, f).sRGBTexture && !ConverterSrgb(f) <==>
              IsSrgb(f) && LayoutOf(f) !in {R8G8B8A8, R8G8B8, RGBA_DXT1, RGBA_DXT5, RGBA_BC7}
  {
    ConverterSrgbLayouts(f);
  }

  /** The platform format `SetImporterFormatSettings` picks from a format
      name, as written: the first of "DXT1", "DXT5", "BC7", "BC6H", "R8_",
      "R16_" that the name contains, and RGBA32 when it contains none. */
  function PlatformChain(name: string): ImporterFormat {
    if Contains(name, "DXT1") then DXT1
    else if Contains(name, "DXT5") then DXT5
    else if Contains(name, "BC7") then BC7
    else if Contains(name, "BC6H") then BC6H
    else if Contains(name, "R8_") then ImporterFormat.R8
    else if Contains(name, "R16_") then ImporterFormat.R16
    else RGBA32
  }

  /** The platform format the converter gives the written copy of a texture
      of format `f`. */
  function ConverterPlatformFormat(f: GraphicsFormat): ImporterFormat {
    PlatformChain(Name(f))
  }

  /** The platform format chosen by layout, with "R8_" read as the name of
      the single-channel 8-bit layout: every choice other than RGBA32 stores
      exactly the texel of the layout. */
  function LayoutPlatformFormat(l: Layout): (r: ImporterFormat)
    ensures r != RGBA32 ==> ImporterTexel(r) == Some(LayoutTexel(l))
  {
    match l
    case RGBA_DXT1 => DXT1
    case RGBA_DXT5 => DXT5
    case RGBA_BC7 => BC7
    case RGB_BC6H => BC6H
    case R8 => ImporterFormat.R8
    case R16 => ImporterFormat.R16
    case _ => RGBA32
  }

  /** The evidently intended platform format of a format: by its layout. */
  function CorrectedPlatformFormat(f: GraphicsFormat): (r: ImporterFormat)
    ensures r != RGBA32 ==> !f.None? && ImporterTexel(r) == Some(LayoutTexel(LayoutOf(f)))
  {
    if f.None? then RGBA32 else LayoutPlatformFormat(LayoutOf(f))
  }

  /** Given which of the chain's patterns a name holds, as the name of a
      format of layout `l` holds them, the chain picks the layout's platform
      format, except that a BGR layout is read as R8. */
  lemma PlatformChainOnLayout(name: string, l: Layout)
    requires Contains(name, "DXT1") <==> l == RGBA_DXT1
    requires Contains(name, "DXT5") <==> l == RGBA_DXT5
    requires Contains(name, "BC7") <==> l == RGBA_BC7
    requires Contains(name, "BC6H") <==> l == RGB_BC6H
    requires Contains(name, "R8_") <==> l == Layout.R8 || l == B8G8R8
    requires Contains(name, "R16_") <==> l == Layout.R16
    ensures PlatformChain(name) == if l == B8G8R8 then ImporterFormat.R8 else LayoutPlatformFormat(l)
  {
  }

  /** The kind part of a name holds none of the characters the platform
      chain needs to find a match across the '_' before it. */
  lemma KindNameChars(k: NumericKind)
    ensures |KindName(k)| > 0 && (KindName(k)[0] == 'U' || KindName(k)[0] == 'S')
    ensures 'D' !in KindName(k) && 'C' !in KindName(k) && '_' !in KindName(k)
  {
  }

  /** Which of the codec names the converter's platform chain looks for
      occur in each layout name. */
  lemma LayoutCodecFacts(l: Layout)
    ensures Contains(LayoutName(l), "DXT1") <==> l == RGBA_DXT1
    ensures Contains(LayoutName(l), "DXT5") <==> l == RGBA_DXT5
    ensures Contains(LayoutName(l), "BC7") <==> l == RGBA_BC7
    ensures Contains(LayoutName(l), "BC6H") <==> l == RGB_BC6H
  {
    if l.R8? { CodecFactsOfR8(LayoutName(l)); }
    else if l.R8G8? { CodecFactsOfR8G8(LayoutName(l)); }
    else if l.R8G8B8? { CodecFactsOfR8G8B8(LayoutName(l)); }
    else if l.B8G8R8? { CodecFactsOfB8G8R8(LayoutName(l)); }
    else if l.R8G8B8A8? { CodecFactsOfR8G8B8A8(LayoutName(l)); }
    else if l.B8G8R8A8? { CodecFactsOfB8G8R8A8(LayoutName(l)); }
    else if l.R16? { CodecFactsOfR16(LayoutName(l)); }
    else if l.R16G16? { CodecFactsOfR16G16(LayoutName(l)); }
    else if l.R16G16B16A16? { CodecFactsOfR16G16B16A16(LayoutName(l)); }
    else if l.R32? { CodecFactsOfR32(LayoutName(l)); }
    else if l.R32G32? { CodecFactsOfR32G32(LayoutName(l)); }
    else if l.R32G32B32? { CodecFactsOfR32G32B32(LayoutName(l)); }
    else if l.R32G32B32A32? { CodecFactsOfR32G32B32A32(LayoutName(l)); }
    else if l.RGBA_DXT1? { CodecFactsOfRGBA_DXT1(LayoutName(l)); }
    else if l.RGBA_DXT5? { CodecFactsOfRGBA_DXT5(LayoutName(l)); }
    else if l.RGB_BC6H? { CodecFactsOfRGB_BC6H(LayoutName(l)); }
    else if l.RGBA_BC7? { CodecFactsOfRGBA_BC7(LayoutName(l)); }
    else if l.RGB_ETC? { CodecFactsOfRGB_ETC(LayoutName(l)); }
    else if l.RGBA_ETC2? { CodecFactsOfRGBA_ETC2(LayoutName(l)); }
    else if l.RGB_PVRTC_4Bpp? { CodecFactsOfRGB_PVRTC_4Bpp(LayoutName(l)); }
    else if l.RGBA_PVRTC_4Bpp? { CodecFactsOfRGBA_PVRTC_4Bpp(LayoutName(l)); }
    else if l.RGBA_ASTC4X4? { CodecFactsOfRGBA_ASTC4X4(LayoutName(l)); }
    else if l.RGBA_ASTC6X6? { CodecFactsOfRGBA_ASTC6X6(LayoutName(l)); }
    else if l.RGBA_ASTC8X8? { CodecFactsOfRGBA_ASTC8X8(LayoutName(l)); }
    else if l.RGBA_ASTC10X10? { CodecFactsOfRGBA_ASTC10X10(LayoutName(l)); }
    else { CodecFactsOfRGBA_ASTC12X12(LayoutName(l)); }
  }

  /** Which of the channel patterns of the converter's platform chain,
      both ending in '_', occur in a layout name followed by the separator
      before the kind. */
  lemma LayoutChannelFacts(l: Layout)
    ensures Contains(LayoutName(l) + "_", "R8_") <==> l == Layout.R8 || l == B8G8R8
    ensures Contains(LayoutName(l) + "_", "R16_") <==> l == Layout.R16
  {
    if l.R8? { ChannelFactsOfR8(LayoutName(l)); }
    else if l.R8G8? { ChannelFactsOfR8G8(LayoutName(l)); }
    else if l.R8G8B8? { ChannelFactsOfR8G8B8(LayoutName(l)); }
    else if l.B8G8R8? { ChannelFactsOfB8G8R8(LayoutName(l)); }
    else if l.R8G8B8A8? { ChannelFactsOfR8G8B8A8(LayoutName(l)); }
    else if l.B8G8R8A8? { ChannelFactsOfB8G8R8A8(LayoutName(l)); }
    else if l.R16? { ChannelFactsOfR16(LayoutName(l)); }
    else if l.R16G16? { ChannelFactsOfR16G16(LayoutName(l)); }
    else if l.R16G16B16A16? { ChannelFactsOfR16G16B16A16(LayoutName(l)); }
    else if l.R32? { ChannelFactsOfR32(LayoutName(l)); }
    else if l.R32G32? { ChannelFactsOfR32G32(LayoutName(l)); }
    else if l.R32G32B32? { ChannelFactsOfR32G32B32(LayoutName(l)); }
    else if l.R32G32B32A32? { ChannelFactsOfR32G32B32A32(LayoutName(l)); }
    else if l.RGBA_DXT1? { ChannelFactsOfRGBA_DXT1(LayoutName(l)); }
    else if l.RGBA_DXT5? { ChannelFactsOfRGBA_DXT5(LayoutName(l)); }
    else if l.RGB_BC6H? { ChannelFactsOfRGB_BC6H(LayoutName(l)); }
    else if l.RGBA_BC7? { ChannelFactsOfRGBA_BC7(LayoutName(l)); }
    else if l.RGB_ETC? { ChannelFactsOfRGB_ETC(LayoutName(l)); }
    else if l.RGBA_ETC2? { ChannelFactsOfRGBA_ETC2(LayoutName(l)); }
    else if l.RGB_PVRTC_4Bpp? { ChannelFactsOfRGB_PVRTC_4Bpp(LayoutName(l)); }
    else if l.RGBA_PVRTC_4Bpp? { ChannelFactsOfRGBA_PVRTC_4Bpp(LayoutName(l)); }
    else if l.RGBA_ASTC4X4? { ChannelFactsOfRGBA_ASTC4X4(LayoutName(l)); }
    else if l.RGBA_ASTC6X6? { ChannelFactsOfRGBA_ASTC6X6(LayoutName(l)); }
    else if l.RGBA_ASTC8X8? { ChannelFactsOfRGBA_ASTC8X8(LayoutName(l)); }
    else if l.RGBA_ASTC10X10? { ChannelFactsOfRGBA_ASTC10X10(LayoutName(l)); }
    else { ChannelFactsOfRGBA_ASTC12X12(LayoutName(l)); }
  }


  /** A format name is its layout name and its kind name joined by '_'. */
  lemma NameParts(f: GraphicsFormat)
    requires !f.None?
    ensures Name(f) == LayoutName(LayoutOf(f)) + ("_" + KindName(KindOf(f)))
    ensures Name(f) == (LayoutName(LayoutOf(f)) + "_") + KindName(KindOf(f))
  {
    assert LayoutName(LayoutOf(f)) + "_" + KindName(KindOf(f))
        == LayoutName(LayoutOf(f)) + ("_" + KindName(KindOf(f)));
  }

  /** The codec names the platform chain looks for occur in a format name
      exactly when its layout is that codec's. */
  lemma NameCodecFacts(f: GraphicsFormat)
    requires !f.None?
    ensures Contains(Name(f), "DXT1") <==> LayoutOf(f) == RGBA_DXT1
    ensures Contains(Name(f), "DXT5") <==> LayoutOf(f) == RGBA_DXT5
    ensures Contains(Name(f), "BC7") <==> LayoutOf(f) == RGBA_BC7
    ensures Contains(Name(f), "BC6H") <==> LayoutOf(f) == RGB_BC6H
  {
    var l, k := LayoutName(LayoutOf(f)), KindName(KindOf(f));
    NameParts(f);
    LayoutCodecFacts(LayoutOf(f));
    KindNameChars(KindOf(f));
    ContainsConcatLeftOnly(l, "_" + k, "DXT1", 0);
    ContainsConcatLeftOnly(l, "_" + k, "DXT5", 0);
    ContainsConcatLeftOnly(l, "_" + k, "BC7", 1);
    ContainsConcatLeftOnly(l, "_" + k, "BC6H", 1);
  }

  /** "R16_" occurs in a format name exactly when its layout is the
      single-channel 16-bit one, but "R8_" occurs in the names of the
      3-channel BGR formats as well as in those of the single-channel 8-bit
      layout. */
  lemma NameChannelFacts(f: GraphicsFormat)
    requires !f.None?
    ensures Contains(Name(f), "R8_") <==> LayoutOf(f) == Layout.R8 || LayoutOf(f) == B8G8R8
    ensures Contains(Name(f), "R16_") <==> LayoutOf(f) == Layout.R16
  {
    var l, k := LayoutName(LayoutOf(f)), KindName(KindOf(f));
    NameParts(f);
    LayoutChannelFacts(LayoutOf(f));
    KindNameChars(KindOf(f));
    ContainsConcatLeftOnly(l + "_", k, "R8_", 2);
    ContainsConcatLeftOnly(l + "_", k, "R16_", 3);
  }

  /** The chain as written agrees with the choice by layout everywhere but
      on the 3-channel BGR formats, whose names contain "R8_": those get the
      single-channel R8 importer format. */
  lemma ConverterPlatformFormatAsWritten(f: GraphicsFormat)
    ensures ConverterPlatformFormat(f) ==
              if !f.None? && LayoutOf(f) == B8G8R8 then ImporterFormat.R8 else CorrectedPlatformFormat(f)
  {
    if f.None? {
      PlatformFormatOfNone(f);
    } else {
      NameCodecFacts(f);
      NameChannelFacts(f);
      PlatformChainOnLayout(Name(f), LayoutOf(f));
    }
  }

  /** "None" holds none of the chain's patterns. */
  lemma PlatformFormatOfNone(f: GraphicsFormat)
    requires f.None?
    ensures ConverterPlatformFormat(f) == RGBA32
  {
    MissingCharNotContains(Name(f), "DXT1", 0);
    MissingCharNotContains(Name(f), "DXT5", 0);
    MissingCharNotContains(Name(f), "BC7", 0);
    MissingCharNotContains(Name(f), "BC6H", 0);
    MissingCharNotContains(Name(f), "R8_", 0);
    MissingCharNotContains(Name(f), "R16_", 0);
  }

  /** The 3-channel BGR format B8G8R8_UNorm is imported as single-channel R8,
      which does not store its texel. */
  lemma BgrImportedAsR8()
    ensures ConverterPlatformFormat(B8G8R8_UNorm) == ImporterFormat.R8
    ensures ImporterTexel(ConverterPlatformFormat(B8G8R8_UNorm)) != Some(LayoutTexel(LayoutOf(B8G8R8_UNorm)))
    ensures CorrectedPlatformFormat(B8G8R8_UNorm) == RGBA32
  {
    ConverterPlatformFormatAsWritten(B8G8R8_UNorm);
  }

  /** `SetImporterFormatSettings`: the sRGB flag from the list, the platform
      format from the chain; the read/write flag is left alone. */
  function ConverterImporterSettings(importer: TextureImporter, f: GraphicsFormat): (r: TextureImporter)
    ensures r.sRGBTexture ==> IsSrgb(f)
    ensures r.platformFormat == ConverterPlatformFormat(f)
    ensures r.isReadable == importer.isReadable
  {
    ConverterSrgbLayouts(f);
    importer.(sRGBTexture := ConverterSrgb(f), platformFormat := ConverterPlatformFormat(f))
  }

  /** `SetImporterFormatSettings` with the platform format chosen by layout. */
  function CorrectedImporterSettings(importer: TextureImporter, f: GraphicsFormat): (r: TextureImporter)
    ensures r.sRGBTexture ==> IsSrgb(f)
    ensures r.platformFormat != RGBA32 ==> !f.None? && ImporterTexel(r.platformFormat) == Some(LayoutTexel(LayoutOf(f)))
    ensures r.isReadable == importer.isReadable
  {
    ConverterSrgbLayouts(f);
    importer.(sRGBTexture := ConverterSrgb(f), platformFormat := CorrectedPlatformFormat(f))
  }

  /** The corrected settings differ from the source's only for a BGR8
      format, whose platform format is RGBA32 instead of R8. */
  lemma CorrectedSettingsAgree(importer: TextureImporter, f: GraphicsFormat)
    ensures CorrectedImporterSettings(importer, f) == ConverterImporterSettings(importer, f) <==>
              f.None? || LayoutOf(f) != B8G8R8
  {
    ConverterPlatformFormatAsWritten(f);
  }

  // ---------------------------------------------------------------------
  // Output path

  const ConvertedSuffix: string := "_converted.png"

  /** The path the converted copy is written to, as written: every ".png",
      then every ".jpg", then every ".tga" is replaced by "_converted.png". */
  function ConvertedPath(p: string): string {
    Replace(Replace(Replace(p, ".png", ConvertedSuffix), ".jpg", ConvertedSuffix), ".tga", ConvertedSuffix)
  }

  /** Once the suffix is in place, a later replacement of a pattern that
      lacks one of the suffix's characters finds nothing to replace. */
  lemma SuffixSurvivesReplacement(a: string, o: string, k: nat)
    requires k < |o| && o[k] !in ConvertedSuffix && ConvertedSuffix[0] !in o[1..]
    requires !Contains(a, o)
    ensures Replace(a + ConvertedSuffix, o, ConvertedSuffix) == a + ConvertedSuffix
  {
    MissingCharNotContains(ConvertedSuffix, o, k);
    ContainsConcat(a, ConvertedSuffix, o);
    ReplaceAbsent(a + ConvertedSuffix, o, ConvertedSuffix);
  }

  /** Neither of the replacements after the ".png" one touches the suffix. */
  lemma SuffixSurvivesLaterReplacements(a: string)
    requires !Contains(a, ".jpg") && !Contains(a, ".tga")
    ensures Replace(a + ConvertedSuffix, ".jpg", ConvertedSuffix) == a + ConvertedSuffix
    ensures Replace(a + ConvertedSuffix, ".tga", ConvertedSuffix) == a + ConvertedSuffix
  {
    SuffixSurvivesReplacement(a, ".jpg", 1);
    SuffixSurvivesReplacement(a, ".tga", 3);
  }

  lemma ConvertedPathOfPng(a: string)
    requires !Contains(a, ".png") && !Contains(a, ".jpg") && !Contains(a, ".tga")
    ensures ConvertedPath(a + ".png") == a + ConvertedSuffix
  {
    ReplaceSuffix(a, ".png", ConvertedSuffix);
    SuffixSurvivesLaterReplacements(a);
  }

  lemma ConvertedPathOfJpg(a: string)
    requires !Contains(a, ".png") && !Contains(a, ".jpg") && !Contains(a, ".tga")
    ensures ConvertedPath(a + ".jpg") == a + ConvertedSuffix
  {
    MissingCharNotContains(".jpg", ".png", 2);
    ContainsConcat(a, ".jpg", ".png");
    ReplaceAbsent(a + ".jpg", ".png", ConvertedSuffix);
    ReplaceSuffix(a, ".jpg", ConvertedSuffix);
    SuffixSurvivesLaterReplacements(a);
  }

  lemma ConvertedPathOfTga(a: string)
    requires !Contains(a, ".png") && !Contains(a, ".jpg") && !Contains(a, ".tga")
    ensures ConvertedPath(a + ".tga") == a + ConvertedSuffix
  {
    MissingCharNotContains(".tga", ".png", 1);
    MissingCharNotContains(".tga", ".jpg", 1);
    ContainsConcat(a, ".tga", ".png");
    ContainsConcat(a, ".tga", ".jpg");
    ReplaceAbsent(a + ".tga", ".png", ConvertedSuffix);
    ReplaceAbsent(a + ".tga", ".jpg", ConvertedSuffix);
    ReplaceSuffix(a, ".tga", ConvertedSuffix);
  }

  /** A path ending in one of the three extensions, with none of them
      earlier, gets the suffix in place of its extension. */
  lemma ConvertedPathOfExtension(a: string, ext: string)
    requires ext == ".png" || ext == ".jpg" || ext == ".tga"
    requires !Contains(a, ".png") && !Contains(a, ".jpg") && !Contains(a, ".tga")
    ensures ConvertedPath(a + ext) == a + ConvertedSuffix
  {
    if ext == ".png" {
      ConvertedPathOfPng(a);
    } else if ext == ".jpg" {
      ConvertedPathOfJpg(a);
    } else {
      ConvertedPathOfTga(a);
    }
  }

  /** A path holding none of the three extensions (an upper-case ".PNG", a
      ".jpeg", a ".psd") comes back unchanged: the copy is written over the
      source. */
  lemma ConvertedPathUnchanged(p: string)
    requires !Contains(p, ".png") && !Contains(p, ".jpg") && !Contains(p, ".tga")
    ensures ConvertedPath(p) == p
  {
    ReplaceAbsent(p, ".png", ConvertedSuffix);
    ReplaceAbsent(p, ".jpg", ConvertedSuffix);
    ReplaceAbsent(p, ".tga", ConvertedSuffix);
  }

  /** No file is named after its own stem followed by the suffix: the stem
      of such a name would end in "_converted". */
  lemma SuffixedStemIsNotTheName(p: string)
    ensures FileName(p) != FileNameWithoutExtension(p) + ConvertedSuffix
  {
    var stem := FileNameWithoutExtension(p);
    assert stem + ConvertedSuffix == (stem + "_converted") + ['.'] + "png";
    if FileName(p) == stem + ConvertedSuffix {
      StripExtension(p, stem + "_converted", "png");
    }
  }

  /** The evidently intended output path: the source's stem followed by
      "_converted.png", in the source's directory. It never names the
      source itself. */
  function CorrectedConvertedPath(p: string): (r: string)
    requires |p| > 0
    ensures r != p
    ensures FileName(r) == FileNameWithoutExtension(p) + ConvertedSuffix
  {
    var stem := FileNameWithoutExtension(p);
    CombineSplits(DirectoryName(p), stem + ConvertedSuffix);
    SuffixedStemIsNotTheName(p);
    Combine(DirectoryName(p), stem + ConvertedSuffix)
  }

  /** The directory and the stem of `dir/stem.ext`. */
  lemma PathParts(dir: string, stem: string, ext: string)
    requires ext == ".png" || ext == ".jpg" || ext == ".tga"
    requires |dir| > 0 && dir[|dir| - 1] != Separator
    requires Separator !in stem && '.' !in stem
    ensures DirectoryName(dir + [Separator] + stem + ext) == dir
    ensures FileNameWithoutExtension(dir + [Separator] + stem + ext) == stem
  {
    var p := dir + [Separator] + stem + ext;
    assert p == Combine(dir, stem + ext);
    CombineSplits(dir, stem + ext);
    assert stem + ext == stem + ['.'] + ext[1..];
    StripExtension(p, stem, ext[1..]);
  }

  /** For the paths the converter was written for, `dir/stem.ext` with one of
      the three extensions, the path as written and the corrected one
      coincide. */
  lemma ConvertedPathsAgree(dir: string, stem: string, ext: string)
    requires ext == ".png" || ext == ".jpg" || ext == ".tga"
    requires |dir| > 0 && dir[|dir| - 1] != Separator
    requires Separator !in stem && '.' !in stem
    requires var a := dir + [Separator] + stem;
             !Contains(a, ".png") && !Contains(a, ".jpg") && !Contains(a, ".tga")
    ensures ConvertedPath(dir + [Separator] + stem + ext) == CorrectedConvertedPath(dir + [Separator] + stem + ext)
  {
    var a := dir + [Separator] + stem;
    assert dir + [Separator] + stem + ext == a + ext;
    ConvertedPathOfExtension(a, ext);
    CorrectedConvertedPathOfParts(dir, stem, ext);
  }

  /** The corrected path of `dir/stem.ext`. */
  lemma CorrectedConvertedPathOfParts(dir: string, stem: string, ext: string)
    requires ext == ".png" || ext == ".jpg" || ext == ".tga"
    requires |dir| > 0 && dir[|dir| - 1] != Separator
    requires Separator !in stem && '.' !in stem
    ensures CorrectedConvertedPath(dir + [Separator] + stem + ext) == dir + [Separator] + stem + ConvertedSuffix
  {
    var p := dir + [Separator] + stem + ext;
    PathParts(dir, stem, ext);
    assert CorrectedConvertedPath(p) == Combine(dir, stem + ConvertedSuffix);
    assert dir + [Separator] + (stem + ConvertedSuffix) == dir + [Separator] + stem + ConvertedSuffix;
  }

  // ---------------------------------------------------------------------
  // Format list and search

  /** The converter's `formatDescriptions`. */
  function ConverterDescriptions(): map<GraphicsFormat, string> {
    map[
    R8G8B8A8_UNorm := "标准RGBA 8位（推荐用于大多数纹理）",
    R8G8B8A8_SRGB := "sRGB RGBA 8位（用于颜色纹理）",
    R8G8B8_UNorm := "RGB 8位（无透明通道）",
    R8G8B8_SRGB := "sRGB RGB 8位（无透明通道）",
    R16G16B16A16_SFloat := "半精度浮点RGBA（HDR纹理）",
    R32G32B32A32_SFloat := "全精度浮点RGBA（高精度HDR）",
    R8_UNorm := "单通道8位（灰度图）",
    R16_UNorm := "单通道16位（高精度高度图）",
    R16_SNorm := "单通道16位（高精度单通道）",
    R16_UInt := "单通道16位（高精度单通道）",
    R16_SInt := "单通道16位（高精度单通道）",
    R16_SFloat := "单通道16位（高精度单通道）",
    R32_SFloat := "单通道32位浮点（高精度数据）",
    RGBA_DXT1_UNorm := "DXT1压缩（无透明）",
    RGBA_DXT1_SRGB := "DXT1压缩sRGB（无透明）",
    RGBA_DXT5_UNorm := "DXT5压缩（带透明）",
    RGBA_DXT5_SRGB := "DXT5压缩sRGB（带透明）",
    RGB_BC6H_UFloat := "BC6H压缩（HDR）",
    RGBA_BC7_UNorm := "BC7压缩（高质量）",
    RGBA_BC7_SRGB := "BC7压缩sRGB（高质量颜色）"
  ]
  }

  /** Whether the search box lets a format through, as written: it is
      skipped when the filter is non-empty, the lower-cased name does not
      contain the lower-cased filter, and there is no description or the
      lower-cased description does not contain it either. */
  predicate ConverterShows(f: GraphicsFormat, filter: string) {
    !(|filter| > 0 &&
      !Contains(Lower(Name(f)), Lower(filter)) &&
      (f !in ConverterDescriptions() || !Contains(Lower(ConverterDescriptions()[f]), Lower(filter))))
  }

  /** A format is shown exactly when the filter is empty, or its name or its
      description contains the filter ignoring case. */
  lemma ConverterShowsIff(f: GraphicsFormat, filter: string)
    ensures ConverterShows(f, filter) <==>
              |filter| == 0 || ContainsIgnoringCase(Name(f), filter) ||
              (f in ConverterDescriptions() && ContainsIgnoringCase(ConverterDescriptions()[f], filter))
  {
    ContainsLowerIffIgnoringCase(Name(f), filter);
    if f in ConverterDescriptions() {
      ContainsLowerIffIgnoringCase(ConverterDescriptions()[f], filter);
    }
  }

  /** The test `GetAvailableFormats` applies to each enum value. `support`
      is the platform's `SystemInfo.IsFormatSupported(f, Sample)`, with
      `Nothing` for a call that throws, which the loop swallows. */
  function Available(compatibleOnly: bool, support: GraphicsFormat -> Option<bool>): GraphicsFormat -> bool {
    (g: GraphicsFormat) => !g.None? && (!compatibleOnly || support(g) == Some(true))
  }

  /** `GetAvailableFormats`: the enum values other than `None`, and in the
      compatible-only mode only those the platform can sample. */
  function GetAvailableFormats(compatibleOnly: bool, support: GraphicsFormat -> Option<bool>): (r: seq<GraphicsFormat>)
    ensures forall g :: g in r <==> !g.None? && (!compatibleOnly || support(g) == Some(true))
    ensures None !in r
  {
    AllFormatsComplete();
    FilterContainsAll(AllFormats(), Available(compatibleOnly, support));
    Filter(AllFormats(), Available(compatibleOnly, support))
  }

  /** The available formats keep the enum's order. */
  lemma AvailableFormatsInEnumOrder(compatibleOnly: bool, support: GraphicsFormat -> Option<bool>)
    ensures SubsequenceOf(GetAvailableFormats(compatibleOnly, support), AllFormats())
  {
    FilterIsSubsequence(AllFormats(), Available(compatibleOnly, support));
  }

  /** The search filter as a list predicate. */
  function Shown(filter: string): GraphicsFormat -> bool {
    (g: GraphicsFormat) => ConverterShows(g, filter)
  }

  /** The rows the window lists: the available formats the search lets
      through, in the order of their values. */
  function ConverterRows(filter: string, compatibleOnly: bool, support: GraphicsFormat -> Option<bool>): (r: seq<GraphicsFormat>)
    ensures forall g :: g in r <==>
              !g.None? && (!compatibleOnly || support(g) == Some(true)) &&
              (|filter| == 0 || ContainsIgnoringCase(Name(g), filter) ||
               (g in ConverterDescriptions() && ContainsIgnoringCase(ConverterDescriptions()[g], filter)))
    ensures SubsequenceOf(r, GetAvailableFormats(compatibleOnly, support))
  {
    var avail := GetAvailableFormats(compatibleOnly, support);
    FilterContainsAll(avail, Shown(filter));
    FilterIsSubsequence(avail, Shown(filter));
    forall g | true
      ensures ConverterShows(g, filter) <==>
                |filter| == 0 || ContainsIgnoringCase(Name(g), filter) ||
                (g in ConverterDescriptions() && ContainsIgnoringCase(ConverterDescriptions()[g], filter))
    {
      ConverterShowsIff(g, filter);
    }
    Filter(avail, Shown(filter))
  }

  // ---------------------------------------------------------------------
  // The conversion

  /** Why `ConvertTextureFormat` stops before converting, in the order it
      checks. */
  datatype ConvertRefusal = NoSource | NoAssetPath | NoImporter

  /** What a conversion leaves behind: a refusal; the importers and the path
      the copy was written to; or, after an exception inside the conversion,
      the importers as the exception left them. */
  datatype ConvertOutcome =
    | ConvertRefused(reason: ConvertRefusal)
    | Converted(importers: Importers, written: string)
    | ConvertFailed(importers: Importers)

  /** `b` agrees with `a` on every path but `p` and `q`. */
  predicate SameOutside(a: Importers, b: Importers, p: string, q: string) {
    forall x :: x in a && x != p && x != q ==> x in b && b[x] == a[x]
  }

  /** The importers with the source's read/write flag switched on, as the
      conversion does before reading the pixels when the flag was off. */
  function MakeReadable(importers: Importers, path: string): (r: Importers)
    requires path in importers
    ensures path in r && r[path].isReadable
    ensures importers[path].isReadable ==> r == importers
    ensures SameOutside(importers, r, path, path)
  {
    if importers[path].isReadable then importers else importers[path := importers[path].(isReadable := true)]
  }

  /** The source's read/write flag set back to `wasReadable` when that was
      off, as the conversion does after writing the copy. */
  function RestoreReadable(importers: Importers, path: string, wasReadable: bool): Importers
    requires path in importers
  {
    if !wasReadable then importers[path := importers[path].(isReadable := wasReadable)] else importers
  }

  /** Restoring the flag undoes switching it on. */
  lemma RestoreUndoesMakeReadable(importers: Importers, path: string)
    requires path in importers
    ensures RestoreReadable(MakeReadable(importers, path), path, importers[path].isReadable) == importers
  {
    if !importers[path].isReadable {
      var m := MakeReadable(importers, path);
      assert RestoreReadable(m, path, false) == importers[path := importers[path]];
    }
  }

  /** The refresh that gives a newly written copy its importer, then the
      settings applied to the copy's importer. The settings leave its
      read/write flag alone, so the copy keeps the flag of the importer
      found at its path, not the source's. */
  function ImportCopy(importers: Importers, newPath: string, f: GraphicsFormat, created: Option<TextureImporter>): (r: Importers)
    ensures newPath in r <==> newPath in importers || created.Some?
    ensures newPath in r ==>
              r[newPath].sRGBTexture == ConverterSrgb(f) && r[newPath].platformFormat == CorrectedPlatformFormat(f)
    ensures newPath in r ==>
              r[newPath].isReadable == (if newPath in importers then importers[newPath] else created.value).isReadable
    ensures SameOutside(importers, r, newPath, newPath)
  {
    var refreshed := if newPath !in importers && created.Some? then importers[newPath := created.value] else importers;
    if newPath in refreshed then refreshed[newPath := CorrectedImporterSettings(refreshed[newPath], f)]
    else refreshed
  }

  /** `ConvertTextureFormat` for the texture `source` and the selected format
      `f`, with the output path and the platform format corrected as
      `CorrectedConvertedPath` and `CorrectedPlatformFormat` say. `fails`
      says whether the conversion throws between the read/write toggle and
      its restore (creating a texture of a format the platform cannot
      create, encoding, writing the file); `created` is the importer the
      asset database refresh gives a newly written file. */
  function ConvertTextureFormat(source: Option<Texture2D>, f: GraphicsFormat, importers: Importers, fails: bool,
                                created: Option<TextureImporter>): (r: ConvertOutcome)
    ensures source.Nothing? ==> r == ConvertRefused(NoSource)
    ensures source.Some? && |source.value.assetPath| == 0 ==> r == ConvertRefused(NoAssetPath)
    ensures source.Some? && |source.value.assetPath| > 0 && source.value.assetPath !in importers ==>
              r == ConvertRefused(NoImporter)
    ensures !r.ConvertRefused? ==>
              var path := source.value.assetPath;
              path in importers && path in r.importers &&
              (r.Converted? ==> r.written == CorrectedConvertedPath(path) && r.written != path &&
                                r.importers[path] == importers[path] &&
                                (r.written in r.importers <==> r.written in importers || created.Some?) &&
                                (r.written in r.importers ==>
                                   r.importers[r.written].sRGBTexture == ConverterSrgb(f) &&
                                   r.importers[r.written].platformFormat == CorrectedPlatformFormat(f)) &&
                                SameOutside(importers, r.importers, path, r.written)) &&
              (r.ConvertFailed? ==> r.importers[path].isReadable &&
                                    SameOutside(importers, r.importers, path, path) &&
                                    (importers[path].isReadable ==> r.importers == importers))
    ensures r.ConvertFailed? <==>
              source.Some? && |source.value.assetPath| > 0 && source.value.assetPath in importers && fails
  {
    if source.Nothing? then ConvertRefused(NoSource)
    else
      var path := source.value.assetPath;
      if |path| == 0 then ConvertRefused(NoAssetPath)
      else if path !in importers then ConvertRefused(NoImporter)
      else
        var wasReadable := importers[path].isReadable;
        var toggled := MakeReadable(importers, path);
        if fails then ConvertFailed(toggled)
        else
          var newPath := CorrectedConvertedPath(path);
          RestoreUndoesMakeReadable(importers, path);
          var configured := ImportCopy(RestoreReadable(toggled, path, wasReadable), newPath, f, created);
          Converted(configured, newPath)
  }

  // ---------------------------------------------------------------------
  // Case splits
  //
  // The properties above quantify over every format or layout. The
  // solver proves each for a few enum cases at a time, in the lemmas
  // below, which the properties' bodies dispatch to.

  // The cases of `ConverterBytesPerPixelIsTexelSize`, a few at a time.
  lemma ConverterBytesPerPixelIsTexelSizePart1(f: GraphicsFormat)
    requires f.None? || f.R8_SRGB? || f.R8_UNorm? || f.R8_SNorm? || f.R8_UInt? || f.R8_SInt? || f.R8G8_SRGB? || f.R8G8_UNorm? || f.R8G8_SNorm? || f.R8G8_UInt?
    ensures ConverterBytesPerPixel(f) == if ConverterListed(f) then ReferenceBytesPerPixel(f) else 4
  {
  }

  lemma ConverterBytesPerPixelIsTexelSizePart2(f: GraphicsFormat)
    requires f.R8G8_SInt? || f.R8G8B8_SRGB? || f.R8G8B8_UNorm? || f.R8G8B8_SNorm? || f.R8G8B8_UInt? || f.R8G8B8_SInt? || f.B8G8R8_SRGB? || f.B8G8R8_UNorm?
    ensures ConverterBytesPerPixel(f) == if ConverterListed(f) then ReferenceBytesPerPixel(f) else 4
  {
  }

  lemma ConverterBytesPerPixelIsTexelSizePart3(f: GraphicsFormat)
    requires f.R8G8B8A8_SRGB? || f.R8G8B8A8_UNorm? || f.R8G8B8A8_SNorm? || f.R8G8B8A8_UInt? || f.R8G8B8A8_SInt?
    ensures ConverterBytesPerPixel(f) == if ConverterListed(f) then ReferenceBytesPerPixel(f) else 4
  {
  }

  lemma ConverterBytesPerPixelIsTexelSizePart4(f: GraphicsFormat)
    requires f.B8G8R8A8_SRGB? || f.B8G8R8A8_UNorm? || f.R16_UNorm? || f.R16_SNorm?
    ensures ConverterBytesPerPixel(f) == if ConverterListed(f) then ReferenceBytesPerPixel(f) else 4
  {
  }

  lemma ConverterBytesPerPixelIsTexelSizePart5(f: GraphicsFormat)
    requires f.R16_UInt? || f.R16_SInt? || f.R16_SFloat?
    ensures ConverterBytesPerPixel(f) == if ConverterListed(f) then ReferenceBytesPerPixel(f) else 4
  {
  }

  lemma ConverterBytesPerPixelIsTexelSizePart6(f: GraphicsFormat)
    requires f.R16G16_UNorm? || f.R16G16_SNorm? || f.R16G16_UInt?
    ensures ConverterBytesPerPixel(f) == if ConverterListed(f) then ReferenceBytesPerPixel(f) else 4
  {
  }

  lemma ConverterBytesPerPixelIsTexelSizePart7(f: GraphicsFormat)
    requires f.R16G16_SInt? || f.R16G16_SFloat? || f.R16G16B16A16_UNorm?
    ensures ConverterBytesPerPixel(f) == if ConverterListed(f) then ReferenceBytesPerPixel(f) else 4
  {
  }

  lemma ConverterBytesPerPixelIsTexelSizePart8(f: GraphicsFormat)
    requires f.R16G16B16A16_SNorm? || f.R16G16B16A16_UInt? || f.R16G16B16A16_SInt?
    ensures ConverterBytesPerPixel(f) == if ConverterListed(f) then ReferenceBytesPerPixel(f) else 4
  {
  }

  lemma ConverterBytesPerPixelIsTexelSizePart9(f: GraphicsFormat)
    requires f.R16G16B16A16_SFloat? || f.R32_UInt?
    ensures ConverterBytesPerPixel(f) == if ConverterListed(f) then ReferenceBytesPerPixel(f) else 4
  {
  }

  lemma ConverterBytesPerPixelIsTexelSizePart10(f: GraphicsFormat)
    requires f.R32_SInt? || f.R32_SFloat?
    ensures ConverterBytesPerPixel(f) == if ConverterListed(f) then ReferenceBytesPerPixel(f) else 4
  {
  }

  lemma ConverterBytesPerPixelIsTexelSizePart11(f: GraphicsFormat)
    requires f.R32G32_UInt? || f.R32G32_SInt?
    ensures ConverterBytesPerPixel(f) == if ConverterListed(f) then ReferenceBytesPerPixel(f) else 4
  {
  }

  lemma ConverterBytesPerPixelIsTexelSizePart12(f: GraphicsFormat)
    requires f.R32G32_SFloat? || f.R32G32B32_SFloat?
    ensures ConverterBytesPerPixel(f) == if ConverterListed(f) then ReferenceBytesPerPixel(f) else 4
  {
  }

  lemma ConverterBytesPerPixelIsTexelSizePart13(f: GraphicsFormat)
    requires f.R32G32B32A32_UInt? || f.R32G32B32A32_SInt?
    ensures ConverterBytesPerPixel(f) == if ConverterListed(f) then ReferenceBytesPerPixel(f) else 4
  {
  }

  lemma ConverterBytesPerPixelIsTexelSizePart14(f: GraphicsFormat)
    requires f.R32G32B32A32_SFloat? || f.RGBA_DXT1_SRGB?
    ensures ConverterBytesPerPixel(f) == if ConverterListed(f) then ReferenceBytesPerPixel(f) else 4
  {
  }

  lemma ConverterBytesPerPixelIsTexelSizePart15(f: GraphicsFormat)
    requires f.RGBA_DXT1_UNorm? || f.RGBA_DXT5_SRGB?
    ensures ConverterBytesPerPixel(f) == if ConverterListed(f) then ReferenceBytesPerPixel(f) else 4
  {
  }

  lemma ConverterBytesPerPixelIsTexelSizePart16(f: GraphicsFormat)
    requires f.RGBA_DXT5_UNorm? || f.RGB_BC6H_UFloat?
    ensures ConverterBytesPerPixel(f) == if ConverterListed(f) then ReferenceBytesPerPixel(f) else 4
  {
  }

  lemma ConverterBytesPerPixelIsTexelSizePart17(f: GraphicsFormat)
    requires f.RGB_BC6H_SFloat? || f.RGBA_BC7_SRGB?
    ensures ConverterBytesPerPixel(f) == if ConverterListed(f) then ReferenceBytesPerPixel(f) else 4
  {
  }

  lemma ConverterBytesPerPixelIsTexelSizePart18(f: GraphicsFormat)
    requires f.RGBA_BC7_UNorm? || f.RGB_ETC_UNorm?
    ensures ConverterBytesPerPixel(f) == if ConverterListed(f) then ReferenceBytesPerPixel(f) else 4
  {
  }

  lemma ConverterBytesPerPixelIsTexelSizePart19(f: GraphicsFormat)
    requires f.RGBA_ETC2_SRGB? || f.RGBA_ETC2_UNorm?
    ensures ConverterBytesPerPixel(f) == if ConverterListed(f) then ReferenceBytesPerPixel(f) else 4
  {
  }

  lemma ConverterBytesPerPixelIsTexelSizePart20(f: GraphicsFormat)
    requires f.RGB_PVRTC_4Bpp_UNorm? || f.RGBA_PVRTC_4Bpp_UNorm?
    ensures ConverterBytesPerPixel(f) == if ConverterListed(f) then ReferenceBytesPerPixel(f) else 4
  {
  }

  lemma ConverterBytesPerPixelIsTexelSizePart21(f: GraphicsFormat)
    requires f.RGBA_ASTC4X4_SRGB? || f.RGBA_ASTC4X4_UNorm?
    ensures ConverterBytesPerPixel(f) == if ConverterListed(f) then ReferenceBytesPerPixel(f) else 4
  {
  }

  lemma ConverterBytesPerPixelIsTexelSizePart22(f: GraphicsFormat)
    requires f.RGBA_ASTC6X6_SRGB? || f.RGBA_ASTC6X6_UNorm?
    ensures ConverterBytesPerPixel(f) == if ConverterListed(f) then ReferenceBytesPerPixel(f) else 4
  {
  }

  lemma ConverterBytesPerPixelIsTexelSizePart23(f: GraphicsFormat)
    requires f.RGBA_ASTC8X8_UNorm? || f.RGBA_ASTC10X10_UNorm?
    ensures ConverterBytesPerPixel(f) == if ConverterListed(f) then ReferenceBytesPerPixel(f) else 4
  {
  }

  lemma ConverterBytesPerPixelIsTexelSizePart24(f: GraphicsFormat)
    requires f.RGBA_ASTC12X12_UNorm?
    ensures ConverterBytesPerPixel(f) == if ConverterListed(f) then ReferenceBytesPerPixel(f) else 4
  {
  }

  // The sRGB formats of `ConverterSrgbLayouts`, a few at a time.
  lemma SrgbLayoutsPart1(f: GraphicsFormat)
    requires f.R8_SRGB? || f.R8G8_SRGB? || f.R8G8B8_SRGB? || f.B8G8R8_SRGB?
    ensures ConverterSrgb(f) <==> LayoutOf(f) in {R8G8B8A8, R8G8B8, RGBA_DXT1, RGBA_DXT5, RGBA_BC7}
  {
  }

  lemma SrgbLayoutsPart2(f: GraphicsFormat)
    requires f.R8G8B8A8_SRGB? || f.B8G8R8A8_SRGB? || f.RGBA_DXT1_SRGB? || f.RGBA_DXT5_SRGB?
    ensures ConverterSrgb(f) <==> LayoutOf(f) in {R8G8B8A8, R8G8B8, RGBA_DXT1, RGBA_DXT5, RGBA_BC7}
  {
  }

  lemma SrgbLayoutsPart3(f: GraphicsFormat)
    requires f.RGBA_BC7_SRGB? || f.RGBA_ETC2_SRGB? || f.RGBA_ASTC4X4_SRGB? || f.RGBA_ASTC6X6_SRGB?
    ensures ConverterSrgb(f) <==> LayoutOf(f) in {R8G8B8A8, R8G8B8, RGBA_DXT1, RGBA_DXT5, RGBA_BC7}
  {
  }

  // `LayoutCodecFacts`, one layout name at a time.

  lemma CodecFactsOfR8(s: string)
    requires s == "R8"
    ensures !Contains(s, "DXT1")
    ensures !Contains(s, "DXT5")
    ensures !Contains(s, "BC7")
    ensures !Contains(s, "BC6H")
  {
    MissingCharNotContains(s, "DXT1", 0);
    MissingCharNotContains(s, "DXT5", 0);
    MissingCharNotContains(s, "BC7", 0);
    MissingCharNotContains(s, "BC6H", 0);
  }

  lemma CodecFactsOfR8G8(s: string)
    requires s == "R8G8"
    ensures !Contains(s, "DXT1")
    ensures !Contains(s, "DXT5")
    ensures !Contains(s, "BC7")
    ensures !Contains(s, "BC6H")
  {
    MissingCharNotContains(s, "DXT1", 0);
    MissingCharNotContains(s, "DXT5", 0);
    MissingCharNotContains(s, "BC7", 0);
    MissingCharNotContains(s, "BC6H", 0);
  }

  lemma CodecFactsOfR8G8B8(s: string)
    requires s == "R8G8B8"
    ensures !Contains(s, "DXT1")
    ensures !Contains(s, "DXT5")
    ensures !Contains(s, "BC7")
    ensures !Contains(s, "BC6H")
  {
    MissingCharNotContains(s, "DXT1", 0);
    MissingCharNotContains(s, "DXT5", 0);
    MissingCharNotContains(s, "BC7", 1);
    MissingCharNotContains(s, "BC6H", 1);
  }

  lemma CodecFactsOfB8G8R8(s: string)
    requires s == "B8G8R8"
    ensures !Contains(s, "DXT1")
    ensures !Contains(s, "DXT5")
    ensures !Contains(s, "BC7")
    ensures !Contains(s, "BC6H")
  {
    MissingCharNotContains(s, "DXT1", 0);
    MissingCharNotContains(s, "DXT5", 0);
    MissingCharNotContains(s, "BC7", 1);
    MissingCharNotContains(s, "BC6H", 1);
  }

  lemma CodecFactsOfR8G8B8A8(s: string)
    requires s == "R8G8B8A8"
    ensures !Contains(s, "DXT1")
    ensures !Contains(s, "DXT5")
    ensures !Contains(s, "BC7")
    ensures !Contains(s, "BC6H")
  {
    MissingCharNotContains(s, "DXT1", 0);
    MissingCharNotContains(s, "DXT5", 0);
    MissingCharNotContains(s, "BC7", 1);
    MissingCharNotContains(s, "BC6H", 1);
  }

  lemma CodecFactsOfB8G8R8A8(s: string)
    requires s == "B8G8R8A8"
    ensures !Contains(s, "DXT1")
    ensures !Contains(s, "DXT5")
    ensures !Contains(s, "BC7")
    ensures !Contains(s, "BC6H")
  {
    MissingCharNotContains(s, "DXT1", 0);
    MissingCharNotContains(s, "DXT5", 0);
    MissingCharNotContains(s, "BC7", 1);
    MissingCharNotContains(s, "BC6H", 1);
  }

  lemma CodecFactsOfR16(s: string)
    requires s == "R16"
    ensures !Contains(s, "DXT1")
    ensures !Contains(s, "DXT5")
    ensures !Contains(s, "BC7")
    ensures !Contains(s, "BC6H")
  {
    MissingCharNotContains(s, "DXT1", 0);
    MissingCharNotContains(s, "DXT5", 0);
    MissingCharNotContains(s, "BC7", 0);
    MissingCharNotContains(s, "BC6H", 0);
  }

  lemma CodecFactsOfR16G16(s: string)
    requires s == "R16G16"
    ensures !Contains(s, "DXT1")
    ensures !Contains(s, "DXT5")
    ensures !Contains(s, "BC7")
    ensures !Contains(s, "BC6H")
  {
    MissingCharNotContains(s, "DXT1", 0);
    MissingCharNotContains(s, "DXT5", 0);
    MissingCharNotContains(s, "BC7", 0);
    MissingCharNotContains(s, "BC6H", 0);
  }

  lemma CodecFactsOfR16G16B16A16(s: string)
    requires s == "R16G16B16A16"
    ensures !Contains(s, "DXT1")
    ensures !Contains(s, "DXT5")
    ensures !Contains(s, "BC7")
    ensures !Contains(s, "BC6H")
  {
    MissingCharNotContains(s, "DXT1", 0);
    MissingCharNotContains(s, "DXT5", 0);
    MissingCharNotContains(s, "BC7", 1);
    MissingCharNotContains(s, "BC6H", 1);
  }

  lemma CodecFactsOfR32(s: string)
    requires s == "R32"
    ensures !Contains(s, "DXT1")
    ensures !Contains(s, "DXT5")
    ensures !Contains(s, "BC7")
    ensures !Contains(s, "BC6H")
  {
    MissingCharNotContains(s, "DXT1", 0);
    MissingCharNotContains(s, "DXT5", 0);
    MissingCharNotContains(s, "BC7", 0);
    MissingCharNotContains(s, "BC6H", 0);
  }

  lemma CodecFactsOfR32G32(s: string)
    requires s == "R32G32"
    ensures !Contains(s, "DXT1")
    ensures !Contains(s, "DXT5")
    ensures !Contains(s, "BC7")
    ensures !Contains(s, "BC6H")
  {
    MissingCharNotContains(s, "DXT1", 0);
    MissingCharNotContains(s, "DXT5", 0);
    MissingCharNotContains(s, "BC7", 0);
    MissingCharNotContains(s, "BC6H", 0);
  }

  lemma CodecFactsOfR32G32B32(s: string)
    requires s == "R32G32B32"
    ensures !Contains(s, "DXT1")
    ensures !Contains(s, "DXT5")
    ensures !Contains(s, "BC7")
    ensures !Contains(s, "BC6H")
  {
    MissingCharNotContains(s, "DXT1", 0);
    MissingCharNotContains(s, "DXT5", 0);
    MissingCharNotContains(s, "BC7", 1);
    MissingCharNotContains(s, "BC6H", 1);
  }

  lemma CodecFactsOfR32G32B32A32(s: string)
    requires s == "R32G32B32A32"
    ensures !Contains(s, "DXT1")
    ensures !Contains(s, "DXT5")
    ensures !Contains(s, "BC7")
    ensures !Contains(s, "BC6H")
  {
    MissingCharNotContains(s, "DXT1", 0);
    MissingCharNotContains(s, "DXT5", 0);
    MissingCharNotContains(s, "BC7", 1);
    MissingCharNotContains(s, "BC6H", 1);
  }

  lemma CodecFactsOfRGBA_DXT1(s: string)
    requires s == "RGBA_DXT1"
    ensures Contains(s, "DXT1")
    ensures !Contains(s, "DXT5")
    ensures !Contains(s, "BC7")
    ensures !Contains(s, "BC6H")
  {
    OccursAtWitness(s, "DXT1", 5);
    MissingCharNotContains(s, "DXT5", 3);
    MissingCharNotContains(s, "BC7", 1);
    MissingCharNotContains(s, "BC6H", 1);
  }

  lemma CodecFactsOfRGBA_DXT5(s: string)
    requires s == "RGBA_DXT5"
    ensures !Contains(s, "DXT1")
    ensures Contains(s, "DXT5")
    ensures !Contains(s, "BC7")
    ensures !Contains(s, "BC6H")
  {
    MissingCharNotContains(s, "DXT1", 3);
    OccursAtWitness(s, "DXT5", 5);
    MissingCharNotContains(s, "BC7", 1);
    MissingCharNotContains(s, "BC6H", 1);
  }

  lemma CodecFactsOfRGB_BC6H(s: string)
    requires s == "RGB_BC6H"
    ensures !Contains(s, "DXT1")
    ensures !Contains(s, "DXT5")
    ensures !Contains(s, "BC7")
    ensures Contains(s, "BC6H")
  {
    MissingCharNotContains(s, "DXT1", 0);
    MissingCharNotContains(s, "DXT5", 0);
    MissingCharNotContains(s, "BC7", 2);
    OccursAtWitness(s, "BC6H", 4);
  }

  lemma CodecFactsOfRGBA_BC7(s: string)
    requires s == "RGBA_BC7"
    ensures !Contains(s, "DXT1")
    ensures !Contains(s, "DXT5")
    ensures Contains(s, "BC7")
    ensures !Contains(s, "BC6H")
  {
    MissingCharNotContains(s, "DXT1", 0);
    MissingCharNotContains(s, "DXT5", 0);
    OccursAtWitness(s, "BC7", 5);
    MissingCharNotContains(s, "BC6H", 2);
  }

  lemma CodecFactsOfRGB_ETC(s: string)
    requires s == "RGB_ETC"
    ensures !Contains(s, "DXT1")
    ensures !Contains(s, "DXT5")
    ensures !Contains(s, "BC7")
    ensures !Contains(s, "BC6H")
  {
    MissingCharNotContains(s, "DXT1", 0);
    MissingCharNotContains(s, "DXT5", 0);
    MissingCharNotContains(s, "BC7", 2);
    MissingCharNotContains(s, "BC6H", 2);
  }

  lemma CodecFactsOfRGBA_ETC2(s: string)
    requires s == "RGBA_ETC2"
    ensures !Contains(s, "DXT1")
    ensures !Contains(s, "DXT5")
    ensures !Contains(s, "BC7")
    ensures !Contains(s, "BC6H")
  {
    MissingCharNotContains(s, "DXT1", 0);
    MissingCharNotContains(s, "DXT5", 0);
    MissingCharNotContains(s, "BC7", 2);
    MissingCharNotContains(s, "BC6H", 2);
  }

  lemma CodecFactsOfRGB_PVRTC_4Bpp(s: string)
    requires s == "RGB_PVRTC_4Bpp"
    ensures !Contains(s, "DXT1")
    ensures !Contains(s, "DXT5")
    ensures !Contains(s, "BC7")
    ensures !Contains(s, "BC6H")
  {
    MissingCharNotContains(s, "DXT1", 0);
    MissingCharNotContains(s, "DXT5", 0);
    MissingCharNotContains(s, "BC7", 2);
    MissingCharNotContains(s, "BC6H", 2);
  }

  lemma CodecFactsOfRGBA_PVRTC_4Bpp(s: string)
    requires s == "RGBA_PVRTC_4Bpp"
    ensures !Contains(s, "DXT1")
    ensures !Contains(s, "DXT5")
    ensures !Contains(s, "BC7")
    ensures !Contains(s, "BC6H")
  {
    MissingCharNotContains(s, "DXT1", 0);
    MissingCharNotContains(s, "DXT5", 0);
    MissingCharNotContains(s, "BC7", 2);
    MissingCharNotContains(s, "BC6H", 2);
  }

  lemma CodecFactsOfRGBA_ASTC4X4(s: string)
    requires s == AstcPrefix + "4X4"
    ensures !Contains(s, "DXT1")
    ensures !Contains(s, "DXT5")
    ensures !Contains(s, "BC7")
    ensures !Contains(s, "BC6H")
  {
    MissingCharNotContains(s, "DXT1", 0);
    MissingCharNotContains(s, "DXT5", 0);
    MissingCharNotContains(s, "BC7", 2);
    MissingCharNotContains(s, "BC6H", 2);
  }

  lemma CodecFactsOfRGBA_ASTC6X6(s: string)
    requires s == AstcPrefix + "6X6"
    ensures !Contains(s, "DXT1")
    ensures !Contains(s, "DXT5")
    ensures !Contains(s, "BC7")
    ensures !Contains(s, "BC6H")
  {
    MissingCharNotContains(s, "DXT1", 0);
    MissingCharNotContains(s, "DXT5", 0);
    MissingCharNotContains(s, "BC7", 2);
    MissingCharNotContains(s, "BC6H", 3);
  }

  lemma CodecFactsOfRGBA_ASTC8X8(s: string)
    requires s == AstcPrefix + "8X8"
    ensures !Contains(s, "DXT1")
    ensures !Contains(s, "DXT5")
    ensures !Contains(s, "BC7")
    ensures !Contains(s, "BC6H")
  {
    MissingCharNotContains(s, "DXT1", 0);
    MissingCharNotContains(s, "DXT5", 0);
    MissingCharNotContains(s, "BC7", 2);
    MissingCharNotContains(s, "BC6H", 2);
  }

  lemma CodecFactsOfRGBA_ASTC10X10(s: string)
    requires s == AstcPrefix + "10X10"
    ensures !Contains(s, "DXT1")
    ensures !Contains(s, "DXT5")
    ensures !Contains(s, "BC7")
    ensures !Contains(s, "BC6H")
  {
    MissingCharNotContains(s, "DXT1", 0);
    MissingCharNotContains(s, "DXT5", 0);
    MissingCharNotContains(s, "BC7", 2);
    MissingCharNotContains(s, "BC6H", 2);
  }

  lemma CodecFactsOfRGBA_ASTC12X12(s: string)
    requires s == AstcPrefix + "12X12"
    ensures !Contains(s, "DXT1")
    ensures !Contains(s, "DXT5")
    ensures !Contains(s, "BC7")
    ensures !Contains(s, "BC6H")
  {
    MissingCharNotContains(s, "DXT1", 0);
    MissingCharNotContains(s, "DXT5", 0);
    MissingCharNotContains(s, "BC7", 2);
    MissingCharNotContains(s, "BC6H", 2);
  }

  // `LayoutChannelFacts`, one layout name at a time.

  lemma ChannelFactsOfR8(s: string)
    requires s == "R8"
    ensures Contains(s + "_", "R8_")
    ensures !Contains(s + "_", "R16_")
  {
    OccursAtWitness(s + "_", "R8_", 0);
    MissingCharNotContains(s + "_", "R16_", 1);
  }

  lemma ChannelFactsOfR8G8(s: string)
    requires s == "R8G8"
    ensures !Contains(s + "_", "R8_")
    ensures !Contains(s + "_", "R16_")
  {
    NotContainsSplit(s + "_", "R8_", 2, 2, 0);
    MissingCharNotContains(s + "_", "R16_", 1);
  }

  lemma ChannelFactsOfR8G8B8(s: string)
    requires s == "R8G8B8"
    ensures !Contains(s + "_", "R8_")
    ensures !Contains(s + "_", "R16_")
  {
    NotContainsSplit(s + "_", "R8_", 2, 2, 0);
    MissingCharNotContains(s + "_", "R16_", 1);
  }

  lemma ChannelFactsOfB8G8R8(s: string)
    requires s == "B8G8R8"
    ensures Contains(s + "_", "R8_")
    ensures !Contains(s + "_", "R16_")
  {
    OccursAtWitness(s + "_", "R8_", 4);
    MissingCharNotContains(s + "_", "R16_", 1);
  }

  lemma ChannelFactsOfR8G8B8A8(s: string)
    requires s == "R8G8B8A8"
    ensures !Contains(s + "_", "R8_")
    ensures !Contains(s + "_", "R16_")
  {
    NotContainsSplit(s + "_", "R8_", 2, 2, 0);
    MissingCharNotContains(s + "_", "R16_", 1);
  }

  lemma ChannelFactsOfB8G8R8A8(s: string)
    requires s == "B8G8R8A8"
    ensures !Contains(s + "_", "R8_")
    ensures !Contains(s + "_", "R16_")
  {
    NotContainsSplit(s + "_", "R8_", 6, 2, 0);
    MissingCharNotContains(s + "_", "R16_", 1);
  }

  lemma ChannelFactsOfR16(s: string)
    requires s == "R16"
    ensures !Contains(s + "_", "R8_")
    ensures Contains(s + "_", "R16_")
  {
    MissingCharNotContains(s + "_", "R8_", 1);
    OccursAtWitness(s + "_", "R16_", 0);
  }

  lemma ChannelFactsOfR16G16(s: string)
    requires s == "R16G16"
    ensures !Contains(s + "_", "R8_")
    ensures !Contains(s + "_", "R16_")
  {
    MissingCharNotContains(s + "_", "R8_", 1);
    NotContainsSplit(s + "_", "R16_", 3, 3, 0);
  }

  lemma ChannelFactsOfR16G16B16A16(s: string)
    requires s == "R16G16B16A16"
    ensures !Contains(s + "_", "R8_")
    ensures !Contains(s + "_", "R16_")
  {
    MissingCharNotContains(s + "_", "R8_", 1);
    NotContainsSplit(s + "_", "R16_", 3, 3, 0);
  }

  lemma ChannelFactsOfR32(s: string)
    requires s == "R32"
    ensures !Contains(s + "_", "R8_")
    ensures !Contains(s + "_", "R16_")
  {
    MissingCharNotContains(s + "_", "R8_", 1);
    MissingCharNotContains(s + "_", "R16_", 1);
  }

  lemma ChannelFactsOfR32G32(s: string)
    requires s == "R32G32"
    ensures !Contains(s + "_", "R8_")
    ensures !Contains(s + "_", "R16_")
  {
    MissingCharNotContains(s + "_", "R8_", 1);
    MissingCharNotContains(s + "_", "R16_", 1);
  }

  lemma ChannelFactsOfR32G32B32(s: string)
    requires s == "R32G32B32"
    ensures !Contains(s + "_", "R8_")
    ensures !Contains(s + "_", "R16_")
  {
    MissingCharNotContains(s + "_", "R8_", 1);
    MissingCharNotContains(s + "_", "R16_", 1);
  }

  lemma ChannelFactsOfR32G32B32A32(s: string)
    requires s == "R32G32B32A32"
    ensures !Contains(s + "_", "R8_")
    ensures !Contains(s + "_", "R16_")
  {
    MissingCharNotContains(s + "_", "R8_", 1);
    MissingCharNotContains(s + "_", "R16_", 1);
  }

  lemma ChannelFactsOfRGBA_DXT1(s: string)
    requires s == "RGBA_DXT1"
    ensures !Contains(s + "_", "R8_")
    ensures !Contains(s + "_", "R16_")
  {
    MissingCharNotContains(s + "_", "R8_", 1);
    MissingCharNotContains(s + "_", "R16_", 2);
  }

  lemma ChannelFactsOfRGBA_DXT5(s: string)
    requires s == "RGBA_DXT5"
    ensures !Contains(s + "_", "R8_")
    ensures !Contains(s + "_", "R16_")
  {
    MissingCharNotContains(s + "_", "R8_", 1);
    MissingCharNotContains(s + "_", "R16_", 1);
  }

  lemma ChannelFactsOfRGB_BC6H(s: string)
    requires s == "RGB_BC6H"
    ensures !Contains(s + "_", "R8_")
    ensures !Contains(s + "_", "R16_")
  {
    MissingCharNotContains(s + "_", "R8_", 1);
    MissingCharNotContains(s + "_", "R16_", 1);
  }

  lemma ChannelFactsOfRGBA_BC7(s: string)
    requires s == "RGBA_BC7"
    ensures !Contains(s + "_", "R8_")
    ensures !Contains(s + "_", "R16_")
  {
    MissingCharNotContains(s + "_", "R8_", 1);
    MissingCharNotContains(s + "_", "R16_", 1);
  }

  lemma ChannelFactsOfRGB_ETC(s: string)
    requires s == "RGB_ETC"
    ensures !Contains(s + "_", "R8_")
    ensures !Contains(s + "_", "R16_")
  {
    MissingCharNotContains(s + "_", "R8_", 1);
    MissingCharNotContains(s + "_", "R16_", 1);
  }

  lemma ChannelFactsOfRGBA_ETC2(s: string)
    requires s == "RGBA_ETC2"
    ensures !Contains(s + "_", "R8_")
    ensures !Contains(s + "_", "R16_")
  {
    MissingCharNotContains(s + "_", "R8_", 1);
    MissingCharNotContains(s + "_", "R16_", 1);
  }

  lemma ChannelFactsOfRGB_PVRTC_4Bpp(s: string)
    requires s == "RGB_PVRTC_4Bpp"
    ensures !Contains(s + "_", "R8_")
    ensures !Contains(s + "_", "R16_")
  {
    MissingCharNotContains(s + "_", "R8_", 1);
    MissingCharNotContains(s + "_", "R16_", 1);
  }

  lemma ChannelFactsOfRGBA_PVRTC_4Bpp(s: string)
    requires s == "RGBA_PVRTC_4Bpp"
    ensures !Contains(s + "_", "R8_")
    ensures !Contains(s + "_", "R16_")
  {
    MissingCharNotContains(s + "_", "R8_", 1);
    MissingCharNotContains(s + "_", "R16_", 1);
  }

  lemma ChannelFactsOfRGBA_ASTC4X4(s: string)
    requires s == AstcPrefix + "4X4"
    ensures !Contains(s + "_", "R8_")
    ensures !Contains(s + "_", "R16_")
  {
    MissingCharNotContains(s + "_", "R8_", 1);
    MissingCharNotContains(s + "_", "R16_", 1);
  }

  lemma ChannelFactsOfRGBA_ASTC6X6(s: string)
    requires s == AstcPrefix + "6X6"
    ensures !Contains(s + "_", "R8_")
    ensures !Contains(s + "_", "R16_")
  {
    MissingCharNotContains(s + "_", "R8_", 1);
    MissingCharNotContains(s + "_", "R16_", 1);
  }

  lemma ChannelFactsOfRGBA_ASTC8X8(s: string)
    requires s == AstcPrefix + "8X8"
    ensures !Contains(s + "_", "R8_")
    ensures !Contains(s + "_", "R16_")
  {
    NotContainsSplit(s + "_", "R8_", 1, 1, 0);
    MissingCharNotContains(s + "_", "R16_", 1);
  }

  lemma ChannelFactsOfRGBA_ASTC10X10(s: string)
    requires s == AstcPrefix + "10X10"
    ensures !Contains(s + "_", "R8_")
    ensures !Contains(s + "_", "R16_")
  {
    MissingCharNotContains(s + "_", "R8_", 1);
    MissingCharNotContains(s + "_", "R16_", 2);
  }

  lemma ChannelFactsOfRGBA_ASTC12X12(s: string)
    requires s == AstcPrefix + "12X12"
    ensures !Contains(s + "_", "R8_")
    ensures !Contains(s + "_", "R16_")
  {
    MissingCharNotContains(s + "_", "R8_", 1);
    MissingCharNotContains(s + "_", "R16_", 2);
  }
}
