/** The editor's texture format utility: the table from graphics formats to
    importer formats, the importer-based format change and its batch version,
    the naming of runtime copies and the bytes-per-pixel estimate. */
module FormatUtility {
  import opened Strings
  import opened Seqs
  import opened Formats
  import opened Textures

  /** The `FormatMapping` table: the importer format each key is imported as. */
  function FormatMapping(f: GraphicsFormat): Option<ImporterFormat> {
    match f
    case R8_UNorm => Some(ImporterFormat.R8)
    case R16_UNorm => Some(ImporterFormat.R16)
    case R16_SFloat => Some(RHalf)
    case R32_SFloat => Some(RFloat)
    case R8G8_UNorm => Some(RG16)
    case R16G16_SFloat => Some(RGHalf)
    case R32G32_SFloat => Some(RGFloat)
    case R8G8B8_UNorm => Some(RGB24)
    case R8G8B8_SRGB => Some(RGB24)
    case R8G8B8A8_UNorm => Some(RGBA32)
    case R8G8B8A8_SRGB => Some(RGBA32)
    case R16G16B16A16_SFloat => Some(RGBAHalf)
    case R32G32B32A32_SFloat => Some(RGBAFloat)
    case RGBA_DXT1_UNorm => Some(DXT1)
    case RGBA_DXT1_SRGB => Some(DXT1)
    case RGBA_DXT5_UNorm => Some(DXT5)
    case RGBA_DXT5_SRGB => Some(DXT5)
    case RGB_BC6H_UFloat => Some(BC6H)
    case RGBA_BC7_UNorm => Some(BC7)
    case RGBA_BC7_SRGB => Some(BC7)
    case RGBA_ASTC4X4_UNorm => Some(ASTC_4x4)
    case RGBA_ASTC4X4_SRGB => Some(ASTC_4x4)
    case RGBA_ASTC6X6_UNorm => Some(ASTC_6x6)
    case RGBA_ASTC8X8_UNorm => Some(ASTC_8x8)
    case RGBA_ASTC10X10_UNorm => Some(ASTC_10x10)
    case RGBA_ASTC12X12_UNorm => Some(ASTC_12x12)
    case RGB_ETC_UNorm => Some(ETC_RGB4)
    case RGBA_ETC2_UNorm => Some(ETC2_RGBA8)
    case RGB_PVRTC_4Bpp_UNorm => Some(PVRTC_RGB4)
    case RGBA_PVRTC_4Bpp_UNorm => Some(PVRTC_RGBA4)
    case _ => Nothing
  }

  /** The keys of `FormatMapping` in insertion order, the order in which a
      dictionary that never had a key removed enumerates them. */
  function MappedFormats(): seq<GraphicsFormat> {
    MappedUncompressed() + MappedBlockCompressed() + MappedMobileCompressed()
  }

  function MappedUncompressed(): seq<GraphicsFormat> {
    [R8_UNorm, R16_UNorm, R16_SFloat, R32_SFloat,
     R8G8_UNorm, R16G16_SFloat, R32G32_SFloat,
     R8G8B8_UNorm, R8G8B8_SRGB,
     R8G8B8A8_UNorm, R8G8B8A8_SRGB, R16G16B16A16_SFloat, R32G32B32A32_SFloat]
  }

  function MappedBlockCompressed(): seq<GraphicsFormat> {
    [RGBA_DXT1_UNorm, RGBA_DXT1_SRGB, RGBA_DXT5_UNorm, RGBA_DXT5_SRGB,
     RGB_BC6H_UFloat, RGBA_BC7_UNorm, RGBA_BC7_SRGB]
  }

  function MappedMobileCompressed(): seq<GraphicsFormat> {
    [RGBA_ASTC4X4_UNorm, RGBA_ASTC4X4_SRGB, RGBA_ASTC6X6_UNorm, RGBA_ASTC8X8_UNorm,
     RGBA_ASTC10X10_UNorm, RGBA_ASTC12X12_UNorm,
     RGB_ETC_UNorm, RGBA_ETC2_UNorm,
     RGB_PVRTC_4Bpp_UNorm, RGBA_PVRTC_4Bpp_UNorm]
  }

  /** `IsImporterFormatSupported`: the format is a key of the table. */
  predicate IsImporterFormatSupported(f: GraphicsFormat) {
    FormatMapping(f).Some?
  }

  lemma MappedUncompressedMapped(i: nat)
    requires i < |MappedUncompressed()|
    ensures IsImporterFormatSupported(MappedUncompressed()[i])
  {
  }

  lemma MappedBlockCompressedMapped(i: nat)
    requires i < |MappedBlockCompressed()|
    ensures IsImporterFormatSupported(MappedBlockCompressed()[i])
  {
  }

  lemma MappedMobileCompressedMapped(i: nat)
    requires i < |MappedMobileCompressed()|
    ensures IsImporterFormatSupported(MappedMobileCompressed()[i])
  {
  }

  /** The key list holds exactly the formats the importer supports. */
  lemma MappedFormatsAreTheKeys(f: GraphicsFormat)
    ensures f in MappedFormats() <==> IsImporterFormatSupported(f)
  {
    var u, b, m := MappedUncompressed(), MappedBlockCompressed(), MappedMobileCompressed();
    if f in MappedFormats() {
      var i :| 0 <= i < |u + b + m| && (u + b + m)[i] == f;
      if i < |u| {
        MappedUncompressedMapped(i);
      } else if i < |u| + |b| {
        MappedBlockCompressedMapped(i - |u|);
      } else {
        MappedMobileCompressedMapped(i - |u| - |b|);
      }
    }
  }

  lemma MappedFormatsComplete()
    ensures forall g :: g in MappedFormats() <==> IsImporterFormatSupported(g)
  {
    forall g: GraphicsFormat
      ensures g in MappedFormats() <==> IsImporterFormatSupported(g)
    {
      MappedFormatsAreTheKeys(g);
    }
  }

  /** Each key is imported as an importer format that stores the same texel:
      the same channels at the same width, or the same compressed block. In
      particular `None` is not a key. */
  lemma MappingPreservesTexel(f: GraphicsFormat)
    ensures IsImporterFormatSupported(f) ==>
              !f.None? && ImporterTexel(FormatMapping(f).value) == Some(LayoutTexel(LayoutOf(f)))
  {
    if f.None? || f.R8_SRGB? || f.R8_UNorm? || f.R8_SNorm? || f.R8_UInt? || f.R8_SInt? || f.R8G8_SRGB? || f.R8G8_UNorm? {
      MappingPreservesTexelPart1(f);
    } else if f.R8G8_SNorm? || f.R8G8_UInt? || f.R8G8_SInt? || f.R8G8B8_SRGB? || f.R8G8B8_UNorm? || f.R8G8B8_SNorm? || f.R8G8B8_UInt? || f.R8G8B8_SInt? {
      MappingPreservesTexelPart2(f);
    } else if f.B8G8R8_SRGB? || f.B8G8R8_UNorm? || f.R8G8B8A8_SRGB? || f.R8G8B8A8_UNorm? || f.R8G8B8A8_SNorm? || f.R8G8B8A8_UInt? || f.R8G8B8A8_SInt? || f.B8G8R8A8_SRGB? {
      MappingPreservesTexelPart3(f);
    } else if f.B8G8R8A8_UNorm? || f.R16_UNorm? || f.R16_SNorm? || f.R16_UInt? || f.R16_SInt? || f.R16_SFloat? {
      MappingPreservesTexelPart4(f);
    } else if f.R16G16_UNorm? || f.R16G16_SNorm? || f.R16G16_UInt? || f.R16G16_SInt? || f.R16G16_SFloat? || f.R16G16B16A16_UNorm? {
      MappingPreservesTexelPart5(f);
    } else if f.R16G16B16A16_SNorm? || f.R16G16B16A16_UInt? || f.R16G16B16A16_SInt? || f.R16G16B16A16_SFloat? || f.R32_UInt? || f.R32_SInt? {
      MappingPreservesTexelPart6(f);
    } else if f.R32_SFloat? || f.R32G32_UInt? || f.R32G32_SInt? || f.R32G32_SFloat? || f.R32G32B32_SFloat? {
      MappingPreservesTexelPart7(f);
    } else if f.R32G32B32A32_UInt? || f.R32G32B32A32_SInt? || f.R32G32B32A32_SFloat? || f.RGBA_DXT1_SRGB? || f.RGBA_DXT1_UNorm? {
      MappingPreservesTexelPart8(f);
    } else if f.RGBA_DXT5_SRGB? || f.RGBA_DXT5_UNorm? || f.RGB_BC6H_UFloat? || f.RGB_BC6H_SFloat? {
      MappingPreservesTexelPart9(f);
    } else if f.RGBA_BC7_SRGB? || f.RGBA_BC7_UNorm? || f.RGB_ETC_UNorm? || f.RGBA_ETC2_SRGB? {
      MappingPreservesTexelPart10(f);
    } else if f.RGBA_ETC2_UNorm? || f.RGB_PVRTC_4Bpp_UNorm? || f.RGBA_PVRTC_4Bpp_UNorm? {
      MappingPreservesTexelPart11(f);
    } else if f.RGBA_ASTC4X4_SRGB? || f.RGBA_ASTC4X4_UNorm? || f.RGBA_ASTC6X6_SRGB? {
      MappingPreservesTexelPart12(f);
    } else if f.RGBA_ASTC6X6_UNorm? || f.RGBA_ASTC8X8_UNorm? || f.RGBA_ASTC10X10_UNorm? {
      MappingPreservesTexelPart13(f);
    } else {
      MappingPreservesTexelPart14(f);
    }
  }

  /** No key is mapped to `Automatic`. */
  lemma MappingNeverAutomatic(f: GraphicsFormat)
    ensures FormatMapping(f) != Some(Automatic)
  {
  }

  /** An sRGB key and its linear twin are imported as the same format; the
      sRGB flag is what tells them apart. */
  lemma MappingIgnoresEncoding(f: GraphicsFormat)
    ensures IsImporterFormatSupported(f) ==> FormatMapping(LinearTwin(f)) == FormatMapping(f)
  {
  }

  /** The linear key each importer format is the image of, if any. */
  function LinearSource(i: ImporterFormat): Option<GraphicsFormat> {
    match i
    case Automatic => Nothing
    case R8 => Some(R8_UNorm)
    case R16 => Some(R16_UNorm)
    case RHalf => Some(R16_SFloat)
    case RFloat => Some(R32_SFloat)
    case RG16 => Some(R8G8_UNorm)
    case RGHalf => Some(R16G16_SFloat)
    case RGFloat => Some(R32G32_SFloat)
    case RGB24 => Some(R8G8B8_UNorm)
    case RGBA32 => Some(R8G8B8A8_UNorm)
    case RGBAHalf => Some(R16G16B16A16_SFloat)
    case RGBAFloat => Some(R32G32B32A32_SFloat)
    case DXT1 => Some(RGBA_DXT1_UNorm)
    case DXT5 => Some(RGBA_DXT5_UNorm)
    case BC6H => Some(RGB_BC6H_UFloat)
    case BC7 => Some(RGBA_BC7_UNorm)
    case ASTC_4x4 => Some(RGBA_ASTC4X4_UNorm)
    case ASTC_6x6 => Some(RGBA_ASTC6X6_UNorm)
    case ASTC_8x8 => Some(RGBA_ASTC8X8_UNorm)
    case ASTC_10x10 => Some(RGBA_ASTC10X10_UNorm)
    case ASTC_12x12 => Some(RGBA_ASTC12X12_UNorm)
    case ETC_RGB4 => Some(RGB_ETC_UNorm)
    case ETC2_RGBA8 => Some(RGBA_ETC2_UNorm)
    case PVRTC_RGB4 => Some(RGB_PVRTC_4Bpp_UNorm)
    case PVRTC_RGBA4 => Some(RGBA_PVRTC_4Bpp_UNorm)
  }

  /** `LinearSource` inverts the table up to the sRGB flag: it finds the
      linear twin of every key. */
  lemma LinearSourceInvertsMapping(f: GraphicsFormat)
    ensures IsImporterFormatSupported(f) ==> LinearSource(FormatMapping(f).value) == Some(LinearTwin(f))
  {
    if f.None? || f.R8_SRGB? || f.R8_UNorm? || f.R8_SNorm? || f.R8_UInt? || f.R8_SInt? {
      LinearSourceInvertsMappingPart1(f);
    } else if f.R8G8_SRGB? || f.R8G8_UNorm? || f.R8G8_SNorm? || f.R8G8_UInt? || f.R8G8_SInt? || f.R8G8B8_SRGB? {
      LinearSourceInvertsMappingPart2(f);
    } else if f.R8G8B8_UNorm? || f.R8G8B8_SNorm? || f.R8G8B8_UInt? || f.R8G8B8_SInt? || f.B8G8R8_SRGB? || f.B8G8R8_UNorm? {
      LinearSourceInvertsMappingPart3(f);
    } else if f.R8G8B8A8_SRGB? || f.R8G8B8A8_UNorm? || f.R8G8B8A8_SNorm? || f.R8G8B8A8_UInt? || f.R8G8B8A8_SInt? || f.B8G8R8A8_SRGB? {
      LinearSourceInvertsMappingPart4(f);
    } else if f.B8G8R8A8_UNorm? || f.R16_UNorm? || f.R16_SNorm? || f.R16_UInt? || f.R16_SInt? || f.R16_SFloat? {
      LinearSourceInvertsMappingPart5(f);
    } else if f.R16G16_UNorm? || f.R16G16_SNorm? || f.R16G16_UInt? || f.R16G16_SInt? || f.R16G16_SFloat? || f.R16G16B16A16_UNorm? {
      LinearSourceInvertsMappingPart6(f);
    } else if f.R16G16B16A16_SNorm? || f.R16G16B16A16_UInt? || f.R16G16B16A16_SInt? || f.R16G16B16A16_SFloat? || f.R32_UInt? || f.R32_SInt? {
      LinearSourceInvertsMappingPart7(f);
    } else if f.R32_SFloat? || f.R32G32_UInt? || f.R32G32_SInt? || f.R32G32_SFloat? || f.R32G32B32_SFloat? || f.R32G32B32A32_UInt? {
      LinearSourceInvertsMappingPart8(f);
    } else if f.R32G32B32A32_SInt? || f.R32G32B32A32_SFloat? || f.RGBA_DXT1_SRGB? || f.RGBA_DXT1_UNorm? || f.RGBA_DXT5_SRGB? || f.RGBA_DXT5_UNorm? {
      LinearSourceInvertsMappingPart9(f);
    } else if f.RGB_BC6H_UFloat? || f.RGB_BC6H_SFloat? || f.RGBA_BC7_SRGB? || f.RGBA_BC7_UNorm? || f.RGB_ETC_UNorm? || f.RGBA_ETC2_SRGB? {
      LinearSourceInvertsMappingPart10(f);
    } else if f.RGBA_ETC2_UNorm? || f.RGB_PVRTC_4Bpp_UNorm? || f.RGBA_PVRTC_4Bpp_UNorm? || f.RGBA_ASTC4X4_SRGB? || f.RGBA_ASTC4X4_UNorm? || f.RGBA_ASTC6X6_SRGB? {
      LinearSourceInvertsMappingPart11(f);
    } else {
      LinearSourceInvertsMappingPart12(f);
    }
  }

  /** The format `LinearSource` finds is itself a key mapped to the importer
      format it was asked about. */
  lemma LinearSourceIsKey(i: ImporterFormat)
    ensures LinearSource(i).Some? ==> FormatMapping(LinearSource(i).value) == Some(i)
  {
    if i.Automatic? || i.R8? || i.R16? || i.RHalf? || i.RFloat? || i.RG16? {
      LinearSourceIsKeyPart1(i);
    } else if i.RGHalf? || i.RGFloat? || i.RGB24? || i.RGBA32? || i.RGBAHalf? {
      LinearSourceIsKeyPart2(i);
    } else if i.RGBAFloat? || i.DXT1? || i.DXT5? || i.BC6H? {
      LinearSourceIsKeyPart3(i);
    } else if i.BC7? || i.ASTC_4x4? || i.ASTC_6x6? {
      LinearSourceIsKeyPart4(i);
    } else if i.ASTC_8x8? || i.ASTC_10x10? || i.ASTC_12x12? {
      LinearSourceIsKeyPart5(i);
    } else if i.ETC_RGB4? || i.ETC2_RGBA8? {
      LinearSourceIsKeyPart6(i);
    } else {
      LinearSourceIsKeyPart7(i);
    }
  }

  /** Two keys share an importer format only when they are twins. */
  lemma MappingCollisionsAreTwins(f: GraphicsFormat, g: GraphicsFormat)
    requires IsImporterFormatSupported(f) && FormatMapping(f) == FormatMapping(g)
    ensures LinearTwin(f) == LinearTwin(g)
  {
    LinearSourceInvertsMapping(f);
    LinearSourceInvertsMapping(g);
  }

  // ---------------------------------------------------------------------
  // Importer settings

  /** `SetImporterFormat`: the sRGB flag comes from the format name, the
      platform format from the table, or `Automatic` for a format the table
      does not hold. The read/write flag is left alone. */
  function SetImporterFormat(importer: TextureImporter, f: GraphicsFormat): (r: TextureImporter)
    ensures r.sRGBTexture <==> IsSrgb(f)
    ensures r.platformFormat == Automatic <==> !IsImporterFormatSupported(f)
    ensures IsImporterFormatSupported(f) ==>
              ImporterTexel(r.platformFormat) == Some(LayoutTexel(LayoutOf(f)))
    ensures r.isReadable == importer.isReadable
  {
    NameFacts(f);
    MappingPreservesTexel(f);
    MappingNeverAutomatic(f);
    var platform := if IsImporterFormatSupported(f) then FormatMapping(f).value else Automatic;
    importer.(sRGBTexture := Contains(Name(f), "SRGB"), platformFormat := platform)
  }

  /** The importer carries the settings `SetImporterFormat` gives `f`. */
  predicate ConfiguredFor(importer: TextureImporter, f: GraphicsFormat) {
    importer.sRGBTexture == IsSrgb(f) &&
    importer.platformFormat == (if IsImporterFormatSupported(f) then FormatMapping(f).value else Automatic)
  }

  /** Setting a format twice is setting it once, and the settings it leaves
      are those of `f` whatever the importer held before. */
  lemma SetImporterFormatIdempotent(importer: TextureImporter, f: GraphicsFormat)
    ensures ConfiguredFor(SetImporterFormat(importer, f), f)
    ensures SetImporterFormat(SetImporterFormat(importer, f), f) == SetImporterFormat(importer, f)
  {
    MappingPreservesTexel(f);
  }

  /** Why `ChangeTextureImportFormat` refuses, in the order it checks. */
  datatype Refusal = NullTexture | UnmappedFormat | NoAssetPath | NoImporter

  datatype ImportChange = Refused(reason: Refusal) | Changed(importers: Importers)

  /** `a` and `b` hold importers for the same paths and agree on every path but
      `p`. */
  predicate SameExcept(a: Importers, b: Importers, p: string) {
    a.Keys == b.Keys && forall q :: q in a && q != p ==> b[q] == a[q]
  }

  /** `ChangeTextureImportFormat`: refuses a null texture, a format outside the
      table, a texture without an asset path and a path without a texture
      importer, in that order, touching no importer; otherwise sets the
      texture's importer to the format. */
  function ChangeTextureImportFormat(texture: Option<Texture2D>, f: GraphicsFormat, importers: Importers): (r: ImportChange)
    ensures texture.Nothing? ==> r == Refused(NullTexture)
    ensures texture.Some? && !IsImporterFormatSupported(f) ==> r == Refused(UnmappedFormat)
    ensures texture.Some? && IsImporterFormatSupported(f) && |texture.value.assetPath| == 0 ==>
              r == Refused(NoAssetPath)
    ensures r.Changed? <==>
              texture.Some? && IsImporterFormatSupported(f) && |texture.value.assetPath| > 0 &&
              texture.value.assetPath in importers
    ensures r.Changed? ==>
              SameExcept(importers, r.importers, texture.value.assetPath) &&
              ConfiguredFor(r.importers[texture.value.assetPath], f) &&
              r.importers[texture.value.assetPath].isReadable == importers[texture.value.assetPath].isReadable
  {
    if texture.Nothing? then Refused(NullTexture)
    else if !IsImporterFormatSupported(f) then Refused(UnmappedFormat)
    else
      var path := texture.value.assetPath;
      if |path| == 0 then Refused(NoAssetPath)
      else if path !in importers then Refused(NoImporter)
      else
        SetImporterFormatIdempotent(importers[path], f);
        Changed(importers[path := SetImporterFormat(importers[path], f)])
  }

  /** Changing the import format a second time changes nothing more. */
  lemma ChangeTextureImportFormatIdempotent(texture: Option<Texture2D>, f: GraphicsFormat, importers: Importers)
    requires ChangeTextureImportFormat(texture, f, importers).Changed?
    ensures ChangeTextureImportFormat(texture, f, ChangeTextureImportFormat(texture, f, importers).importers)
            == ChangeTextureImportFormat(texture, f, importers)
  {
    var path := texture.value.assetPath;
    var m := ChangeTextureImportFormat(texture, f, importers).importers;
    SetImporterFormatIdempotent(importers[path], f);
    assert m[path := SetImporterFormat(m[path], f)] == m;
  }

  // ---------------------------------------------------------------------
  // Runtime copies and the batch change

  /** Where the batch change writes the runtime copy of the texture at `path`:
      `<stem>_Runtime_<format>.png` next to it. `Path.GetDirectoryName` throws
      for an empty path, so the path must be non-empty. */
  function RuntimeCopyPath(path: string, f: GraphicsFormat): string
    requires |path| > 0
  {
    Combine(DirectoryName(path), FileNameWithoutExtension(path) + "_Runtime_" + Name(f) + ".png")
  }

  /** The runtime copy is a `.png` whose stem is the source's stem followed by
      `_Runtime_` and the format name, and which lies in the source's
      directory (unless that directory name ends in a separator, which
      `Path.Combine` does not double). */
  lemma RuntimeCopyPathShape(path: string, f: GraphicsFormat)
    requires |path| > 0
    ensures FileName(RuntimeCopyPath(path, f)) == FileNameWithoutExtension(path) + "_Runtime_" + Name(f) + ".png"
    ensures FileNameWithoutExtension(RuntimeCopyPath(path, f)) == FileNameWithoutExtension(path) + "_Runtime_" + Name(f)
    ensures var d := DirectoryName(path);
            (|d| == 0 || d[|d| - 1] != Separator) ==> DirectoryName(RuntimeCopyPath(path, f)) == d
  {
    NameFacts(f);
    var stem := FileNameWithoutExtension(path) + "_Runtime_" + Name(f);
    assert Separator !in stem;
    CombinePng(DirectoryName(path), stem);
  }

  /** What the engine does, out of the tools' sight, when
      `CreateNewTextureAsset` copies a texture to a target path. `written`
      says whether `ConvertTextureFormat` returned a texture and the PNG was
      written without an exception. `imported` is the importer the database
      refresh creates for a path that had none; it is nothing while asset
      editing is suspended or for a path outside the project's assets.
      `loads` says whether `LoadAssetAtPath` then returns the new texture. */
  datatype CopyEngine = CopyEngine(
    written: (Texture2D, string) -> bool,
    imported: string -> Option<TextureImporter>,
    loads: string -> bool)

  /** The importer `AssetImporter.GetAtPath` finds at `target` once the copy
      is written and the database refreshed: the one already there, or the
      one the refresh creates. */
  function ImporterAfterWrite(importers: Importers, target: string, e: CopyEngine): Option<TextureImporter> {
    if target in importers then Some(importers[target]) else e.imported(target)
  }

  /** The importers after `CreateNewTextureAsset`, and whether it returned an
      asset. */
  datatype CopyResult = CopyResult(importers: Importers, created: bool)

  /** `CreateNewTextureAsset` with `SaveRuntimeTextureWithFormat`: once the
      copy is written, the importer found at the target is configured by
      `SetImporterFormat`; without one the save fails. The asset is returned
      only when the save succeeded and the texture loads. Only the target's
      importer can change. */
  function CreateNewTextureAsset(importers: Importers, t: Texture2D, f: GraphicsFormat, target: string,
                                 e: CopyEngine): (r: CopyResult)
    ensures r.created <==>
              e.written(t, target) && (target in importers || e.imported(target).Some?) && e.loads(target)
    ensures !e.written(t, target) ==> r.importers == importers
    ensures forall p :: p != target ==> (p in r.importers <==> p in importers)
    ensures forall p :: p in importers && p != target ==> r.importers[p] == importers[p]
    ensures target in r.importers <==> target in importers || (e.written(t, target) && e.imported(target).Some?)
    ensures e.written(t, target) && target in r.importers ==>
              ConfiguredFor(r.importers[target], f) &&
              r.importers[target].isReadable == ImporterAfterWrite(importers, target, e).value.isReadable
  {
    if !e.written(t, target) then CopyResult(importers, false)
    else match ImporterAfterWrite(importers, target, e)
      case Nothing => CopyResult(importers, false)
      case Some(importer) =>
        SetImporterFormatIdempotent(importer, f);
        CopyResult(importers[target := SetImporterFormat(importer, f)], e.loads(target))
  }

  /** The counter and the effects of a batch so far: the importers as they
      now are and the paths of the runtime copies requested. */
  datatype BatchState = BatchState(successes: nat, importers: Importers, copies: seq<string>)

  /** A batch either completes, or an exception escapes its loop (the
      counter is then lost to the caller). */
  datatype BatchOutcome = Completed(state: BatchState) | Threw(state: BatchState)

  /** One iteration of the batch loop. The route (`viaImporter`) was chosen
      before the loop; `e` is what the engine does for a runtime copy. */
  function BatchStep(s: BatchState, t: Option<Texture2D>, f: GraphicsFormat, viaImporter: bool,
                     e: CopyEngine): BatchOutcome
  {
    if t.Nothing? then Completed(s)
    else if viaImporter then
      match ChangeTextureImportFormat(t, f, s.importers)
      case Changed(m) => Completed(s.(successes := s.successes + 1, importers := m))
      case Refused(_) => Completed(s)
    else if |t.value.assetPath| == 0 then Threw(s)
    else
      var target := RuntimeCopyPath(t.value.assetPath, f);
      var c := CreateNewTextureAsset(s.importers, t.value, f, target, e);
      Completed(s.(successes := s.successes + (if c.created then 1 else 0),
                   importers := c.importers,
                   copies := s.copies + [target]))
  }

  /** The batch loop over `ts`, stopping at the first exception. */
  function BatchRun(s: BatchState, ts: seq<Option<Texture2D>>, f: GraphicsFormat, viaImporter: bool,
                    e: CopyEngine): BatchOutcome
    decreases |ts|
  {
    if |ts| == 0 then Completed(s)
    else match BatchStep(s, ts[0], f, viaImporter, e)
      case Completed(s') => BatchRun(s', ts[1..], f, viaImporter, e)
      case Threw(s') => Threw(s')
  }

  /** A non-null entry of the batch. */
  function Present(): Option<Texture2D> -> bool {
    (t: Option<Texture2D>) => t.Some?
  }

  /** The entries the importer route counts: present, an asset, with an
      importer. */
  function ImporterWillChange(importers: Importers): Option<Texture2D> -> bool {
    (t: Option<Texture2D>) => t.Some? && |t.value.assetPath| > 0 && t.value.assetPath in importers
  }

  /** The entries the runtime route counts: present, an asset, written, with
      an importer at the target (there before the batch, or created by the
      refresh), and loaded back. */
  function RuntimeWillCopy(f: GraphicsFormat, importers: Importers, e: CopyEngine): Option<Texture2D> -> bool {
    (t: Option<Texture2D>) =>
      t.Some? && |t.value.assetPath| > 0 &&
      var target := RuntimeCopyPath(t.value.assetPath, f);
      e.written(t.value, target) && (target in importers || e.imported(target).Some?) && e.loads(target)
  }

  /** The entries the chosen route counts. */
  function RouteCounts(f: GraphicsFormat, viaImporter: bool, importers: Importers, e: CopyEngine): Option<Texture2D> -> bool
  {
    if viaImporter then ImporterWillChange(importers) else RuntimeWillCopy(f, importers, e)
  }

  /** What the runtime route may have done to the importers: none is
      removed, and each one either is as it was or sits at a copy target
      and is the importer found there after the write, configured for `f`. */
  predicate CopiesOnly(before: Importers, after: Importers, copies: seq<string>, f: GraphicsFormat, e: CopyEngine) {
    (forall p :: p in before ==> p in after) &&
    forall p :: p in after ==>
      (p in before && after[p] == before[p]) ||
      (p in copies && ImporterAfterWrite(before, p, e).Some? &&
       after[p] == SetImporterFormat(ImporterAfterWrite(before, p, e).value, f))
  }

  /** The effects a route allows: the importer route (taken only for a
      format in the table) touches no file and adds no importer; the
      runtime route changes only the importers at its copy targets. */
  predicate OnRoute(s: BatchState, f: GraphicsFormat, viaImporter: bool, importers: Importers, e: CopyEngine) {
    (viaImporter ==> IsImporterFormatSupported(f) && s.copies == [] && s.importers.Keys == importers.Keys) &&
    (!viaImporter ==> CopiesOnly(importers, s.importers, s.copies, f, e))
  }

  /** One step stays on its route and counts the texture exactly when the
      route succeeds for it; only the runtime route can throw, and it throws
      before changing anything. */
  lemma BatchStepEffect(s: BatchState, t: Option<Texture2D>, f: GraphicsFormat, viaImporter: bool,
                        e: CopyEngine, importers: Importers)
    requires OnRoute(s, f, viaImporter, importers, e)
    ensures BatchStep(s, t, f, viaImporter, e).Threw? ==>
              !viaImporter && BatchStep(s, t, f, viaImporter, e).state == s
    ensures BatchStep(s, t, f, viaImporter, e).Completed? ==>
              OnRoute(BatchStep(s, t, f, viaImporter, e).state, f, viaImporter, importers, e)
    ensures BatchStep(s, t, f, viaImporter, e).Completed? ==>
              BatchStep(s, t, f, viaImporter, e).state.successes ==
              s.successes + (if RouteCounts(f, viaImporter, importers, e)(t) then 1 else 0)
  {
    if t.Some? && viaImporter {
      ImporterStepEffect(s, t.value, f, e, importers);
    } else if t.Some? && |t.value.assetPath| > 0 {
      RuntimeStepEffect(s, t.value, f, e, importers);
    }
  }

  /** A step of the importer route. */
  lemma ImporterStepEffect(s: BatchState, t: Texture2D, f: GraphicsFormat, e: CopyEngine, importers: Importers)
    requires OnRoute(s, f, true, importers, e)
    ensures BatchStep(s, Some(t), f, true, e).Completed?
    ensures OnRoute(BatchStep(s, Some(t), f, true, e).state, f, true, importers, e)
    ensures BatchStep(s, Some(t), f, true, e).state.successes ==
              s.successes + (if ImporterWillChange(importers)(Some(t)) then 1 else 0)
  {
    var c := ChangeTextureImportFormat(Some(t), f, s.importers);
    assert t.assetPath in s.importers <==> t.assetPath in importers;
    assert c.Changed? ==> c.importers.Keys == s.importers.Keys;
  }

  /** Under `CopiesOnly`, the importer found at a target after a write is
      configured the same way whether the batch so far has touched it or
      not, and a target has an importer now exactly when it had one before
      or the refresh creates one. */
  lemma ImporterAfterWriteStable(before: Importers, after: Importers, copies: seq<string>, f: GraphicsFormat,
                                 e: CopyEngine, target: string)
    requires CopiesOnly(before, after, copies, f, e)
    ensures ImporterAfterWrite(after, target, e).Some? <==> ImporterAfterWrite(before, target, e).Some?
    ensures ImporterAfterWrite(after, target, e).Some? ==>
              SetImporterFormat(ImporterAfterWrite(after, target, e).value, f) ==
              SetImporterFormat(ImporterAfterWrite(before, target, e).value, f)
  {
    if target in after && !(target in before && after[target] == before[target]) {
      SetImporterFormatIdempotent(ImporterAfterWrite(before, target, e).value, f);
    }
  }

  /** A runtime copy keeps `CopiesOnly`, with its target added to the
      copies. */
  lemma CopyKeepsCopiesOnly(before: Importers, after: Importers, copies: seq<string>, f: GraphicsFormat,
                            e: CopyEngine, t: Texture2D, target: string)
    requires CopiesOnly(before, after, copies, f, e)
    ensures CopiesOnly(before, CreateNewTextureAsset(after, t, f, target, e).importers, copies + [target], f, e)
  {
    var m := CreateNewTextureAsset(after, t, f, target, e).importers;
    ImporterAfterWriteStable(before, after, copies, f, e, target);
    forall p | p in m
      ensures (p in before && m[p] == before[p]) ||
              (p in copies + [target] && ImporterAfterWrite(before, p, e).Some? &&
               m[p] == SetImporterFormat(ImporterAfterWrite(before, p, e).value, f))
    {
      if p == target && e.written(t, target) {
        assert m[p] == SetImporterFormat(ImporterAfterWrite(after, target, e).value, f);
      } else {
        assert m[p] == after[p];
      }
    }
  }

  /** A step of the runtime route on a texture with an asset path. */
  lemma RuntimeStepEffect(s: BatchState, t: Texture2D, f: GraphicsFormat, e: CopyEngine, importers: Importers)
    requires OnRoute(s, f, false, importers, e) && |t.assetPath| > 0
    ensures BatchStep(s, Some(t), f, false, e).Completed?
    ensures OnRoute(BatchStep(s, Some(t), f, false, e).state, f, false, importers, e)
    ensures BatchStep(s, Some(t), f, false, e).state.successes ==
              s.successes + (if RuntimeWillCopy(f, importers, e)(Some(t)) then 1 else 0)
  {
    var target := RuntimeCopyPath(t.assetPath, f);
    ImporterAfterWriteStable(importers, s.importers, s.copies, f, e, target);
    CopyKeepsCopiesOnly(importers, s.importers, s.copies, f, e, t, target);
  }

  /** The batch loop stays on its route; when it completes it has counted
      exactly the entries its route succeeds for, and in any case no more
      than the non-null entries; the importer route always completes. */
  lemma {:induction false} BatchRunCounts(s: BatchState, ts: seq<Option<Texture2D>>, f: GraphicsFormat, viaImporter: bool,
                                          e: CopyEngine, importers: Importers)
    requires OnRoute(s, f, viaImporter, importers, e)
    ensures OnRoute(BatchRun(s, ts, f, viaImporter, e).state, f, viaImporter, importers, e)
    ensures viaImporter ==> BatchRun(s, ts, f, viaImporter, e).Completed?
    ensures BatchRun(s, ts, f, viaImporter, e).Completed? ==>
              BatchRun(s, ts, f, viaImporter, e).state.successes ==
              s.successes + Count(ts, RouteCounts(f, viaImporter, importers, e))
    ensures BatchRun(s, ts, f, viaImporter, e).state.successes <= s.successes + Count(ts, Present())
    decreases |ts|
  {
    if |ts| > 0 {
      BatchStepEffect(s, ts[0], f, viaImporter, e, importers);
      var o := BatchStep(s, ts[0], f, viaImporter, e);
      if o.Completed? {
        BatchRunCounts(o.state, ts[1..], f, viaImporter, e, importers);
      }
    }
  }

  /** One step of the runtime route removes no importer, leaves an importer
      configured for `f` configured, and configures the importer a written
      copy finds at its target. */
  lemma RuntimeStepKeeps(s: BatchState, t: Option<Texture2D>, f: GraphicsFormat, e: CopyEngine)
    requires BatchStep(s, t, f, false, e).Completed?
    ensures var s' := BatchStep(s, t, f, false, e).state;
      forall p :: p in s.importers ==> p in s'.importers
    ensures var s' := BatchStep(s, t, f, false, e).state;
      forall p :: p in s.importers && ConfiguredFor(s.importers[p], f) ==> ConfiguredFor(s'.importers[p], f)
    ensures var s' := BatchStep(s, t, f, false, e).state;
      t.Some? && |t.value.assetPath| > 0 && e.written(t.value, RuntimeCopyPath(t.value.assetPath, f)) &&
      ImporterAfterWrite(s.importers, RuntimeCopyPath(t.value.assetPath, f), e).Some? ==>
        RuntimeCopyPath(t.value.assetPath, f) in s'.importers &&
        ConfiguredFor(s'.importers[RuntimeCopyPath(t.value.assetPath, f)], f)
  {
  }

  /** The runtime route never removes an importer, and an importer that is
      configured for `f` stays so for the rest of the loop. */
  lemma {:induction false} RuntimeRunKeepsConfigured(s: BatchState, ts: seq<Option<Texture2D>>, f: GraphicsFormat,
                                                     e: CopyEngine, p: string)
    requires p in s.importers
    ensures p in BatchRun(s, ts, f, false, e).state.importers
    ensures ConfiguredFor(s.importers[p], f) ==> ConfiguredFor(BatchRun(s, ts, f, false, e).state.importers[p], f)
    decreases |ts|
  {
    if |ts| > 0 {
      var o := BatchStep(s, ts[0], f, false, e);
      if o.Completed? {
        RuntimeStepKeeps(s, ts[0], f, e);
        RuntimeRunKeepsConfigured(o.state, ts[1..], f, e, p);
      }
    }
  }

  /** The first entry of a completed runtime loop, when counted, leaves a
      configured importer at its target. */
  lemma FirstCopyConfigured(s: BatchState, ts: seq<Option<Texture2D>>, f: GraphicsFormat, e: CopyEngine)
    requires |ts| > 0 && BatchRun(s, ts, f, false, e).Completed? && RuntimeWillCopy(f, s.importers, e)(ts[0])
    ensures var m := BatchRun(s, ts, f, false, e).state.importers;
      RuntimeCopyPath(ts[0].value.assetPath, f) in m && ConfiguredFor(m[RuntimeCopyPath(ts[0].value.assetPath, f)], f)
  {
    var o := BatchStep(s, ts[0], f, false, e);
    RuntimeStepKeeps(s, ts[0], f, e);
    RuntimeRunKeepsConfigured(o.state, ts[1..], f, e, RuntimeCopyPath(ts[0].value.assetPath, f));
  }

  /** An entry that would be copied before a runtime step still would be
      after it: the step removes no importer. */
  lemma WillCopyStable(s: BatchState, t0: Option<Texture2D>, f: GraphicsFormat, e: CopyEngine, t: Option<Texture2D>)
    requires BatchStep(s, t0, f, false, e).Completed? && RuntimeWillCopy(f, s.importers, e)(t)
    ensures RuntimeWillCopy(f, BatchStep(s, t0, f, false, e).state.importers, e)(t)
  {
    RuntimeStepKeeps(s, t0, f, e);
  }

  /** Every copy the runtime route counts leaves an importer configured for
      the format at its target. */
  lemma {:induction false} RuntimeRunConfiguresCopies(s: BatchState, ts: seq<Option<Texture2D>>, f: GraphicsFormat,
                                                      e: CopyEngine)
    ensures var r := BatchRun(s, ts, f, false, e);
      r.Completed? ==>
        forall i :: 0 <= i < |ts| && RuntimeWillCopy(f, s.importers, e)(ts[i]) ==>
          RuntimeCopyPath(ts[i].value.assetPath, f) in r.state.importers &&
          ConfiguredFor(r.state.importers[RuntimeCopyPath(ts[i].value.assetPath, f)], f)
    decreases |ts|
  {
    var r := BatchRun(s, ts, f, false, e);
    if |ts| > 0 && r.Completed? {
      var o := BatchStep(s, ts[0], f, false, e);
      RuntimeRunConfiguresCopies(o.state, ts[1..], f, e);
      forall i | 0 <= i < |ts| && RuntimeWillCopy(f, s.importers, e)(ts[i])
        ensures RuntimeCopyPath(ts[i].value.assetPath, f) in r.state.importers &&
                ConfiguredFor(r.state.importers[RuntimeCopyPath(ts[i].value.assetPath, f)], f)
      {
        if i == 0 {
          FirstCopyConfigured(s, ts, f, e);
        } else {
          assert ts[1..][i - 1] == ts[i];
          WillCopyStable(s, ts[0], f, e, ts[i]);
        }
      }
    }
  }

  /** `BatchChangeTextureFormat`: the batch loop, from a zero counter. */
  method BatchChangeTextureFormat(textures: seq<Option<Texture2D>>, f: GraphicsFormat, importers: Importers,
                                  e: CopyEngine)
    returns (r: BatchOutcome)
    ensures r == BatchRun(BatchState(0, importers, []), textures, f, IsImporterFormatSupported(f), e)
  {
    var viaImporter := IsImporterFormatSupported(f);
    var s := BatchState(0, importers, []);
    var i := 0;
    while i < |textures|
      invariant 0 <= i <= |textures|
      invariant BatchRun(BatchState(0, importers, []), textures, f, viaImporter, e)
                == BatchRun(s, textures[i..], f, viaImporter, e)
    {
      assert textures[i..] == [textures[i]] + textures[i + 1..];
      var o := BatchStep(s, textures[i], f, viaImporter, e);
      if o.Threw? {
        return o;
      }
      s := o.state;
      i := i + 1;
    }
    r := Completed(s);
  }

  /** The batch from a zero counter along a route already chosen, so that
      the format table is not unfolded here. */
  lemma BatchFromZero(textures: seq<Option<Texture2D>>, f: GraphicsFormat, viaImporter: bool,
                      importers: Importers, e: CopyEngine)
    requires viaImporter ==> IsImporterFormatSupported(f)
    ensures var r := BatchRun(BatchState(0, importers, []), textures, f, viaImporter, e);
      r.state.successes <= Count(textures, Present()) &&
      (viaImporter ==>
         r.Completed? && r.state.copies == [] && r.state.importers.Keys == importers.Keys &&
         r.state.successes == Count(textures, ImporterWillChange(importers))) &&
      (!viaImporter ==> CopiesOnly(importers, r.state.importers, r.state.copies, f, e)) &&
      (!viaImporter && r.Completed? ==>
         r.state.successes == Count(textures, RuntimeWillCopy(f, importers, e)) &&
         forall i :: 0 <= i < |textures| && RuntimeWillCopy(f, importers, e)(textures[i]) ==>
           RuntimeCopyPath(textures[i].value.assetPath, f) in r.state.importers &&
           ConfiguredFor(r.state.importers[RuntimeCopyPath(textures[i].value.assetPath, f)], f))
  {
    BatchRunCounts(BatchState(0, importers, []), textures, f, viaImporter, e, importers);
    if !viaImporter {
      RuntimeRunConfiguresCopies(BatchState(0, importers, []), textures, f, e);
    }
  }

  /** What `BatchChangeTextureFormat` promises. An empty batch does nothing.
      The route is fixed by table membership: the importer route changes
      importers and never copies; the runtime route changes only the
      importers at its copy targets, each to the importer found there
      configured for the format. Null entries are skipped. The counter is
      the number of textures the route succeeded for, so it never exceeds
      the number of non-null entries, and every copy counted has a
      configured importer at its target; only the runtime route throws, on
      a texture without an asset path. */
  lemma BatchChangeTextureFormatCounts(textures: seq<Option<Texture2D>>, f: GraphicsFormat, importers: Importers,
                                       e: CopyEngine)
    ensures var r := BatchRun(BatchState(0, importers, []), textures, f, IsImporterFormatSupported(f), e);
      |textures| == 0 ==> r == Completed(BatchState(0, importers, []))
    ensures var r := BatchRun(BatchState(0, importers, []), textures, f, IsImporterFormatSupported(f), e);
      r.state.successes <= Count(textures, Present())
    ensures var r := BatchRun(BatchState(0, importers, []), textures, f, IsImporterFormatSupported(f), e);
      IsImporterFormatSupported(f) ==>
        r.Completed? && r.state.copies == [] && r.state.importers.Keys == importers.Keys &&
        r.state.successes == Count(textures, ImporterWillChange(importers))
    ensures var r := BatchRun(BatchState(0, importers, []), textures, f, IsImporterFormatSupported(f), e);
      !IsImporterFormatSupported(f) ==> CopiesOnly(importers, r.state.importers, r.state.copies, f, e)
    ensures var r := BatchRun(BatchState(0, importers, []), textures, f, IsImporterFormatSupported(f), e);
      !IsImporterFormatSupported(f) && r.Completed? ==>
        r.state.successes == Count(textures, RuntimeWillCopy(f, importers, e)) &&
        forall i :: 0 <= i < |textures| && RuntimeWillCopy(f, importers, e)(textures[i]) ==>
          RuntimeCopyPath(textures[i].value.assetPath, f) in r.state.importers &&
          ConfiguredFor(r.state.importers[RuntimeCopyPath(textures[i].value.assetPath, f)], f)
  {
    BatchFromZero(textures, f, IsImporterFormatSupported(f), importers, e);
  }

  // ---------------------------------------------------------------------
  // Format lists

  /** `GetSupportedFormats`: every format but `None` that the platform can
      sample, in the order of their values. */
  function GetSupportedFormats(isFormatSupported: GraphicsFormat -> bool): (r: seq<GraphicsFormat>)
    ensures forall g :: g in r <==> !g.None? && isFormatSupported(g)
    ensures SubsequenceOf(r, AllFormats())
  {
    AllFormatsComplete();
    FilterContainsAll(AllFormats(), (g: GraphicsFormat) => !g.None? && isFormatSupported(g));
    FilterIsSubsequence(AllFormats(), (g: GraphicsFormat) => !g.None? && isFormatSupported(g));
    Filter(AllFormats(), (g: GraphicsFormat) => !g.None? && isFormatSupported(g))
  }

  /** `GetImporterSupportedFormats`: the table keys the platform can sample,
      in table order. */
  function GetImporterSupportedFormats(isFormatSupported: GraphicsFormat -> bool): (r: seq<GraphicsFormat>)
    ensures forall g :: g in r <==> IsImporterFormatSupported(g) && isFormatSupported(g)
    ensures SubsequenceOf(r, MappedFormats())
  {
    MappedFormatsComplete();
    FilterContainsAll(MappedFormats(), isFormatSupported);
    FilterIsSubsequence(MappedFormats(), isFormatSupported);
    Filter(MappedFormats(), isFormatSupported)
  }

  /** Every format the importer can be set to is also in the supported list. */
  lemma ImporterFormatsAreSupported(isFormatSupported: GraphicsFormat -> bool, g: GraphicsFormat)
    requires g in GetImporterSupportedFormats(isFormatSupported)
    ensures g in GetSupportedFormats(isFormatSupported)
  {
    MappingPreservesTexel(g);
  }

  // ---------------------------------------------------------------------
  // Size estimate

  /** The formats `GetBytesPerPixel` lists; every other format falls to the
      default. */
  predicate UtilityListed(f: GraphicsFormat) {
    match f
    case R8_UNorm => true
    case R8_SNorm => true
    case R8_UInt => true
    case R8_SInt => true
    case R8G8_UNorm => true
    case R8G8_SNorm => true
    case R16_UNorm => true
    case R16_SNorm => true
    case R16_SFloat => true
    case R8G8B8_UNorm => true
    case R8G8B8_SRGB => true
    case R8G8B8A8_UNorm => true
    case R8G8B8A8_SRGB => true
    case R16G16_SFloat => true
    case R32_SFloat => true
    case R16G16B16A16_SFloat => true
    case R32G32B32A32_SFloat => true
    case RGBA_DXT1_UNorm => true
    case RGBA_DXT1_SRGB => true
    case RGBA_DXT5_UNorm => true
    case RGBA_DXT5_SRGB => true
    case RGBA_BC7_UNorm => true
    case RGBA_BC7_SRGB => true
    case _ => false
  }

  /** `GetBytesPerPixel` of the utility. */
  function UtilityBytesPerPixel(f: GraphicsFormat): (r: nat)
    ensures r in {1, 2, 3, 4, 8, 16}
  {
    match f
    case R8_UNorm => 1
    case R8_SNorm => 1
    case R8_UInt => 1
    case R8_SInt => 1
    case R8G8_UNorm => 2
    case R8G8_SNorm => 2
    case R16_UNorm => 2
    case R16_SNorm => 2
    case R16_SFloat => 2
    case R8G8B8_UNorm => 3
    case R8G8B8_SRGB => 3
    case R8G8B8A8_UNorm => 4
    case R8G8B8A8_SRGB => 4
    case R16G16_SFloat => 4
    case R32_SFloat => 4
    case R16G16B16A16_SFloat => 8
    case R32G32B32A32_SFloat => 16
    case RGBA_DXT1_UNorm => 1
    case RGBA_DXT1_SRGB => 1
    case RGBA_DXT5_UNorm => 1
    case RGBA_DXT5_SRGB => 1
    case RGBA_BC7_UNorm => 1
    case RGBA_BC7_SRGB => 1
    case _ => 4
  }

  /** The estimate is the true texel size, rounded up to a byte, for every
      listed format, and 4 for the rest. */
  lemma UtilityBytesPerPixelIsTexelSize(f: GraphicsFormat)
    ensures UtilityBytesPerPixel(f) == if UtilityListed(f) then ReferenceBytesPerPixel(f) else 4
  {
    if f.None? || f.R8_SRGB? || f.R8_UNorm? || f.R8_SNorm? || f.R8_UInt? || f.R8_SInt? || f.R8G8_SRGB? || f.R8G8_UNorm? || f.R8G8_SNorm? || f.R8G8_UInt? {
      UtilityBytesPerPixelIsTexelSizePart1(f);
    } else if f.R8G8_SInt? || f.R8G8B8_SRGB? || f.R8G8B8_UNorm? || f.R8G8B8_SNorm? || f.R8G8B8_UInt? || f.R8G8B8_SInt? || f.B8G8R8_SRGB? || f.B8G8R8_UNorm? || f.R8G8B8A8_SRGB? || f.R8G8B8A8_UNorm? {
      UtilityBytesPerPixelIsTexelSizePart2(f);
    } else if f.R8G8B8A8_SNorm? || f.R8G8B8A8_UInt? || f.R8G8B8A8_SInt? || f.B8G8R8A8_SRGB? || f.B8G8R8A8_UNorm? || f.R16_UNorm? || f.R16_SNorm? || f.R16_UInt? {
      UtilityBytesPerPixelIsTexelSizePart3(f);
    } else if f.R16_SInt? || f.R16_SFloat? || f.R16G16_UNorm? || f.R16G16_SNorm? || f.R16G16_UInt? || f.R16G16_SInt? || f.R16G16_SFloat? || f.R16G16B16A16_UNorm? {
      UtilityBytesPerPixelIsTexelSizePart4(f);
    } else if f.R16G16B16A16_SNorm? || f.R16G16B16A16_UInt? || f.R16G16B16A16_SInt? || f.R16G16B16A16_SFloat? || f.R32_UInt? || f.R32_SInt? {
      UtilityBytesPerPixelIsTexelSizePart5(f);
    } else if f.R32_SFloat? || f.R32G32_UInt? || f.R32G32_SInt? || f.R32G32_SFloat? || f.R32G32B32_SFloat? || f.R32G32B32A32_UInt? {
      UtilityBytesPerPixelIsTexelSizePart6(f);
    } else if f.R32G32B32A32_SInt? || f.R32G32B32A32_SFloat? || f.RGBA_DXT1_SRGB? || f.RGBA_DXT1_UNorm? || f.RGBA_DXT5_SRGB? {
      UtilityBytesPerPixelIsTexelSizePart7(f);
    } else if f.RGBA_DXT5_UNorm? || f.RGB_BC6H_UFloat? || f.RGB_BC6H_SFloat? || f.RGBA_BC7_SRGB? {
      UtilityBytesPerPixelIsTexelSizePart8(f);
    } else if f.RGBA_BC7_UNorm? || f.RGB_ETC_UNorm? || f.RGBA_ETC2_SRGB? || f.RGBA_ETC2_UNorm? {
      UtilityBytesPerPixelIsTexelSizePart9(f);
    } else if f.RGB_PVRTC_4Bpp_UNorm? || f.RGBA_PVRTC_4Bpp_UNorm? || f.RGBA_ASTC4X4_SRGB? {
      UtilityBytesPerPixelIsTexelSizePart10(f);
    } else if f.RGBA_ASTC4X4_UNorm? || f.RGBA_ASTC6X6_SRGB? || f.RGBA_ASTC6X6_UNorm? {
      UtilityBytesPerPixelIsTexelSizePart11(f);
    } else {
      UtilityBytesPerPixelIsTexelSizePart12(f);
    }
  }

  /** Every listed sRGB format has its linear twin listed with it, so the two
      are estimated alike. */
  lemma UtilityTwinsAgree(f: GraphicsFormat)
    requires UtilityListed(f)
    ensures UtilityListed(LinearTwin(f))
    ensures UtilityBytesPerPixel(LinearTwin(f)) == UtilityBytesPerPixel(f)
  {
    UtilityBytesPerPixelIsTexelSize(f);
    UtilityBytesPerPixelIsTexelSize(LinearTwin(f));
    LinearTwinSameSize(f);
  }

  /** The converse fails: the utility lists the one- and two-channel 8-bit
      UNorm formats but not their sRGB twins, which fall to the default of
      four bytes. These are the only sRGB formats left out while their
      linear twin is listed. */
  lemma UtilityTwinsDisagree(g: GraphicsFormat)
    requires IsSrgb(g)
    ensures UtilityListed(LinearTwin(g)) && !UtilityListed(g) <==> g == R8_SRGB || g == R8G8_SRGB
    ensures UtilityBytesPerPixel(R8_UNorm) == 1 && UtilityBytesPerPixel(R8_SRGB) == 4
    ensures UtilityBytesPerPixel(R8G8_UNorm) == 2 && UtilityBytesPerPixel(R8G8_SRGB) == 4
  {
  }

  // ---------------------------------------------------------------------
  // Case splits
  //
  // The properties above quantify over every format or layout. The
  // solver proves each for a few enum cases at a time, in the lemmas
  // below, which the properties' bodies dispatch to.

  // The cases of `MappingPreservesTexel`, a few at a time.
  lemma MappingPreservesTexelPart1(f: GraphicsFormat)
    requires f.None? || f.R8_SRGB? || f.R8_UNorm? || f.R8_SNorm? || f.R8_UInt? || f.R8_SInt? || f.R8G8_SRGB? || f.R8G8_UNorm?
    ensures IsImporterFormatSupported(f) ==>
              !f.None? && ImporterTexel(FormatMapping(f).value) == Some(LayoutTexel(LayoutOf(f)))
  {
  }

  lemma MappingPreservesTexelPart2(f: GraphicsFormat)
    requires f.R8G8_SNorm? || f.R8G8_UInt? || f.R8G8_SInt? || f.R8G8B8_SRGB? || f.R8G8B8_UNorm? || f.R8G8B8_SNorm? || f.R8G8B8_UInt? || f.R8G8B8_SInt?
    ensures IsImporterFormatSupported(f) ==>
              !f.None? && ImporterTexel(FormatMapping(f).value) == Some(LayoutTexel(LayoutOf(f)))
  {
  }

  lemma MappingPreservesTexelPart3(f: GraphicsFormat)
    requires f.B8G8R8_SRGB? || f.B8G8R8_UNorm? || f.R8G8B8A8_SRGB? || f.R8G8B8A8_UNorm? || f.R8G8B8A8_SNorm? || f.R8G8B8A8_UInt? || f.R8G8B8A8_SInt? || f.B8G8R8A8_SRGB?
    ensures IsImporterFormatSupported(f) ==>
              !f.None? && ImporterTexel(FormatMapping(f).value) == Some(LayoutTexel(LayoutOf(f)))
  {
  }

  lemma MappingPreservesTexelPart4(f: GraphicsFormat)
    requires f.B8G8R8A8_UNorm? || f.R16_UNorm? || f.R16_SNorm? || f.R16_UInt? || f.R16_SInt? || f.R16_SFloat?
    ensures IsImporterFormatSupported(f) ==>
              !f.None? && ImporterTexel(FormatMapping(f).value) == Some(LayoutTexel(LayoutOf(f)))
  {
  }

  lemma MappingPreservesTexelPart5(f: GraphicsFormat)
    requires f.R16G16_UNorm? || f.R16G16_SNorm? || f.R16G16_UInt? || f.R16G16_SInt? || f.R16G16_SFloat? || f.R16G16B16A16_UNorm?
    ensures IsImporterFormatSupported(f) ==>
              !f.None? && ImporterTexel(FormatMapping(f).value) == Some(LayoutTexel(LayoutOf(f)))
  {
  }

  lemma MappingPreservesTexelPart6(f: GraphicsFormat)
    requires f.R16G16B16A16_SNorm? || f.R16G16B16A16_UInt? || f.R16G16B16A16_SInt? || f.R16G16B16A16_SFloat? || f.R32_UInt? || f.R32_SInt?
    ensures IsImporterFormatSupported(f) ==>
              !f.None? && ImporterTexel(FormatMapping(f).value) == Some(LayoutTexel(LayoutOf(f)))
  {
  }

  lemma MappingPreservesTexelPart7(f: GraphicsFormat)
    requires f.R32_SFloat? || f.R32G32_UInt? || f.R32G32_SInt? || f.R32G32_SFloat? || f.R32G32B32_SFloat?
    ensures IsImporterFormatSupported(f) ==>
              !f.None? && ImporterTexel(FormatMapping(f).value) == Some(LayoutTexel(LayoutOf(f)))
  {
  }

  lemma MappingPreservesTexelPart8(f: GraphicsFormat)
    requires f.R32G32B32A32_UInt? || f.R32G32B32A32_SInt? || f.R32G32B32A32_SFloat? || f.RGBA_DXT1_SRGB? || f.RGBA_DXT1_UNorm?
    ensures IsImporterFormatSupported(f) ==>
              !f.None? && ImporterTexel(FormatMapping(f).value) == Some(LayoutTexel(LayoutOf(f)))
  {
  }

  lemma MappingPreservesTexelPart9(f: GraphicsFormat)
    requires f.RGBA_DXT5_SRGB? || f.RGBA_DXT5_UNorm? || f.RGB_BC6H_UFloat? || f.RGB_BC6H_SFloat?
    ensures IsImporterFormatSupported(f) ==>
              !f.None? && ImporterTexel(FormatMapping(f).value) == Some(LayoutTexel(LayoutOf(f)))
  {
  }

  lemma MappingPreservesTexelPart10(f: GraphicsFormat)
    requires f.RGBA_BC7_SRGB? || f.RGBA_BC7_UNorm? || f.RGB_ETC_UNorm? || f.RGBA_ETC2_SRGB?
    ensures IsImporterFormatSupported(f) ==>
              !f.None? && ImporterTexel(FormatMapping(f).value) == Some(LayoutTexel(LayoutOf(f)))
  {
  }

  lemma MappingPreservesTexelPart11(f: GraphicsFormat)
    requires f.RGBA_ETC2_UNorm? || f.RGB_PVRTC_4Bpp_UNorm? || f.RGBA_PVRTC_4Bpp_UNorm?
    ensures IsImporterFormatSupported(f) ==>
              !f.None? && ImporterTexel(FormatMapping(f).value) == Some(LayoutTexel(LayoutOf(f)))
  {
  }

  lemma MappingPreservesTexelPart12(f: GraphicsFormat)
    requires f.RGBA_ASTC4X4_SRGB? || f.RGBA_ASTC4X4_UNorm? || f.RGBA_ASTC6X6_SRGB?
    ensures IsImporterFormatSupported(f) ==>
              !f.None? && ImporterTexel(FormatMapping(f).value) == Some(LayoutTexel(LayoutOf(f)))
  {
  }

  lemma MappingPreservesTexelPart13(f: GraphicsFormat)
    requires f.RGBA_ASTC6X6_UNorm? || f.RGBA_ASTC8X8_UNorm? || f.RGBA_ASTC10X10_UNorm?
    ensures IsImporterFormatSupported(f) ==>
              !f.None? && ImporterTexel(FormatMapping(f).value) == Some(LayoutTexel(LayoutOf(f)))
  {
  }

  lemma MappingPreservesTexelPart14(f: GraphicsFormat)
    requires f.RGBA_ASTC12X12_UNorm?
    ensures IsImporterFormatSupported(f) ==>
              !f.None? && ImporterTexel(FormatMapping(f).value) == Some(LayoutTexel(LayoutOf(f)))
  {
  }

  // The cases of `LinearSourceInvertsMapping`, a few at a time.
  lemma LinearSourceInvertsMappingPart1(f: GraphicsFormat)
    requires f.None? || f.R8_SRGB? || f.R8_UNorm? || f.R8_SNorm? || f.R8_UInt? || f.R8_SInt?
    ensures IsImporterFormatSupported(f) ==> LinearSource(FormatMapping(f).value) == Some(LinearTwin(f))
  {
  }

  lemma LinearSourceInvertsMappingPart2(f: GraphicsFormat)
    requires f.R8G8_SRGB? || f.R8G8_UNorm? || f.R8G8_SNorm? || f.R8G8_UInt? || f.R8G8_SInt? || f.R8G8B8_SRGB?
    ensures IsImporterFormatSupported(f) ==> LinearSource(FormatMapping(f).value) == Some(LinearTwin(f))
  {
  }

  lemma LinearSourceInvertsMappingPart3(f: GraphicsFormat)
    requires f.R8G8B8_UNorm? || f.R8G8B8_SNorm? || f.R8G8B8_UInt? || f.R8G8B8_SInt? || f.B8G8R8_SRGB? || f.B8G8R8_UNorm?
    ensures IsImporterFormatSupported(f) ==> LinearSource(FormatMapping(f).value) == Some(LinearTwin(f))
  {
  }

  lemma LinearSourceInvertsMappingPart4(f: GraphicsFormat)
    requires f.R8G8B8A8_SRGB? || f.R8G8B8A8_UNorm? || f.R8G8B8A8_SNorm? || f.R8G8B8A8_UInt? || f.R8G8B8A8_SInt? || f.B8G8R8A8_SRGB?
    ensures IsImporterFormatSupported(f) ==> LinearSource(FormatMapping(f).value) == Some(LinearTwin(f))
  {
  }

  lemma LinearSourceInvertsMappingPart5(f: GraphicsFormat)
    requires f.B8G8R8A8_UNorm? || f.R16_UNorm? || f.R16_SNorm? || f.R16_UInt? || f.R16_SInt? || f.R16_SFloat?
    ensures IsImporterFormatSupported(f) ==> LinearSource(FormatMapping(f).value) == Some(LinearTwin(f))
  {
  }

  lemma LinearSourceInvertsMappingPart6(f: GraphicsFormat)
    requires f.R16G16_UNorm? || f.R16G16_SNorm? || f.R16G16_UInt? || f.R16G16_SInt? || f.R16G16_SFloat? || f.R16G16B16A16_UNorm?
    ensures IsImporterFormatSupported(f) ==> LinearSource(FormatMapping(f).value) == Some(LinearTwin(f))
  {
  }

  lemma LinearSourceInvertsMappingPart7(f: GraphicsFormat)
    requires f.R16G16B16A16_SNorm? || f.R16G16B16A16_UInt? || f.R16G16B16A16_SInt? || f.R16G16B16A16_SFloat? || f.R32_UInt? || f.R32_SInt?
    ensures IsImporterFormatSupported(f) ==> LinearSource(FormatMapping(f).value) == Some(LinearTwin(f))
  {
  }

  lemma LinearSourceInvertsMappingPart8(f: GraphicsFormat)
    requires f.R32_SFloat? || f.R32G32_UInt? || f.R32G32_SInt? || f.R32G32_SFloat? || f.R32G32B32_SFloat? || f.R32G32B32A32_UInt?
    ensures IsImporterFormatSupported(f) ==> LinearSource(FormatMapping(f).value) == Some(LinearTwin(f))
  {
  }

  lemma LinearSourceInvertsMappingPart9(f: GraphicsFormat)
    requires f.R32G32B32A32_SInt? || f.R32G32B32A32_SFloat? || f.RGBA_DXT1_SRGB? || f.RGBA_DXT1_UNorm? || f.RGBA_DXT5_SRGB? || f.RGBA_DXT5_UNorm?
    ensures IsImporterFormatSupported(f) ==> LinearSource(FormatMapping(f).value) == Some(LinearTwin(f))
  {
  }

  lemma LinearSourceInvertsMappingPart10(f: GraphicsFormat)
    requires f.RGB_BC6H_UFloat? || f.RGB_BC6H_SFloat? || f.RGBA_BC7_SRGB? || f.RGBA_BC7_UNorm? || f.RGB_ETC_UNorm? || f.RGBA_ETC2_SRGB?
    ensures IsImporterFormatSupported(f) ==> LinearSource(FormatMapping(f).value) == Some(LinearTwin(f))
  {
  }

  lemma LinearSourceInvertsMappingPart11(f: GraphicsFormat)
    requires f.RGBA_ETC2_UNorm? || f.RGB_PVRTC_4Bpp_UNorm? || f.RGBA_PVRTC_4Bpp_UNorm? || f.RGBA_ASTC4X4_SRGB? || f.RGBA_ASTC4X4_UNorm? || f.RGBA_ASTC6X6_SRGB?
    ensures IsImporterFormatSupported(f) ==> LinearSource(FormatMapping(f).value) == Some(LinearTwin(f))
  {
  }

  lemma LinearSourceInvertsMappingPart12(f: GraphicsFormat)
    requires f.RGBA_ASTC6X6_UNorm? || f.RGBA_ASTC8X8_UNorm? || f.RGBA_ASTC10X10_UNorm? || f.RGBA_ASTC12X12_UNorm?
    ensures IsImporterFormatSupported(f) ==> LinearSource(FormatMapping(f).value) == Some(LinearTwin(f))
  {
  }

  // The cases of `LinearSourceIsKey`, a few at a time.
  lemma LinearSourceIsKeyPart1(i: ImporterFormat)
    requires i.Automatic? || i.R8? || i.R16? || i.RHalf? || i.RFloat? || i.RG16?
    ensures LinearSource(i).Some? ==> FormatMapping(LinearSource(i).value) == Some(i)
  {
  }

  lemma LinearSourceIsKeyPart2(i: ImporterFormat)
    requires i.RGHalf? || i.RGFloat? || i.RGB24? || i.RGBA32? || i.RGBAHalf?
    ensures LinearSource(i).Some? ==> FormatMapping(LinearSource(i).value) == Some(i)
  {
  }

  lemma LinearSourceIsKeyPart3(i: ImporterFormat)
    requires i.RGBAFloat? || i.DXT1? || i.DXT5? || i.BC6H?
    ensures LinearSource(i).Some? ==> FormatMapping(LinearSource(i).value) == Some(i)
  {
  }

  lemma LinearSourceIsKeyPart4(i: ImporterFormat)
    requires i.BC7? || i.ASTC_4x4? || i.ASTC_6x6?
    ensures LinearSource(i).Some? ==> FormatMapping(LinearSource(i).value) == Some(i)
  {
  }

  lemma LinearSourceIsKeyPart5(i: ImporterFormat)
    requires i.ASTC_8x8? || i.ASTC_10x10? || i.ASTC_12x12?
    ensures LinearSource(i).Some? ==> FormatMapping(LinearSource(i).value) == Some(i)
  {
  }

  lemma LinearSourceIsKeyPart6(i: ImporterFormat)
    requires i.ETC_RGB4? || i.ETC2_RGBA8?
    ensures LinearSource(i).Some? ==> FormatMapping(LinearSource(i).value) == Some(i)
  {
  }

  lemma LinearSourceIsKeyPart7(i: ImporterFormat)
    requires i.PVRTC_RGB4? || i.PVRTC_RGBA4?
    ensures LinearSource(i).Some? ==> FormatMapping(LinearSource(i).value) == Some(i)
  {
  }

  // The cases of `UtilityBytesPerPixelIsTexelSize`, a few at a time.
  lemma UtilityBytesPerPixelIsTexelSizePart1(f: GraphicsFormat)
    requires f.None? || f.R8_SRGB? || f.R8_UNorm? || f.R8_SNorm? || f.R8_UInt? || f.R8_SInt? || f.R8G8_SRGB? || f.R8G8_UNorm? || f.R8G8_SNorm? || f.R8G8_UInt?
    ensures UtilityBytesPerPixel(f) == if UtilityListed(f) then ReferenceBytesPerPixel(f) else 4
  {
  }

  lemma UtilityBytesPerPixelIsTexelSizePart2(f: GraphicsFormat)
    requires f.R8G8_SInt? || f.R8G8B8_SRGB? || f.R8G8B8_UNorm? || f.R8G8B8_SNorm? || f.R8G8B8_UInt? || f.R8G8B8_SInt? || f.B8G8R8_SRGB? || f.B8G8R8_UNorm? || f.R8G8B8A8_SRGB? || f.R8G8B8A8_UNorm?
    ensures UtilityBytesPerPixel(f) == if UtilityListed(f) then ReferenceBytesPerPixel(f) else 4
  {
  }

  lemma UtilityBytesPerPixelIsTexelSizePart3(f: GraphicsFormat)
    requires f.R8G8B8A8_SNorm? || f.R8G8B8A8_UInt? || f.R8G8B8A8_SInt? || f.B8G8R8A8_SRGB? || f.B8G8R8A8_UNorm? || f.R16_UNorm? || f.R16_SNorm? || f.R16_UInt?
    ensures UtilityBytesPerPixel(f) == if UtilityListed(f) then ReferenceBytesPerPixel(f) else 4
  {
  }

  lemma UtilityBytesPerPixelIsTexelSizePart4(f: GraphicsFormat)
    requires f.R16_SInt? || f.R16_SFloat? || f.R16G16_UNorm? || f.R16G16_SNorm? || f.R16G16_UInt? || f.R16G16_SInt? || f.R16G16_SFloat? || f.R16G16B16A16_UNorm?
    ensures UtilityBytesPerPixel(f) == if UtilityListed(f) then ReferenceBytesPerPixel(f) else 4
  {
  }

  lemma UtilityBytesPerPixelIsTexelSizePart5(f: GraphicsFormat)
    requires f.R16G16B16A16_SNorm? || f.R16G16B16A16_UInt? || f.R16G16B16A16_SInt? || f.R16G16B16A16_SFloat? || f.R32_UInt? || f.R32_SInt?
    ensures UtilityBytesPerPixel(f) == if UtilityListed(f) then ReferenceBytesPerPixel(f) else 4
  {
  }

  lemma UtilityBytesPerPixelIsTexelSizePart6(f: GraphicsFormat)
    requires f.R32_SFloat? || f.R32G32_UInt? || f.R32G32_SInt? || f.R32G32_SFloat? || f.R32G32B32_SFloat? || f.R32G32B32A32_UInt?
    ensures UtilityBytesPerPixel(f) == if UtilityListed(f) then ReferenceBytesPerPixel(f) else 4
  {
  }

  lemma UtilityBytesPerPixelIsTexelSizePart7(f: GraphicsFormat)
    requires f.R32G32B32A32_SInt? || f.R32G32B32A32_SFloat? || f.RGBA_DXT1_SRGB? || f.RGBA_DXT1_UNorm? || f.RGBA_DXT5_SRGB?
    ensures UtilityBytesPerPixel(f) == if UtilityListed(f) then ReferenceBytesPerPixel(f) else 4
  {
  }

  lemma UtilityBytesPerPixelIsTexelSizePart8(f: GraphicsFormat)
    requires f.RGBA_DXT5_UNorm? || f.RGB_BC6H_UFloat? || f.RGB_BC6H_SFloat? || f.RGBA_BC7_SRGB?
    ensures UtilityBytesPerPixel(f) == if UtilityListed(f) then ReferenceBytesPerPixel(f) else 4
  {
  }

  lemma UtilityBytesPerPixelIsTexelSizePart9(f: GraphicsFormat)
    requires f.RGBA_BC7_UNorm? || f.RGB_ETC_UNorm? || f.RGBA_ETC2_SRGB? || f.RGBA_ETC2_UNorm?
    ensures UtilityBytesPerPixel(f) == if UtilityListed(f) then ReferenceBytesPerPixel(f) else 4
  {
  }

  lemma UtilityBytesPerPixelIsTexelSizePart10(f: GraphicsFormat)
    requires f.RGB_PVRTC_4Bpp_UNorm? || f.RGBA_PVRTC_4Bpp_UNorm? || f.RGBA_ASTC4X4_SRGB?
    ensures UtilityBytesPerPixel(f) == if UtilityListed(f) then ReferenceBytesPerPixel(f) else 4
  {
  }

  lemma UtilityBytesPerPixelIsTexelSizePart11(f: GraphicsFormat)
    requires f.RGBA_ASTC4X4_UNorm? || f.RGBA_ASTC6X6_SRGB? || f.RGBA_ASTC6X6_UNorm?
    ensures UtilityBytesPerPixel(f) == if UtilityListed(f) then ReferenceBytesPerPixel(f) else 4
  {
  }

  lemma UtilityBytesPerPixelIsTexelSizePart12(f: GraphicsFormat)
    requires f.RGBA_ASTC8X8_UNorm? || f.RGBA_ASTC10X10_UNorm? || f.RGBA_ASTC12X12_UNorm?
    ensures UtilityBytesPerPixel(f) == if UtilityListed(f) then ReferenceBytesPerPixel(f) else 4
  {
  }
}
