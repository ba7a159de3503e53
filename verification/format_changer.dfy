/** The texture format changer window (`TextureFormatChanger`): its list of
    common formats and how the list is narrowed, searched and labelled; the
    texture list it edits (drag and drop, pruning of destroyed entries); the
    three batch actions and the size estimate. The batch actions run the same
    loop as the utility's batch change, so they are stated through it. */
module FormatChanger {
  import opened Strings
  import opened Seqs
  import opened Formats
  import opened Textures
  import FormatUtility

  // ---------------------------------------------------------------------
  // Size estimate

  /** The formats the window's `GetBytesPerPixel` lists; every other format
      falls to the default. */
  predicate ChangerListed(f: GraphicsFormat) {
    f == R8_UNorm || f == R8G8_UNorm || f == R16_UNorm ||
    f == R8G8B8_UNorm || f == R8G8B8_SRGB ||
    f == R8G8B8A8_UNorm || f == R8G8B8A8_SRGB || f == R16G16_SFloat || f == R32_SFloat ||
    f == R16G16B16A16_SFloat || f == R32G32B32A32_SFloat ||
    f == RGBA_DXT1_UNorm || f == RGBA_DXT1_SRGB || f == RGBA_DXT5_UNorm || f == RGBA_DXT5_SRGB ||
    f == RGBA_BC7_UNorm || f == RGBA_BC7_SRGB ||
    f == RGBA_ASTC4X4_UNorm || f == RGBA_ASTC4X4_SRGB || f == RGBA_ASTC6X6_UNorm || f == RGBA_ASTC8X8_UNorm
  }

  /** The window's `GetBytesPerPixel`. */
  function ChangerBytesPerPixel(f: GraphicsFormat): (r: nat)
    ensures r in {1, 2, 3, 4, 8, 16}
    ensures !ChangerListed(f) ==> r == 4
  {
    match f
    case R8_UNorm => 1
    case R8G8_UNorm => 2
    case R16_UNorm => 2
    case R8G8B8_UNorm => 3
    case R8G8B8_SRGB => 3
    case R8G8B8A8_UNorm => 4
    case R8G8B8A8_SRGB => 4
    case R16G16_SFloat => 4
    case R32_SFloat => 4
    case R16G16B16A16_SFloat => 8
    case R32G32B32A32_SFloat => 16
    case RGBA_DXT1_UNorm => 1
    case RGBA_DXT1_SRGB => 1
    case RGBA_DXT5_UNorm => 1
    case RGBA_DXT5_SRGB => 1
    case RGBA_BC7_UNorm => 1
    case RGBA_BC7_SRGB => 1
    case RGBA_ASTC4X4_UNorm => 1
    case RGBA_ASTC4X4_SRGB => 1
    case RGBA_ASTC6X6_UNorm => 1
    case RGBA_ASTC8X8_UNorm => 1
    case _ => 4
  }

  /** Every listed format is given the size its texel really takes, rounded
      up to whole bytes (so the ASTC 4x4, 6x6 and 8x8 blocks, under one byte
      per texel, are given one byte). */
  lemma ChangerListedSizes(f: GraphicsFormat)
    requires ChangerListed(f)
    ensures ChangerBytesPerPixel(f) == ReferenceBytesPerPixel(f)
  {
    ChangerSizesPart1();
    ChangerSizesPart2();
    ChangerSizesPart3();
    ChangerSizesPart4();
    ChangerSizesPart5();
    ChangerSizesPart6();
    ChangerSizesPart7();
    ChangerSizesPart8();
    ChangerSizesPart9();
    ChangerSizesPart10();
    ChangerSizesPart11();
    ChangerSizesPart12();
    ChangerSizesPart13();
    ChangerSizesPart14();
    ChangerSizesPart15();
    ChangerSizesPart16();
  }

  /** The window's size table against the texel sizes: exact for the listed
      formats, four for every other one. */
  lemma ChangerBytesPerPixelIsTexelSize(f: GraphicsFormat)
    ensures ChangerBytesPerPixel(f) == if ChangerListed(f) then ReferenceBytesPerPixel(f) else 4
  {
    if ChangerListed(f) {
      ChangerListedSizes(f);
    }
  }

  /** The ASTC 6x6 pair is listed only in its UNorm form: the sRGB twin of a
      one-byte format is estimated at four. */
  lemma ChangerAstc6x6TwinsDisagree()
    ensures LinearTwin(RGBA_ASTC6X6_SRGB) == RGBA_ASTC6X6_UNorm
    ensures ChangerBytesPerPixel(RGBA_ASTC6X6_UNorm) == 1
    ensures ChangerBytesPerPixel(RGBA_ASTC6X6_SRGB) == 4
  {
  }

  /** Where both the window and the utility list a format they agree; the
      window lists every ASTC block it sizes at one byte, the utility does
      not list ASTC 8x8. */
  lemma ChangerVersusUtility(f: GraphicsFormat)
    ensures ChangerListed(f) && FormatUtility.UtilityListed(f) ==>
              ChangerBytesPerPixel(f) == FormatUtility.UtilityBytesPerPixel(f)
    ensures ChangerBytesPerPixel(f) != FormatUtility.UtilityBytesPerPixel(f) <==>
              ChangerListed(f) != FormatUtility.UtilityListed(f) && ReferenceBytesPerPixel(f) != 4
  {
    ChangerBytesPerPixelIsTexelSize(f);
    FormatUtility.UtilityBytesPerPixelIsTexelSize(f);
  }

  /** Texels of a list entry; a null entry has none. */
  function TexelsOf(t: Option<Texture2D>): nat {
    if t.Some? then t.value.width * t.value.height else 0
  }

  /** The integer part of `EstimateSizeWithFormat`: bytes per texel of `f`
      times texels, summed over the non-null textures. */
  function EstimateBytes(textures: seq<Option<Texture2D>>, f: GraphicsFormat): nat
    decreases |textures|
  {
    if |textures| == 0 then 0
    else (if textures[0].Some? then TexelsOf(textures[0]) * ChangerBytesPerPixel(f) else 0)
         + EstimateBytes(textures[1..], f)
  }

  /** Texels of the non-null textures. */
  function TexelCount(textures: seq<Option<Texture2D>>): nat
    decreases |textures|
  {
    if |textures| == 0 then 0 else TexelsOf(textures[0]) + TexelCount(textures[1..])
  }

  /** The estimate is the format's size per texel times the texels of the
      non-null textures, whatever their order or the null entries among
      them. */
  lemma {:induction false} EstimateIsSizeTimesTexels(textures: seq<Option<Texture2D>>, f: GraphicsFormat)
    ensures EstimateBytes(textures, f) == ChangerBytesPerPixel(f) * TexelCount(textures)
    decreases |textures|
  {
    if |textures| > 0 {
      EstimateIsSizeTimesTexels(textures[1..], f);
      var n := TexelsOf(textures[0]);
      var b := ChangerBytesPerPixel(f);
      assert EstimateBytes(textures, f) == n * b + EstimateBytes(textures[1..], f);
      Distribute(b, n, TexelCount(textures[1..]));
    }
  }

  lemma Distribute(b: int, n: int, t: int)
    ensures b * (n + t) == n * b + b * t
  {
  }

  // ---------------------------------------------------------------------
  // The format list

  /** An entry of the window's format list. */
  datatype FormatEntry = FormatEntry(format: GraphicsFormat, description: string)

  /** The keys of `commonFormats`, in the order they are written (the order
      the dictionary enumerates them in). */
  function CommonFormatList(): seq<GraphicsFormat> {
    [
      R8G8B8A8_UNorm,
      R8G8B8A8_SRGB,
      R8G8B8_UNorm,
      R8G8B8_SRGB,
      R16G16B16A16_SFloat,
      R32G32B32A32_SFloat,
      R8_UNorm,
      R16_UNorm,
      R16_SNorm,
      R16_UInt,
      R16_SInt,
      R16_SFloat,
      R32_SFloat,
      R8G8_UNorm,
      R16G16_SFloat,
      RGBA_DXT1_UNorm,
      RGBA_DXT1_SRGB,
      RGBA_DXT5_UNorm,
      RGBA_DXT5_SRGB,
      RGB_BC6H_UFloat,
      RGBA_BC7_UNorm,
      RGBA_BC7_SRGB,
      RGBA_ASTC4X4_UNorm,
      RGBA_ASTC4X4_SRGB,
      RGBA_ASTC6X6_UNorm,
      RGBA_ASTC8X8_UNorm,
      R8G8B8A8_SNorm,
      B8G8R8A8_UNorm,
      B8G8R8A8_SRGB,
      RGB_ETC_UNorm,
      RGBA_ETC2_UNorm,
      RGB_PVRTC_4Bpp_UNorm,
      RGBA_PVRTC_4Bpp_UNorm
    ]
  }

  /** The description `commonFormats` gives each of its keys. */
  function CommonDescription(f: GraphicsFormat): string {
    match f
    case R8G8B8A8_UNorm => "RGBA 32位 - 标准格式"
    case R8G8B8A8_SRGB => "RGBA 32位 sRGB - 颜色纹理"
    case R8G8B8_UNorm => "RGB 24位 - 无透明通道"
    case R8G8B8_SRGB => "RGB 24位 sRGB - 无透明通道"
    case R16G16B16A16_SFloat => "RGBA 64位半精度 - HDR纹理"
    case R32G32B32A32_SFloat => "RGBA 128位全精度 - 高精度HDR"
    case R8_UNorm => "R 8位 - 单通道灰度"
    case R16_UNorm => "R 16位 - 高精度单通道"
    case R16_SNorm => "R 16位 - 高精度单通道"
    case R16_UInt => "R 16位 - 高精度单通道"
    case R16_SInt => "R 16位 - 高精度单通道"
    case R16_SFloat => "R 16位 - 高精度单通道"
    case R32_SFloat => "R 32位浮点 - 单通道数据"
    case R8G8_UNorm => "RG 16位 - 双通道"
    case R16G16_SFloat => "RG 32位半精度 - 双通道浮点"
    case RGBA_DXT1_UNorm => "DXT1 - 压缩RGB (4:1)"
    case RGBA_DXT1_SRGB => "DXT1 sRGB - 压缩RGB颜色 (4:1)"
    case RGBA_DXT5_UNorm => "DXT5 - 压缩RGBA (4:1)"
    case RGBA_DXT5_SRGB => "DXT5 sRGB - 压缩RGBA颜色 (4:1)"
    case RGB_BC6H_UFloat => "BC6H - HDR压缩 (6:1)"
    case RGBA_BC7_UNorm => "BC7 - 高质量压缩 (4:1)"
    case RGBA_BC7_SRGB => "BC7 sRGB - 高质量颜色压缩 (4:1)"
    case RGBA_ASTC4X4_UNorm => "ASTC 4x4 - 移动端高质量 (8:1)"
    case RGBA_ASTC4X4_SRGB => "ASTC 4x4 sRGB - 移动端颜色 (8:1)"
    case RGBA_ASTC6X6_UNorm => "ASTC 6x6 - 移动端标准 (5.56:1)"
    case RGBA_ASTC8X8_UNorm => "ASTC 8x8 - 移动端压缩 (4:1)"
    case R8G8B8A8_SNorm => "RGBA 32位 SNorm - 法线贴图"
    case B8G8R8A8_UNorm => "BGRA 32位 - 系统格式"
    case B8G8R8A8_SRGB => "BGRA 32位 sRGB - 系统颜色"
    case RGB_ETC_UNorm => "ETC RGB - Android压缩"
    case RGBA_ETC2_UNorm => "ETC2 RGBA - Android压缩"
    case RGB_PVRTC_4Bpp_UNorm => "PVRTC RGB 4bpp - iOS压缩"
    case RGBA_PVRTC_4Bpp_UNorm => "PVRTC RGBA 4bpp - iOS压缩"
    case _ => ""
  }

  /** `commonFormats` as the window enumerates it. */
  function CommonFormats(): (r: seq<FormatEntry>)
    ensures |r| == |CommonFormatList()|
    ensures forall i :: 0 <= i < |r| ==> r[i] == FormatEntry(CommonFormatList()[i], CommonDescription(CommonFormatList()[i]))
    ensures forall e :: e in r ==> e.description == CommonDescription(e.format)
  {
    seq(|CommonFormatList()|, i requires 0 <= i < |CommonFormatList()| =>
      FormatEntry(CommonFormatList()[i], CommonDescription(CommonFormatList()[i])))
  }

  /** The window's two toggles as a test on an entry of `commonFormats`;
      `isFormatSupported` is the platform query `IsFormatSupported` makes. */
  function ToggleKeeps(isFormatSupported: GraphicsFormat -> bool, onlySupported: bool, onlyImporter: bool): FormatEntry -> bool {
    (e: FormatEntry) =>
      !(onlySupported && !isFormatSupported(e.format)) &&
      !(onlyImporter && !FormatUtility.IsImporterFormatSupported(e.format))
  }

  /** `GetFormatsToShow`: the entries of `commonFormats` the toggles let
      through, with their descriptions, in the dictionary's order. */
  function GetFormatsToShow(isFormatSupported: GraphicsFormat -> bool, onlySupported: bool, onlyImporter: bool): (r: seq<FormatEntry>)
    ensures forall e :: e in r <==>
              e in CommonFormats() &&
              (onlySupported ==> isFormatSupported(e.format)) &&
              (onlyImporter ==> FormatUtility.IsImporterFormatSupported(e.format))
    ensures forall e :: e in r ==> e.description == CommonDescription(e.format)
  {
    FilterContainsAll(CommonFormats(), ToggleKeeps(isFormatSupported, onlySupported, onlyImporter));
    Filter(CommonFormats(), ToggleKeeps(isFormatSupported, onlySupported, onlyImporter))
  }

  /** The shown entries keep the dictionary's order; with both toggles off
      every entry is shown. */
  lemma FormatsToShowOrder(isFormatSupported: GraphicsFormat -> bool, onlySupported: bool, onlyImporter: bool)
    ensures SubsequenceOf(GetFormatsToShow(isFormatSupported, onlySupported, onlyImporter), CommonFormats())
    ensures !onlySupported && !onlyImporter ==> GetFormatsToShow(isFormatSupported, onlySupported, onlyImporter) == CommonFormats()
  {
    FilterIsSubsequence(CommonFormats(), ToggleKeeps(isFormatSupported, onlySupported, onlyImporter));
    if !onlySupported && !onlyImporter {
      FilterKeepsAll(CommonFormats(), ToggleKeeps(isFormatSupported, onlySupported, onlyImporter));
    }
  }

  /** The search test of the format list: the entry is skipped when the
      filter is non-empty and neither the lower-cased format name nor the
      lower-cased description contains the lower-cased filter. */
  predicate ChangerShows(e: FormatEntry, filter: string) {
    !(|filter| > 0 &&
      !Contains(Lower(Name(e.format)), Lower(filter)) &&
      !Contains(Lower(e.description), Lower(filter)))
  }

  /** An entry is shown exactly when the filter is empty, or its name or its
      description contains the filter ignoring case. */
  lemma ChangerShowsIff(e: FormatEntry, filter: string)
    ensures ChangerShows(e, filter) <==>
              |filter| == 0 || ContainsIgnoringCase(Name(e.format), filter) || ContainsIgnoringCase(e.description, filter)
  {
    ContainsLowerIffIgnoringCase(Name(e.format), filter);
    ContainsLowerIffIgnoringCase(e.description, filter);
  }

  function Searched(filter: string): FormatEntry -> bool {
    (e: FormatEntry) => ChangerShows(e, filter)
  }

  /** The rows the format list draws: the shown entries the search lets
      through, in the dictionary's order. */
  function ChangerRows(isFormatSupported: GraphicsFormat -> bool, onlySupported: bool, onlyImporter: bool, filter: string): (r: seq<FormatEntry>)
    ensures forall e :: e in r <==>
              e in CommonFormats() &&
              (onlySupported ==> isFormatSupported(e.format)) &&
              (onlyImporter ==> FormatUtility.IsImporterFormatSupported(e.format)) &&
              (|filter| == 0 || ContainsIgnoringCase(Name(e.format), filter) || ContainsIgnoringCase(e.description, filter))
    ensures SubsequenceOf(r, GetFormatsToShow(isFormatSupported, onlySupported, onlyImporter))
  {
    var shown := GetFormatsToShow(isFormatSupported, onlySupported, onlyImporter);
    FilterContainsAll(shown, Searched(filter));
    FilterIsSubsequence(shown, Searched(filter));
    forall e | true
      ensures ChangerShows(e, filter) <==>
                |filter| == 0 || ContainsIgnoringCase(Name(e.format), filter) || ContainsIgnoringCase(e.description, filter)
    {
      ChangerShowsIff(e, filter);
    }
    Filter(shown, Searched(filter))
  }

  /** An empty search draws every shown entry. */
  lemma EmptySearchShowsAll(isFormatSupported: GraphicsFormat -> bool, onlySupported: bool, onlyImporter: bool)
    ensures ChangerRows(isFormatSupported, onlySupported, onlyImporter, "") == GetFormatsToShow(isFormatSupported, onlySupported, onlyImporter)
  {
    FilterKeepsAll(GetFormatsToShow(isFormatSupported, onlySupported, onlyImporter), Searched(""));
  }

  // ---------------------------------------------------------------------
  // Status labels and the action buttons

  /** The label a row carries: `[导入器]`, `[运行时]` or `[不支持]`. */
  datatype Status = ImporterStatus | RuntimeStatus | UnsupportedStatus

  /** The status of a format, checked in the order the window checks: the
      importer table first, then the platform. */
  function StatusOf(f: GraphicsFormat, isFormatSupported: GraphicsFormat -> bool): Status {
    if FormatUtility.IsImporterFormatSupported(f) then ImporterStatus
    else if isFormatSupported(f) then RuntimeStatus
    else UnsupportedStatus
  }

  /** The button `DrawActionButtons` offers for the target format, and
      whether it is enabled. */
  datatype Action = ApplyImporter(enabled: bool) | CreateCopies(enabled: bool)

  function ActionFor(f: GraphicsFormat, isFormatSupported: GraphicsFormat -> bool): Action {
    var supported := isFormatSupported(f);
    if FormatUtility.IsImporterFormatSupported(f) then ApplyImporter(supported) else CreateCopies(supported)
  }

  /** The label and the button agree on the route: the importer label goes
      with the import-settings button and the other two with the copy
      button; a runtime label always has an enabled button, an unsupported
      one a disabled button, and an importer label a button enabled only
      when the platform also supports the format. */
  lemma StatusMatchesAction(f: GraphicsFormat, isFormatSupported: GraphicsFormat -> bool)
    ensures StatusOf(f, isFormatSupported) == ImporterStatus <==> ActionFor(f, isFormatSupported).ApplyImporter?
    ensures StatusOf(f, isFormatSupported) == RuntimeStatus ==> ActionFor(f, isFormatSupported) == CreateCopies(true)
    ensures StatusOf(f, isFormatSupported) == UnsupportedStatus ==> ActionFor(f, isFormatSupported) == CreateCopies(false)
    ensures ActionFor(f, isFormatSupported).enabled <==> isFormatSupported(f)
  {
  }

  /** Under the importer-only toggle every row is labelled importer; under
      the supported-only toggle no row is labelled unsupported. */
  lemma ShownStatus(isFormatSupported: GraphicsFormat -> bool, onlySupported: bool, onlyImporter: bool, e: FormatEntry)
    requires e in GetFormatsToShow(isFormatSupported, onlySupported, onlyImporter)
    ensures onlyImporter ==> StatusOf(e.format, isFormatSupported) == ImporterStatus
    ensures onlySupported ==> StatusOf(e.format, isFormatSupported) != UnsupportedStatus
  {
  }

  // ---------------------------------------------------------------------
  // The texture list

  /** "Add selected textures": the list is replaced by the selected objects
      that are 2D textures (`Nothing` stands for any other object), in
      selection order. Unlike a drop, this does not skip repeats: each
      texture occurs as often as it was selected. */
  function LoadSelectedTextures(selection: seq<Option<Texture2D>>): (r: seq<Option<Texture2D>>)
    ensures forall x :: x in r <==> x in selection && x.Some?
    ensures forall i :: 0 <= i < |r| ==> r[i].Some?
    ensures SubsequenceOf(r, selection)
    ensures forall x :: multiset(r)[x] == if x.Some? then multiset(selection)[x] else 0
    ensures |r| == Count(selection, FormatUtility.Present())
  {
    FilterContainsAll(selection, FormatUtility.Present());
    FilterIsSubsequence(selection, FormatUtility.Present());
    forall x
      ensures multiset(Filter(selection, FormatUtility.Present()))[x] == if x.Some? then multiset(selection)[x] else 0
    {
      FilterMultiplicity(selection, FormatUtility.Present(), x);
    }
    Filter(selection, FormatUtility.Present())
  }

  /** A selection holding a texture twice loads it twice. */
  lemma LoadKeepsRepeats(t: Texture2D)
    ensures LoadSelectedTextures([Some(t), Some(t)]) == [Some(t), Some(t)]
  {
    FilterKeepsAll([Some(t), Some(t)], FormatUtility.Present());
  }

  /** No texture occurs twice in the list (destroyed entries may). */
  predicate NoRepeatedTextures(list: seq<Option<Texture2D>>) {
    forall i, j :: 0 <= i < j < |list| && list[i].Some? ==> list[i] != list[j]
  }

  /** A drop onto the drop area: each dragged object that is a 2D texture
      not already in the list is appended, in drag order (`Nothing` stands
      for an object of another type). */
  function Drop(list: seq<Option<Texture2D>>, dragged: seq<Option<Texture2D>>): seq<Option<Texture2D>>
    decreases |dragged|
  {
    if |dragged| == 0 then list
    else
      var d := dragged[0];
      Drop(if d.Some? && d !in list then list + [d] else list, dragged[1..])
  }

  /** A drop only appends: the list is a prefix of the result, whose entries
      are those of the list and the dragged textures. */
  lemma {:induction false} DropAppends(list: seq<Option<Texture2D>>, dragged: seq<Option<Texture2D>>)
    ensures |list| <= |Drop(list, dragged)|
    ensures Drop(list, dragged)[..|list|] == list
    ensures forall x :: x in Drop(list, dragged) <==> x in list || (x.Some? && x in dragged)
    decreases |dragged|
  {
    if |dragged| > 0 {
      var d := dragged[0];
      var next := if d.Some? && d !in list then list + [d] else list;
      DropAppends(next, dragged[1..]);
      assert Drop(list, dragged)[..|list|] == Drop(list, dragged)[..|next|][..|list|];
      assert dragged == [d] + dragged[1..];
    }
  }

  /** Appending a texture the list does not hold keeps it free of repeats. */
  lemma AppendFresh(list: seq<Option<Texture2D>>, d: Option<Texture2D>)
    requires NoRepeatedTextures(list) && d !in list
    ensures NoRepeatedTextures(list + [d])
  {
    var l := list + [d];
    forall i, j | 0 <= i < j < |l| && l[i].Some?
      ensures l[i] != l[j]
    {
      if j == |list| {
        assert l[i] == list[i];
      }
    }
  }

  /** A drop never introduces a repeated texture, however often one is
      dragged. */
  lemma {:induction false} DropNoRepeats(list: seq<Option<Texture2D>>, dragged: seq<Option<Texture2D>>)
    requires NoRepeatedTextures(list)
    ensures NoRepeatedTextures(Drop(list, dragged))
    decreases |dragged|
  {
    if |dragged| > 0 {
      var d := dragged[0];
      if d.Some? && d !in list {
        AppendFresh(list, d);
      }
      DropNoRepeats(if d.Some? && d !in list then list + [d] else list, dragged[1..]);
    }
  }

  /** One iteration of the pruning loop, at index `i`: the entry there is
      the list's, and removing it when null (keeping it otherwise) extends
      the filtered suffix by one. */
  lemma PruneStep(list: seq<Option<Texture2D>>, i: nat, r: seq<Option<Texture2D>>)
    requires i < |list| && r == list[..i + 1] + Filter(list[i + 1..], FormatUtility.Present())
    ensures i < |r| && r[i] == list[i]
    ensures r[i].Nothing? ==> r[..i] + r[i + 1..] == list[..i] + Filter(list[i..], FormatUtility.Present())
    ensures r[i].Some? ==> r == list[..i] + Filter(list[i..], FormatUtility.Present())
  {
    var rest := Filter(list[i + 1..], FormatUtility.Present());
    assert list[i..][1..] == list[i + 1..];
    assert list[..i + 1] == list[..i] + [list[i]];
    assert r == list[..i] + ([list[i]] + rest);
    if list[i].Nothing? {
      assert r[..i] == list[..i];
      assert r[i + 1..] == rest;
    }
  }

  /** The pruning pass over the list: walking from the last index down,
      every destroyed (null) entry is removed; what remains is the list's
      textures in their order. */
  method PruneNulls(list: seq<Option<Texture2D>>) returns (r: seq<Option<Texture2D>>)
    ensures r == Filter(list, FormatUtility.Present())
    ensures forall i :: 0 <= i < |r| ==> r[i].Some?
  {
    r := list;
    var i := |list|;
    while i > 0
      invariant 0 <= i <= |list|
      invariant r == list[..i] + Filter(list[i..], FormatUtility.Present())
    {
      i := i - 1;
      PruneStep(list, i, r);
      if r[i].Nothing? {
        r := r[..i] + r[i + 1..];
      }
    }
    assert list[0..] == list;
  }

  /** Pruning keeps exactly the non-null entries, in their order. */
  lemma PruneKeepsTextures(list: seq<Option<Texture2D>>)
    ensures forall x :: x in Filter(list, FormatUtility.Present()) <==> x in list && x.Some?
    ensures SubsequenceOf(Filter(list, FormatUtility.Present()), list)
  {
    FilterContainsAll(list, FormatUtility.Present());
    FilterIsSubsequence(list, FormatUtility.Present());
  }

  // ---------------------------------------------------------------------
  // The batch actions

  /** How an action button ends: nothing selected (an error dialog), the
      confirmation declined, the loop finished with its counter and the
      number of entries, or an exception escaped the loop. */
  datatype ActionOutcome =
    | NothingSelected
    | Cancelled
    | Finished(successes: nat, total: nat, state: FormatUtility.BatchState)
    | Aborted(state: FormatUtility.BatchState)

  function Outcome(o: FormatUtility.BatchOutcome, total: nat): ActionOutcome {
    match o
    case Completed(s) => Finished(s.successes, total, s)
    case Threw(s) => Aborted(s)
  }

  /** `ApplyImporterFormatChanges`: the import-settings loop over the whole
      list, one `ChangeTextureImportFormat` per non-null entry. `proceed` is
      the answer to the confirmation dialog. */
  function ApplyImporterFormatChanges(selected: seq<Option<Texture2D>>, f: GraphicsFormat, importers: Importers, proceed: bool): ActionOutcome {
    if |selected| == 0 then NothingSelected
    else if !proceed then Cancelled
    else Outcome(FormatUtility.BatchRun(FormatUtility.BatchState(0, importers, []), selected, f, true, NoCopy()), |selected|)
  }

  /** The engine for the import-settings route, which makes no copy. */
  function NoCopy(): FormatUtility.CopyEngine {
    FormatUtility.CopyEngine((t: Texture2D, p: string) => false, (p: string) => Nothing, (p: string) => false)
  }

  /** On a format outside the importer table every entry is refused, so the
      import-settings loop changes nothing. */
  lemma {:induction false} UnmappedRunChangesNothing(s: FormatUtility.BatchState, ts: seq<Option<Texture2D>>, f: GraphicsFormat,
                                                      e: FormatUtility.CopyEngine)
    requires !FormatUtility.IsImporterFormatSupported(f)
    ensures FormatUtility.BatchRun(s, ts, f, true, e) == FormatUtility.Completed(s)
    decreases |ts|
  {
    if |ts| > 0 {
      UnmappedRunChangesNothing(s, ts[1..], f, e);
    }
  }

  /** The counter of `ApplyImporterFormatChanges`: the loop runs only for a
      non-empty, confirmed list and never throws; it counts at most the
      entries and skips the null ones; for a format in the table it counts
      exactly the textures whose asset has an importer, keeps the set of
      importers and copies nothing, and for any other format it counts
      nothing and changes nothing. */
  lemma ApplyImporterFormatChangesCounts(selected: seq<Option<Texture2D>>, f: GraphicsFormat, importers: Importers, proceed: bool)
    ensures var r := ApplyImporterFormatChanges(selected, f, importers, proceed);
      (r.Finished? <==> |selected| > 0 && proceed) && !r.Aborted? &&
      (r == NothingSelected <==> |selected| == 0) &&
      (r.Finished? ==>
         r.total == |selected| && r.successes <= Count(selected, FormatUtility.Present()) && r.successes <= r.total &&
         r.state.copies == [] && r.state.importers.Keys == importers.Keys) &&
      (r.Finished? && FormatUtility.IsImporterFormatSupported(f) ==>
         r.successes == Count(selected, FormatUtility.ImporterWillChange(importers))) &&
      (r.Finished? && !FormatUtility.IsImporterFormatSupported(f) ==>
         r.successes == 0 && r.state.importers == importers)
  {
    var s0 := FormatUtility.BatchState(0, importers, []);
    if FormatUtility.IsImporterFormatSupported(f) {
      FormatUtility.BatchRunCounts(s0, selected, f, true, NoCopy(), importers);
    } else {
      UnmappedRunChangesNothing(s0, selected, f, NoCopy());
    }
  }

  /** The asset path of a non-null entry, if it has one. */
  function EntryPath(t: Option<Texture2D>): set<string> {
    if t.Some? && |t.value.assetPath| > 0 then {t.value.assetPath} else {}
  }

  /** The asset paths of the non-null entries. */
  function TouchedPaths(ts: seq<Option<Texture2D>>): set<string>
    decreases |ts|
  {
    if |ts| == 0 then {} else EntryPath(ts[0]) + TouchedPaths(ts[1..])
  }

  /** `after` holds importers for the paths `before` does, with the same
      read/write flags; those at `touched` paths are configured for `f`, and
      the others are unchanged. */
  predicate ConfiguredAt(before: Importers, after: Importers, touched: set<string>, f: GraphicsFormat) {
    after.Keys == before.Keys &&
    forall p :: p in after ==>
      after[p].isReadable == before[p].isReadable &&
      (p in touched ==> FormatUtility.ConfiguredFor(after[p], f)) &&
      (p !in touched ==> after[p] == before[p])
  }

  /** Configuring `touched` and then `touched'` configures both. */
  lemma ConfiguredAtCompose(a: Importers, b: Importers, c: Importers, touched: set<string>, touched': set<string>, f: GraphicsFormat)
    requires ConfiguredAt(a, b, touched, f) && ConfiguredAt(b, c, touched', f)
    ensures ConfiguredAt(a, c, touched + touched', f)
  {
  }

  /** One step of the import-settings loop configures the entry's importer. */
  lemma ImporterStepConfigures(s: FormatUtility.BatchState, t: Option<Texture2D>, f: GraphicsFormat,
                               e: FormatUtility.CopyEngine)
    requires FormatUtility.IsImporterFormatSupported(f)
    ensures FormatUtility.BatchStep(s, t, f, true, e).Completed?
    ensures ConfiguredAt(s.importers, FormatUtility.BatchStep(s, t, f, true, e).state.importers, EntryPath(t), f)
  {
    var c := FormatUtility.ChangeTextureImportFormat(t, f, s.importers);
    var m := FormatUtility.BatchStep(s, t, f, true, e).state.importers;
    if c.Changed? {
      assert m == c.importers;
      assert EntryPath(t) == {t.value.assetPath};
    } else {
      assert m == s.importers;
    }
  }

  /** What the import-settings loop does to the importers, for a format in
      the table: every importer of a listed texture ends up configured for
      the format, and every other importer is left as it was; no importer is
      added or removed and no read/write flag changes. */
  lemma {:induction false} ImporterRunEffect(s: FormatUtility.BatchState, ts: seq<Option<Texture2D>>, f: GraphicsFormat,
                                              e: FormatUtility.CopyEngine)
    requires FormatUtility.IsImporterFormatSupported(f)
    ensures FormatUtility.BatchRun(s, ts, f, true, e).Completed?
    ensures ConfiguredAt(s.importers, FormatUtility.BatchRun(s, ts, f, true, e).state.importers, TouchedPaths(ts), f)
    decreases |ts|
  {
    if |ts| > 0 {
      ImporterStepConfigures(s, ts[0], f, e);
      var o := FormatUtility.BatchStep(s, ts[0], f, true, e);
      ImporterRunEffect(o.state, ts[1..], f, e);
      ConfiguredAtCompose(s.importers, o.state.importers, FormatUtility.BatchRun(o.state, ts[1..], f, true, e).state.importers,
                          EntryPath(ts[0]), TouchedPaths(ts[1..]), f);
    }
  }

  /** `CreateRuntimeFormatCopies`: the copy loop over the whole list, one
      `<stem>_Runtime_<format>.png` per non-null entry; `e` is what the
      engine does for each copy. Unlike the batch of the utility, this loop
      does not suspend asset editing, so a refresh can create the copy's
      importer. */
  function CreateRuntimeFormatCopies(selected: seq<Option<Texture2D>>, f: GraphicsFormat, importers: Importers, proceed: bool,
                                     e: FormatUtility.CopyEngine): ActionOutcome
  {
    if |selected| == 0 then NothingSelected
    else if !proceed then Cancelled
    else Outcome(FormatUtility.BatchRun(FormatUtility.BatchState(0, importers, []), selected, f, false, e), |selected|)
  }

  /** `acc` followed by the copy targets of the non-null entries, in list
      order. */
  function CopyTargets(acc: seq<string>, ts: seq<Option<Texture2D>>, f: GraphicsFormat): seq<string>
    decreases |ts|
  {
    if |ts| == 0 then acc
    else CopyTargets(
           if ts[0].Some? && |ts[0].value.assetPath| > 0 then acc + [FormatUtility.RuntimeCopyPath(ts[0].value.assetPath, f)] else acc,
           ts[1..], f)
  }

  /** A non-null entry that is not an asset. */
  predicate HasPathless(ts: seq<Option<Texture2D>>) {
    exists i :: 0 <= i < |ts| && ts[i].Some? && |ts[i].value.assetPath| == 0
  }

  /** The copy loop throws exactly when some non-null entry has no asset
      path (`Path.GetDirectoryName` rejects the empty path). */
  lemma {:induction false} RuntimeRunThrows(s: FormatUtility.BatchState, ts: seq<Option<Texture2D>>, f: GraphicsFormat,
                                             e: FormatUtility.CopyEngine)
    ensures FormatUtility.BatchRun(s, ts, f, false, e).Threw? <==> HasPathless(ts)
    decreases |ts|
  {
    if |ts| > 0 {
      var o := FormatUtility.BatchStep(s, ts[0], f, false, e);
      if o.Completed? {
        RuntimeRunThrows(o.state, ts[1..], f, e);
        if HasPathless(ts[1..]) {
          var i :| 0 <= i < |ts[1..]| && ts[1..][i].Some? && |ts[1..][i].value.assetPath| == 0;
          assert ts[i + 1] == ts[1..][i];
        }
        if HasPathless(ts) {
          var i :| 0 <= i < |ts| && ts[i].Some? && |ts[i].value.assetPath| == 0;
          assert ts[1..][i - 1] == ts[i];
        }
      } else {
        assert ts[0].Some? && |ts[0].value.assetPath| == 0;
      }
    }
  }

  /** When the copy loop completes it has asked for one copy per non-null
      entry, in list order. */
  lemma {:induction false} RuntimeRunCopies(s: FormatUtility.BatchState, ts: seq<Option<Texture2D>>, f: GraphicsFormat,
                                             e: FormatUtility.CopyEngine)
    ensures FormatUtility.BatchRun(s, ts, f, false, e).Completed? ==>
              FormatUtility.BatchRun(s, ts, f, false, e).state.copies == CopyTargets(s.copies, ts, f)
    decreases |ts|
  {
    if |ts| > 0 {
      var o := FormatUtility.BatchStep(s, ts[0], f, false, e);
      if o.Completed? {
        RuntimeRunCopies(o.state, ts[1..], f, e);
      }
    }
  }

  /** The counter of `CreateRuntimeFormatCopies`: the loop runs only for a
      non-empty, confirmed list; it throws exactly when a non-null entry is
      not an asset; whether or not it finishes, it has changed only the
      importers at its copy targets, each to the importer found there
      configured for the format; when it finishes it has counted exactly
      the copies made, at most the non-null entries, requested one copy per
      non-null entry, and left a configured importer at every counted
      copy's target. */
  lemma CreateRuntimeFormatCopiesCounts(selected: seq<Option<Texture2D>>, f: GraphicsFormat, importers: Importers, proceed: bool,
                                        e: FormatUtility.CopyEngine)
    ensures var r := CreateRuntimeFormatCopies(selected, f, importers, proceed, e);
      (r == NothingSelected <==> |selected| == 0) &&
      (r.Aborted? <==> |selected| > 0 && proceed && HasPathless(selected)) &&
      (r.Finished? ==>
         r.total == |selected| && r.successes <= Count(selected, FormatUtility.Present()) &&
         r.successes == Count(selected, FormatUtility.RuntimeWillCopy(f, importers, e)) &&
         r.state.copies == CopyTargets([], selected, f) &&
         forall i :: 0 <= i < |selected| && FormatUtility.RuntimeWillCopy(f, importers, e)(selected[i]) ==>
           FormatUtility.RuntimeCopyPath(selected[i].value.assetPath, f) in r.state.importers &&
           FormatUtility.ConfiguredFor(r.state.importers[FormatUtility.RuntimeCopyPath(selected[i].value.assetPath, f)], f)) &&
      (r.Finished? || r.Aborted? ==> FormatUtility.CopiesOnly(importers, r.state.importers, r.state.copies, f, e))
  {
    var s0 := FormatUtility.BatchState(0, importers, []);
    FormatUtility.BatchRunCounts(s0, selected, f, false, e, importers);
    RuntimeRunThrows(s0, selected, f, e);
    RuntimeRunCopies(s0, selected, f, e);
    FormatUtility.RuntimeRunConfiguresCopies(s0, selected, f, e);
  }

  /** `ResetToAutoFormat` on one importer: only the default platform format
      changes. */
  function ResetImporter(importer: TextureImporter): (r: TextureImporter)
    ensures r.platformFormat == Automatic
    ensures r.sRGBTexture == importer.sRGBTexture && r.isReadable == importer.isReadable
  {
    importer.(platformFormat := Automatic)
  }

  /** The reset loop: each non-null entry whose asset has an importer is
      reset (`GetAtPath` finds no importer for the empty path). */
  function ResetRun(ts: seq<Option<Texture2D>>, importers: Importers): Importers
    decreases |ts|
  {
    if |ts| == 0 then importers
    else
      var importers' :=
        if ts[0].Some? && |ts[0].value.assetPath| > 0 && ts[0].value.assetPath in importers
        then importers[ts[0].value.assetPath := ResetImporter(importers[ts[0].value.assetPath])]
        else importers;
      ResetRun(ts[1..], importers')
  }

  /** `ResetToAutoFormat`: nothing happens for an empty list or a declined
      confirmation. */
  function ResetToAutoFormat(selected: seq<Option<Texture2D>>, importers: Importers, proceed: bool): Importers {
    if |selected| == 0 || !proceed then importers else ResetRun(selected, importers)
  }

  /** The reset loop sets the platform format of every importer of a listed
      texture to `Automatic`, keeping its sRGB and read/write flags, and
      leaves every other importer as it was; no importer is added or
      removed. */
  lemma {:induction false} ResetRunEffect(ts: seq<Option<Texture2D>>, importers: Importers)
    ensures var m := ResetRun(ts, importers);
      m.Keys == importers.Keys &&
      (forall p :: p in m && p in TouchedPaths(ts) ==> m[p] == ResetImporter(importers[p])) &&
      (forall p :: p in m && p !in TouchedPaths(ts) ==> m[p] == importers[p])
    decreases |ts|
  {
    if |ts| > 0 {
      var importers' :=
        if ts[0].Some? && |ts[0].value.assetPath| > 0 && ts[0].value.assetPath in importers
        then importers[ts[0].value.assetPath := ResetImporter(importers[ts[0].value.assetPath])]
        else importers;
      ResetRunEffect(ts[1..], importers');
    }
  }

  /** Resetting twice is resetting once. */
  lemma ResetToAutoFormatIdempotent(selected: seq<Option<Texture2D>>, importers: Importers, proceed: bool)
    ensures ResetToAutoFormat(selected, ResetToAutoFormat(selected, importers, proceed), proceed) ==
            ResetToAutoFormat(selected, importers, proceed)
  {
    if |selected| > 0 && proceed {
      var m := ResetRun(selected, importers);
      ResetRunEffect(selected, importers);
      ResetRunEffect(selected, m);
    }
  }

  // ---------------------------------------------------------------------
  // Case splits
  //
  // The properties above quantify over every format or layout. The
  // solver proves each for a few enum cases at a time, in the lemmas
  // below, which the properties' bodies dispatch to.

  // The listed formats of `ChangerBytesPerPixelIsTexelSize`, a few at a time.
  lemma ChangerSizesPart1()
    ensures ChangerBytesPerPixel(R8_UNorm) == ReferenceBytesPerPixel(R8_UNorm)
    ensures ChangerBytesPerPixel(R8G8_UNorm) == ReferenceBytesPerPixel(R8G8_UNorm)
    ensures ChangerBytesPerPixel(R16_UNorm) == ReferenceBytesPerPixel(R16_UNorm)
  {
  }

  lemma ChangerSizesPart2()
    ensures ChangerBytesPerPixel(R8G8B8_UNorm) == ReferenceBytesPerPixel(R8G8B8_UNorm)
    ensures ChangerBytesPerPixel(R8G8B8_SRGB) == ReferenceBytesPerPixel(R8G8B8_SRGB)
    ensures ChangerBytesPerPixel(R8G8B8A8_UNorm) == ReferenceBytesPerPixel(R8G8B8A8_UNorm)
  {
  }

  lemma ChangerSizesPart3()
    ensures ChangerBytesPerPixel(R8G8B8A8_SRGB) == ReferenceBytesPerPixel(R8G8B8A8_SRGB)
    ensures ChangerBytesPerPixel(R16G16_SFloat) == ReferenceBytesPerPixel(R16G16_SFloat)
  {
  }

  lemma ChangerSizesPart4()
    ensures ChangerBytesPerPixel(R32_SFloat) == ReferenceBytesPerPixel(R32_SFloat)
  {
  }

  lemma ChangerSizesPart5()
    ensures ChangerBytesPerPixel(R16G16B16A16_SFloat) == ReferenceBytesPerPixel(R16G16B16A16_SFloat)
  {
  }

  lemma ChangerSizesPart6()
    ensures ChangerBytesPerPixel(R32G32B32A32_SFloat) == ReferenceBytesPerPixel(R32G32B32A32_SFloat)
  {
  }

  lemma ChangerSizesPart7()
    ensures ChangerBytesPerPixel(RGBA_DXT1_UNorm) == ReferenceBytesPerPixel(RGBA_DXT1_UNorm)
  {
  }

  lemma ChangerSizesPart8()
    ensures ChangerBytesPerPixel(RGBA_DXT1_SRGB) == ReferenceBytesPerPixel(RGBA_DXT1_SRGB)
  {
  }

  lemma ChangerSizesPart9()
    ensures ChangerBytesPerPixel(RGBA_DXT5_UNorm) == ReferenceBytesPerPixel(RGBA_DXT5_UNorm)
  {
  }

  lemma ChangerSizesPart10()
    ensures ChangerBytesPerPixel(RGBA_DXT5_SRGB) == ReferenceBytesPerPixel(RGBA_DXT5_SRGB)
  {
  }

  lemma ChangerSizesPart11()
    ensures ChangerBytesPerPixel(RGBA_BC7_UNorm) == ReferenceBytesPerPixel(RGBA_BC7_UNorm)
  {
  }

  lemma ChangerSizesPart12()
    ensures ChangerBytesPerPixel(RGBA_BC7_SRGB) == ReferenceBytesPerPixel(RGBA_BC7_SRGB)
  {
  }

  lemma ChangerSizesPart13()
    ensures ChangerBytesPerPixel(RGBA_ASTC4X4_UNorm) == ReferenceBytesPerPixel(RGBA_ASTC4X4_UNorm)
  {
  }

  lemma ChangerSizesPart14()
    ensures ChangerBytesPerPixel(RGBA_ASTC4X4_SRGB) == ReferenceBytesPerPixel(RGBA_ASTC4X4_SRGB)
  {
  }

  lemma ChangerSizesPart15()
    ensures ChangerBytesPerPixel(RGBA_ASTC6X6_UNorm) == ReferenceBytesPerPixel(RGBA_ASTC6X6_UNorm)
  {
  }

  lemma ChangerSizesPart16()
    ensures ChangerBytesPerPixel(RGBA_ASTC8X8_UNorm) == ReferenceBytesPerPixel(RGBA_ASTC8X8_UNorm)
  {
  }
}
