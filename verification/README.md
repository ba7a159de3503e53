# VolumeRenderUnity core in Dafny

This project models the parts of the VolumeRenderUnity Unity project that are
decision logic rather than shader maths or editor layout:

- **Texture-format tools.** Three editor tools pick, estimate and apply a
  `GraphicsFormat`: `TextureFormatUtility`, `TextureFormatConverter` and the
  `TextureFormatChanger` window. The model covers:
  - the format-to-importer table;
  - the three bytes-per-pixel tables, which disagree;
  - the sRGB flag and the platform-format choice;
  - the search filters and format lists;
  - the status labels and action buttons;
  - the texture list of the window (load, drag-and-drop, null pruning);
  - the batch loops and their success counters;
  - the reset to automatic format;
  - the output paths (`_Runtime_<format>.png` and the `_converted.png`
    `Replace` chain).
- **3D texture assembly.** `NoiseGenerator.GenerateTexture3D` sorts the 2D
  slices of a folder by name, checks them, and stacks them into one 3D
  texture. `Combine3DTextures.CombineTextures` merges the red channels of
  three 3D textures into the R, G and B channels of a new one.
- **Per-frame render-pass planning.** There are three renderer features: the
  ray-marching cloud, the sky cloud and atmosphere scattering. For each, the
  model covers:
  - `Create` and `AddRenderPasses`;
  - the pass's `Configure`, meaning which handle is (re)allocated with which
    descriptor;
  - the pass's `Execute`, meaning whether it is skipped, throws, or issues
    blits, and which blits in which order;
  - `Dispose`.

  The volume components these passes read are modelled too, with their
  activity switch and clamped parameters.

Modules:

| module | file | holds |
|---|---|---|
| `Strings` | strings.dfy | ordinal `Contains`/`IndexOf`, `Replace`, ASCII lower-casing, `Path` helpers |
| `Seqs` | seqs.dfy | order-keeping `Filter`, subsequences, `Count` |
| `Formats` | formats.dfy | the `GraphicsFormat` enum, its names, layouts, texel sizes, sRGB twins |
| `Textures` | textures.dfy | `Color`, `Texture2D`, `Texture3D`, `TextureImporter` records |
| `FormatUtility` | format_utility.dfy | TextureFormatUtility.cs |
| `FormatConverter` | format_converter.dfy | TextureFormatConverter.cs |
| `FormatChanger` | format_changer.dfy | TextureFormatChanger.cs |
| `NoiseGenerator` | noise_generator.dfy | NoiseGenerator.cs |
| `Combine3D` | combine_textures.dfy | Combine3DTextures.cs |
| `RenderCommon` | render_common.dfy | cameras, descriptors, handles, blits shared by the features |
| `Volumes` | volumes.dfy | the three volume components |
| `RayMarchingCloud` | ray_marching_cloud.dfy | RayMarchingCloud.cs |
| `SkyCloud` | sky_cloud.dfy | SkyCloudRenderFeature.cs |
| `AtmosphereScattering` | atmosphere_scattering.dfy | AtmosphereScatteringRenderFeature.cs |

**How formats are modelled.**
- A `GraphicsFormat` is a channel layout plus a numeric kind, and its name is
  the layout name, `_`, then the kind name. The string tests in the source
  (`Contains("SRGB")`, `Contains("R8_")`) are therefore evaluated on the real
  enum names.
- Besides every value the tools list, the enum has a few real Unity values
  that none of the tables names. These stand for "any other format".
- Whether the platform can sample a format (`SystemInfo.IsFormatSupported`)
  is a function parameter.
- The asset database is a map from asset path to `TextureImporter`. Engine
  calls whose outcome cannot be seen are parameters. For a runtime copy
  these are whether the PNG is written, the importer a refresh creates at a
  new path, and whether the new asset loads back (`CopyEngine`). A
  conversion throwing is a boolean.

## Model

| member | source | states |
|---|---|---|
| Formats.NameFacts | Assets/VolumCloud/Script/Noise/Editor/TextureFormatUtility.cs:355 | a format's name contains "SRGB" exactly when the format is sRGB-encoded |
| Formats.LinearTwinOfSrgb | Assets/VolumCloud/Script/Noise/Editor/TextureFormatUtility.cs:29-49 | every sRGB format has a UNorm twin with the same channel layout |
| Formats.LinearTwinSameSize | Assets/VolumCloud/Script/Noise/Editor/TextureFormatUtility.cs:445-492 | a format and its linear twin have the same texel size |
| Formats.AllFormatsComplete | Assets/VolumCloud/Script/Noise/Editor/TextureFormatUtility.cs:408 | the enumeration of the enum lists every format |
| FormatUtility.MappedFormatsAreTheKeys | Assets/VolumCloud/Script/Noise/Editor/TextureFormatUtility.cs:396-399 | a format is importer-supported exactly when it is one of the table's listed keys |
| FormatUtility.MappingPreservesTexel | Assets/VolumCloud/Script/Noise/Editor/TextureFormatUtility.cs:14-62 | every table entry maps a format to an importer format that stores the same texel |
| FormatUtility.MappingNeverAutomatic | Assets/VolumCloud/Script/Noise/Editor/TextureFormatUtility.cs:14-62 | no key is mapped to `Automatic`, so `Automatic` is only ever the fallback |
| FormatUtility.MappingIgnoresEncoding | Assets/VolumCloud/Script/Noise/Editor/TextureFormatUtility.cs:29-49 | an sRGB key and its UNorm twin map to the same importer format |
| FormatUtility.LinearSourceInvertsMapping | Assets/VolumCloud/Script/Noise/Editor/TextureFormatUtility.cs:14-62 | the inverse table recovers the linear twin of every key from its importer format |
| FormatUtility.LinearSourceIsKey | Assets/VolumCloud/Script/Noise/Editor/TextureFormatUtility.cs:14-62 | whatever the inverse table returns is a key that maps back to the importer format |
| FormatUtility.MappingCollisionsAreTwins | Assets/VolumCloud/Script/Noise/Editor/TextureFormatUtility.cs:29-49 | two keys share an importer format only when they are sRGB/UNorm twins |
| FormatUtility.SetImporterFormat | Assets/VolumCloud/Script/Noise/Editor/TextureFormatUtility.cs:352-372 | sRGB is set exactly for sRGB formats; the platform format is `Automatic` exactly for a format outside the table, otherwise an importer format of the same texel; read/write is untouched |
| FormatUtility.SetImporterFormatIdempotent | Assets/VolumCloud/Script/Noise/Editor/TextureFormatUtility.cs:352-372 | applying the same format twice equals applying it once, and leaves the importer configured for the format |
| FormatUtility.ChangeTextureImportFormat | Assets/VolumCloud/Script/Noise/Editor/TextureFormatUtility.cs:195-236 | refusals come in source order: null texture, then unmapped format, then empty path, then missing importer; a refusal changes no importer; success changes only the texture's importer, as `SetImporterFormat` does |
| FormatUtility.ChangeTextureImportFormatIdempotent | Assets/VolumCloud/Script/Noise/Editor/TextureFormatUtility.cs:195-236 | changing the import format a second time changes nothing more |
| FormatUtility.RuntimeCopyPathShape | Assets/VolumCloud/Script/Noise/Editor/TextureFormatUtility.cs:323-326 | the runtime copy is `<stem>_Runtime_<format name>.png` in the source's directory |
| FormatUtility.CreateNewTextureAsset | Assets/VolumCloud/Script/Noise/Editor/TextureFormatUtility.cs:245-281 | an asset is returned exactly when the PNG is written, an importer is found at the target (there before, or created by the refresh) and the new texture loads. A failed write changes nothing. Otherwise only the target's importer changes: `SaveRuntimeTextureWithFormat` (lines 163-174) configures it for the format and keeps its read flag |
| FormatUtility.BatchStepEffect | Assets/VolumCloud/Script/Noise/Editor/TextureFormatUtility.cs:304-333 | one loop iteration keeps to its route. The importer route adds no copy and no importer; the runtime route changes only the importers at its copy targets, each to the importer found there configured for the format. A texture is counted exactly when its route succeeds for it; only the runtime route throws, and before changing anything |
| FormatUtility.RuntimeStepEffect | Assets/VolumCloud/Script/Noise/Editor/TextureFormatUtility.cs:304-333 | a runtime-route step on a texture with an asset path completes, changes importers only at copy targets, and counts the texture exactly when its copy is written, finds an importer and loads |
| FormatUtility.BatchRunCounts | Assets/VolumCloud/Script/Noise/Editor/TextureFormatUtility.cs:304-333 | the whole loop keeps to its route: the importer route adds no copy and no importer, and the runtime route changes only copy targets' importers, each to the one found there configured for the format. A completed loop counts exactly the entries its route succeeds for; any loop counts at most the non-null entries; the importer route always completes |
| FormatUtility.RuntimeRunKeepsConfigured | Assets/VolumCloud/Script/Noise/Editor/TextureFormatUtility.cs:304-333 | the runtime route never removes an importer, and an importer configured for the format stays configured for the rest of the loop |
| FormatUtility.RuntimeRunConfiguresCopies | Assets/VolumCloud/Script/Noise/Editor/TextureFormatUtility.cs:163-174 | every copy a completed runtime loop counts leaves, at its target, an importer configured for the format |
| FormatUtility.BatchChangeTextureFormat | Assets/VolumCloud/Script/Noise/Editor/TextureFormatUtility.cs:289-350 | the imperative loop, with the route fixed before the loop and stopping at the first exception, equals the recursive batch definition, whose effects the two rows above state |
| FormatUtility.BatchChangeTextureFormatCounts | Assets/VolumCloud/Script/Noise/Editor/TextureFormatUtility.cs:291-333 | empty input gives 0 and no effect; the counter never exceeds the non-null entries; the route follows table membership; the importer route copies nothing and adds no importer; the runtime route changes only the importers at its copy targets, each to the importer found there configured for the format, and on a completed run every copy counted has a configured importer at its target |
| FormatUtility.GetSupportedFormats | Assets/VolumCloud/Script/Noise/Editor/TextureFormatUtility.cs:405-419 | lists exactly the formats other than `None` that the platform supports, in the order of their `GraphicsFormat` values, as `Enum.GetValues` enumerates them |
| FormatUtility.GetImporterSupportedFormats | Assets/VolumCloud/Script/Noise/Editor/TextureFormatUtility.cs:425-438 | lists exactly the table keys the platform supports, in the table's insertion order |
| FormatUtility.ImporterFormatsAreSupported | Assets/VolumCloud/Script/Noise/Editor/TextureFormatUtility.cs:405-438 | the importer list is contained in the supported list |
| FormatUtility.UtilityBytesPerPixel | Assets/VolumCloud/Script/Noise/Editor/TextureFormatUtility.cs:445-492 | the estimate is one of 1, 2, 3, 4, 8, 16 |
| FormatUtility.UtilityBytesPerPixelIsTexelSize | Assets/VolumCloud/Script/Noise/Editor/TextureFormatUtility.cs:445-492 | a listed format gets its reference texel size; any other format gets 4 |
| FormatUtility.UtilityTwinsAgree | Assets/VolumCloud/Script/Noise/Editor/TextureFormatUtility.cs:445-492 | every listed format's linear (UNorm) twin is listed too, with the same estimate |
| FormatUtility.UtilityTwinsDisagree | Assets/VolumCloud/Script/Noise/Editor/TextureFormatUtility.cs:445-492 | the converse fails exactly for `R8_SRGB` and `R8G8_SRGB`: their UNorm twins are listed at 1 and 2 bytes, while they fall to the default of 4 |
| FormatConverter.ConverterBytesPerPixel | Assets/VolumCloud/Script/Noise/Editor/TextureFormatConverter.cs:197-267 | the estimate is one of 1, 2, 3, 4, 8, 16 |
| FormatConverter.ConverterBytesPerPixelIsTexelSize | Assets/VolumCloud/Script/Noise/Editor/TextureFormatConverter.cs:197-267 | a listed format gets its reference texel size; any other format gets 4 |
| FormatConverter.ConverterSameLayoutSameSize | Assets/VolumCloud/Script/Noise/Editor/TextureFormatConverter.cs:197-267 | listed variants of one channel layout get the same estimate |
| FormatConverter.ConverterVersusUtility | Assets/VolumCloud/Script/Noise/Editor/TextureFormatConverter.cs:256-265 | the converter and the utility agree wherever both list a format; they differ exactly where one lists it and the size is not 4, as for BC7 |
| FormatConverter.ConverterEstimateBytes | Assets/VolumCloud/Script/Noise/Editor/TextureFormatConverter.cs:190-195 | the size estimate is width × height × the reference texel size for a listed format, and 4 × width × height otherwise |
| FormatConverter.ConverterSrgbLayouts | Assets/VolumCloud/Script/Noise/Editor/TextureFormatConverter.cs:348-360 | sRGB is set exactly for the sRGB formats of five layouts: RGBA8, RGB8, DXT1, DXT5, BC7 |
| FormatConverter.ConverterSrgbVersusUtility | Assets/VolumCloud/Script/Noise/Editor/TextureFormatConverter.cs:348-360 | whatever the converter marks sRGB the utility marks too; the utility alone marks the sRGB formats of the other layouts |
| FormatConverter.PlatformChainOnLayout | Assets/VolumCloud/Script/Noise/Editor/TextureFormatConverter.cs:365-392 | the first-match chain over DXT1, DXT5, BC7, BC6H, "R8_", "R16_" picks the layout's importer format, except that BGR8 is read as R8 |
| FormatConverter.NameChannelFacts | Assets/VolumCloud/Script/Noise/Editor/TextureFormatConverter.cs:381-386 | a name contains "R8_" exactly for the R8 and BGR8 layouts, and "R16_" exactly for R16 |
| FormatConverter.ConverterPlatformFormatAsWritten | Assets/VolumCloud/Script/Noise/Editor/TextureFormatConverter.cs:365-392 | the chain as written equals the layout-based choice, except that BGR8 formats get R8 |
| FormatConverter.BgrImportedAsR8 | Assets/VolumCloud/Script/Noise/Editor/TextureFormatConverter.cs:381-384 | `B8G8R8_UNorm` is imported as R8, which does not store its texel; the corrected choice is RGBA32 |
| FormatConverter.CorrectedPlatformFormat | Assets/VolumCloud/Script/Noise/Editor/TextureFormatConverter.cs:365-392 | every choice other than RGBA32 stores exactly the format's texel |
| FormatConverter.PlatformFormatOfNone | Assets/VolumCloud/Script/Noise/Editor/TextureFormatConverter.cs:389-392 | `None` matches no pattern and falls through to RGBA32 |
| FormatConverter.ConverterImporterSettings | Assets/VolumCloud/Script/Noise/Editor/TextureFormatConverter.cs:345-395 | the written copy's importer gets sRGB only for sRGB formats, and the chain's platform format; read/write is kept |
| FormatConverter.ConvertedPathOfExtension | Assets/VolumCloud/Script/Noise/Editor/TextureFormatConverter.cs:311 | a path ending in .png, .jpg or .tga, with no other occurrence of them, gets its extension replaced by `_converted.png` |
| FormatConverter.ConvertedPathUnchanged | Assets/VolumCloud/Script/Noise/Editor/TextureFormatConverter.cs:311 | a path containing none of the three extensions is returned unchanged, so the copy would overwrite the source |
| FormatConverter.CorrectedConvertedPath | Assets/VolumCloud/Script/Noise/Editor/TextureFormatConverter.cs:311 | the corrected path always differs from the source path and is named `<stem>_converted.png` |
| FormatConverter.ConvertedPathsAgree | Assets/VolumCloud/Script/Noise/Editor/TextureFormatConverter.cs:311 | for `dir/stem.ext`, with ext one of the three, the `Replace` chain and the corrected path agree |
| FormatConverter.ConverterShowsIff | Assets/VolumCloud/Script/Noise/Editor/TextureFormatConverter.cs:92-98 | a format is listed exactly when the filter is empty, or its name or its description contains the filter ignoring case |
| FormatConverter.GetAvailableFormats | Assets/VolumCloud/Script/Noise/Editor/TextureFormatConverter.cs:147-177 | lists exactly the formats other than `None`, restricted under "compatible only" to those the platform reports; never `None` in either mode |
| FormatConverter.AvailableFormatsInEnumOrder | Assets/VolumCloud/Script/Noise/Editor/TextureFormatConverter.cs:147-177 | the list is a subsequence of all formats in the order of their `GraphicsFormat` values, which is the order `Enum.GetValues` returns |
| FormatConverter.ConverterRows | Assets/VolumCloud/Script/Noise/Editor/TextureFormatConverter.cs:86-98 | a row is drawn exactly for an available format that the search lets through, and the rows keep the available list's order |
| FormatConverter.ConvertTextureFormat | Assets/VolumCloud/Script/Noise/Editor/TextureFormatConverter.cs:269-343 | refusals come in source order: no source, then no path, then no importer. On success the copy is written at the corrected path, which is never the source's; the source's importer ends exactly as it began, read/write flag included; the copy's importer gets the sRGB flag and the corrected platform format; no other importer changes. A conversion that throws leaves the source readable |
| FormatConverter.CorrectedImporterSettings | Assets/VolumCloud/Script/Noise/Editor/TextureFormatConverter.cs:345-395 | corrected settings: sRGB only for sRGB formats, a platform format that stores the format's texel unless it is RGBA32, read/write kept |
| FormatConverter.MakeReadable | Assets/VolumCloud/Script/Noise/Editor/TextureFormatConverter.cs:295-300 | afterwards the source is readable; an already readable source's importers are untouched, and no other importer changes |
| FormatConverter.RestoreUndoesMakeReadable | Assets/VolumCloud/Script/Noise/Editor/TextureFormatConverter.cs:295-323 | restoring the saved flag gives back the importers exactly as they were before the toggle |
| FormatConverter.ImportCopy | Assets/VolumCloud/Script/Noise/Editor/TextureFormatConverter.cs:326-335 | the copy has an importer after the refresh exactly when it had one or the refresh creates one; that importer gets the sRGB flag and the corrected platform format and keeps its own read/write flag, since the settings never write it; no other importer changes |
| FormatConverter.CorrectedSettingsAgree | Assets/VolumCloud/Script/Noise/Editor/TextureFormatConverter.cs:365-392 | the corrected settings equal the source's exactly for formats outside the BGR8 layout |
| FormatChanger.ChangerBytesPerPixel | Assets/VolumCloud/Script/Noise/Editor/TextureFormatChanger.cs:519-559 | the estimate is one of 1, 2, 3, 4, 8, 16, and 4 for any unlisted format |
| FormatChanger.ChangerListedSizes | Assets/VolumCloud/Script/Noise/Editor/TextureFormatChanger.cs:519-559 | each listed format gets its reference texel size, with every compressed format, ASTC 4x4, 6x6 and 8x8 included, at 1 |
| FormatChanger.ChangerAstc6x6TwinsDisagree | Assets/VolumCloud/Script/Noise/Editor/TextureFormatChanger.cs:552-557 | ASTC 6x6 UNorm gets 1 but its sRGB twin is unlisted and gets 4 |
| FormatChanger.ChangerVersusUtility | Assets/VolumCloud/Script/Noise/Editor/TextureFormatChanger.cs:519-559 | the window and the utility agree wherever both list a format, and differ exactly where only one lists it and the size is not 4 |
| FormatChanger.EstimateIsSizeTimesTexels | Assets/VolumCloud/Script/Noise/Editor/TextureFormatChanger.cs:503-517 | the estimate over the list is the format's size times the texel count of the non-null textures |
| FormatChanger.CommonFormats | Assets/VolumCloud/Script/Noise/Editor/TextureFormatChanger.cs:18-59 | the entries are the listed formats in order, each with its own description |
| FormatChanger.GetFormatsToShow | Assets/VolumCloud/Script/Noise/Editor/TextureFormatChanger.cs:299-318 | an entry is shown exactly when it is a common entry passing both toggles; descriptions are unchanged |
| FormatChanger.FormatsToShowOrder | Assets/VolumCloud/Script/Noise/Editor/TextureFormatChanger.cs:299-318 | the shown entries keep the table's order, and with both toggles off all entries are shown |
| FormatChanger.ChangerShowsIff | Assets/VolumCloud/Script/Noise/Editor/TextureFormatChanger.cs:230-237 | an entry passes the search exactly when the filter is empty or its name or description contains the filter ignoring case |
| FormatChanger.ChangerRows | Assets/VolumCloud/Script/Noise/Editor/TextureFormatChanger.cs:223-237 | a row is drawn exactly for a shown entry passing the search, in order |
| FormatChanger.EmptySearchShowsAll | Assets/VolumCloud/Script/Noise/Editor/TextureFormatChanger.cs:230-237 | an empty search draws every shown entry |
| FormatChanger.StatusMatchesAction | Assets/VolumCloud/Script/Noise/Editor/TextureFormatChanger.cs:320-344 | the importer label goes with the import-settings button, and the runtime and unsupported labels with the copy button; a button is enabled exactly when the platform supports the format |
| FormatChanger.ShownStatus | Assets/VolumCloud/Script/Noise/Editor/TextureFormatChanger.cs:253-265 | under the importer-only toggle every row is labelled importer, and under the supported-only toggle no row is labelled unsupported |
| FormatChanger.LoadSelectedTextures | Assets/VolumCloud/Script/Noise/Editor/TextureFormatChanger.cs:80-90 | the list becomes the selected 2D textures in selection order, each as often as it was selected, and nothing else |
| FormatChanger.LoadKeepsRepeats | Assets/VolumCloud/Script/Noise/Editor/TextureFormatChanger.cs:80-90 | unlike a drop, loading keeps a texture selected twice twice |
| FormatChanger.DropAppends | Assets/VolumCloud/Script/Noise/Editor/TextureFormatChanger.cs:173-179 | a drop keeps the list as a prefix and adds only dropped 2D textures |
| FormatChanger.DropNoRepeats | Assets/VolumCloud/Script/Noise/Editor/TextureFormatChanger.cs:173-179 | a list free of repeats stays free of repeats after a drop |
| FormatChanger.PruneNulls | Assets/VolumCloud/Script/Noise/Editor/TextureFormatChanger.cs:134-140 | the reverse-index removal loop yields the non-null entries in their order |
| FormatChanger.PruneKeepsTextures | Assets/VolumCloud/Script/Noise/Editor/TextureFormatChanger.cs:134-140 | pruning keeps exactly the non-null entries, as a subsequence |
| FormatChanger.ApplyImporterFormatChangesCounts | Assets/VolumCloud/Script/Noise/Editor/TextureFormatChanger.cs:354-401 | the loop runs only for a non-empty, confirmed list and never throws; the counter is at most the total and the non-null entries; for a table format it counts the textures with an importer, and otherwise nothing |
| FormatChanger.ImporterRunEffect | Assets/VolumCloud/Script/Noise/Editor/TextureFormatChanger.cs:376-389 | for a table format the loop configures every listed texture's importer for the format and leaves the others alone |
| FormatChanger.RuntimeRunThrows | Assets/VolumCloud/Script/Noise/Editor/TextureFormatChanger.cs:423-441 | the copy loop throws exactly when a non-null entry has no asset path |
| FormatChanger.RuntimeRunCopies | Assets/VolumCloud/Script/Noise/Editor/TextureFormatChanger.cs:432-437 | a completed copy loop requests one `_Runtime_` copy per non-null entry, in list order |
| FormatChanger.CreateRuntimeFormatCopiesCounts | Assets/VolumCloud/Script/Noise/Editor/TextureFormatChanger.cs:403-451 | the copy action runs only for a non-empty, confirmed list; it counts exactly the entries copied, and at most the non-null ones. Importers change only at copy targets, each to the importer found there configured for the format, and every counted copy has a configured importer at its target |
| FormatChanger.ResetImporter | Assets/VolumCloud/Script/Noise/Editor/TextureFormatChanger.cs:477-479 | a reset sets the platform format to `Automatic` and keeps sRGB and read/write |
| FormatChanger.ResetRunEffect | Assets/VolumCloud/Script/Noise/Editor/TextureFormatChanger.cs:464-482 | the importer of every listed texture is reset; every other importer is unchanged, and none is added or removed |
| FormatChanger.ResetToAutoFormatIdempotent | Assets/VolumCloud/Script/Noise/Editor/TextureFormatChanger.cs:453-492 | resetting twice is resetting once |
| NoiseGenerator.InsertByName | Assets/VolumCloud/Script/Noise/Editor/NoiseGenerator.cs:14-17 | insertion keeps the slices as a multiset and places the slice before the first one whose name is not smaller |
| NoiseGenerator.SortByName | Assets/VolumCloud/Script/Noise/Editor/NoiseGenerator.cs:14-17 | the sorted slices are a permutation of the loaded ones |
| NoiseGenerator.SortByNameSorted | Assets/VolumCloud/Script/Noise/Editor/NoiseGenerator.cs:14-17 | the slices come out ordered by name |
| NoiseGenerator.InsertByNameFilter | Assets/VolumCloud/Script/Noise/Editor/NoiseGenerator.cs:14-17 | inserting a slice puts it ahead of the slices of its own name and leaves those of every other name as they were |
| NoiseGenerator.SortByNameStable | Assets/VolumCloud/Script/Noise/Editor/NoiseGenerator.cs:14-17 | the sort is stable: the slices of any one name come out in their input order, as `OrderBy` promises |
| NoiseGenerator.CheckSlice | Assets/VolumCloud/Script/Noise/Editor/NoiseGenerator.cs:32-42 | a slice passes exactly when it is readable and of the first slice's size; readability is reported before size |
| NoiseGenerator.FirstInvalidIsFirst | Assets/VolumCloud/Script/Noise/Editor/NoiseGenerator.cs:29-43 | no error exactly when every slice passes; an error is that of a failing slice all of whose predecessors pass |
| NoiseGenerator.FlattenLength | Assets/VolumCloud/Script/Noise/Editor/NoiseGenerator.cs:50 | the stacked array has width × height × depth voxels |
| NoiseGenerator.FlattenBlock | Assets/VolumCloud/Script/Noise/Editor/NoiseGenerator.cs:52-56 | voxel `z·w·h + k` is texel `k` of slice `z` |
| NoiseGenerator.FlattenOwner | Assets/VolumCloud/Script/Noise/Editor/NoiseGenerator.cs:52-56 | every voxel lies in the block of one slice and is that slice's texel |
| NoiseGenerator.BlockOfBlock | Assets/VolumCloud/Script/Noise/Editor/NoiseGenerator.cs:52-56 | the owner of voxel `z·w·h + k` is slice `z` at offset `k`, so each voxel is written once |
| NoiseGenerator.StackSlices | Assets/VolumCloud/Script/Noise/Editor/NoiseGenerator.cs:50-56 | the copy loop produces exactly the slices laid end to end, w·h·depth voxels |
| NoiseGenerator.GenerateTexture3D | Assets/VolumCloud/Script/Noise/Editor/NoiseGenerator.cs:9-67 | no slice gives no asset; a rejection is the first failing slice in name order; otherwise the texture has the first slice's size, depth = slice count, the stacked voxels, and is saved at the fixed path |
| Combine3D.MergedAt | Assets/VolumCloud/Script/Noise/Editor/Combine3DTextures.cs:31-38 | the merged array has the red texture's length, and voxel `i` takes the red channels of the three inputs' voxel `i`, with alpha 1 |
| Combine3D.MergedReadsOnlyRed | Assets/VolumCloud/Script/Noise/Editor/Combine3DTextures.cs:32-38 | inputs that agree on their red channels merge to the same result |
| Combine3D.MergeChannels | Assets/VolumCloud/Script/Noise/Editor/Combine3DTextures.cs:31-38 | the loop fills every voxel with (R.r, G.r, B.r, 1) |
| Combine3D.CombineTexturesAsWritten | Assets/VolumCloud/Script/Noise/Editor/Combine3DTextures.cs:13-51 | a missing input aborts; a size mismatch is not caught, so a smaller green or blue texture throws; otherwise the result has the red texture's size, voxel `i` is merged from voxel `i` of each input whatever their shapes, and it replaces the old asset |
| Combine3D.AsWrittenMergesDifferentShapes | Assets/VolumCloud/Script/Noise/Editor/Combine3DTextures.cs:22-26 | a 2x1x1 and a 1x2x1 texture are merged without complaint, and output voxel 1 pairs voxel (1, 0, 0) of the red texture with voxel (0, 1, 0) of the green one |
| Combine3D.AsWrittenThrowsOnSmallerInput | Assets/VolumCloud/Script/Noise/Editor/Combine3DTextures.cs:27-38 | a green texture smaller than the red one makes the loop index past its end |
| Combine3D.CombineTextures | Assets/VolumCloud/Script/Noise/Editor/Combine3DTextures.cs:13-51 | corrected: a missing input or a size mismatch aborts, nothing throws, and the result is the voxel-wise merge at the inputs' size, written after deleting the old asset |
| Combine3D.CombineTexturesAgrees | Assets/VolumCloud/Script/Noise/Editor/Combine3DTextures.cs:13-51 | the corrected operation agrees with the source on every input it does not reject for size |
| RenderCommon.NoDepthNoMsaa | Assets/VolumCloud/Script/RayMarchingCloud.cs:35-38 | the temporary descriptor is the camera's, with no depth buffer and MSAA 1 |
| RenderCommon.ClampInt | Assets/VolumCloud/Script/RayMarchingCloudVolume.cs:52 | a clamped integer parameter always lies in its range, and keeps an in-range value |
| RenderCommon.ClampReal | Assets/VolumCloud/Script/RayMarchingCloudVolume.cs:42 | a clamped float parameter always lies in its range, and keeps an in-range value |
| RenderCommon.ClampIdempotent | Assets/VolumCloud/Script/RayMarchingCloudVolume.cs:52 | clamping twice clamps once |
| Volumes.DefaultRayMarchingCloudVolume | Assets/VolumCloud/Script/RayMarchingCloudVolume.cs:10-53 | the component starts inactive, with `downSample` 1 and `heightWeights` 1 |
| Volumes.SetDownSample | Assets/VolumCloud/Script/RayMarchingCloudVolume.cs:52 | `downSample` is clamped to [1, 16], and nothing else changes |
| Volumes.SetHeightWeights | Assets/VolumCloud/Script/RayMarchingCloudVolume.cs:42 | `heightWeights` is clamped to [0, 1], and nothing else changes |
| Volumes.SetDownSampleReadBack | Assets/VolumCloud/Script/RayMarchingCloudVolume.cs:52 | writing back the value read changes nothing |
| Volumes.DefaultSkyCloudVolume | Assets/SkyCloud/SkyCloudVolume.cs:8 | the sky-cloud component starts inactive |
| Volumes.DefaultAtmosphereScatteringVolume | Assets/AtmosphereScattering/AtmosphereScatteringVolume.cs:10 | the atmosphere component starts inactive |
| Volumes.IsTileCompatible | Assets/VolumCloud/Script/RayMarchingCloudVolume.cs:54 | no component is tile-compatible |
| RayMarchingCloud.Create | Assets/VolumCloud/Script/RayMarchingCloud.cs:138-146 | without a shader nothing changes; with one, a material and a pass on it, after post-processing, with the volume resolved now |
| RayMarchingCloud.AddRenderPasses | Assets/VolumCloud/Script/RayMarchingCloud.cs:150-155 | the pass field is enqueued exactly when the material is set |
| RayMarchingCloud.LowRes | Assets/VolumCloud/Script/RayMarchingCloud.cs:35-41 | the low-resolution size is the camera's divided by `downSample` with truncation; ARGBFloat, no depth, MSAA 1 |
| RayMarchingCloud.Configure | Assets/VolumCloud/Script/RayMarchingCloud.cs:31-51 | nothing for a missing or inactive component; otherwise both low-resolution handles get the ARGBFloat descriptor, and other handles are kept |
| RayMarchingCloud.Execute | Assets/VolumCloud/Script/RayMarchingCloud.cs:53-114 | skipped exactly for a preview camera or a missing or inactive component; throws exactly when otherwise no blue noise is set; else three chained blits with passes 1, 0, 2 |
| RayMarchingCloud.Dispose | Assets/VolumCloud/Script/RayMarchingCloud.cs:162-166 | the pass's `Dispose` (lines 119-123) releases the input handle `SetInput` stored, if any, and nothing else; the pass is dropped and the material kept |
| RayMarchingCloud.DisposeReleasesInput | Assets/VolumCloud/Script/RayMarchingCloud.cs:119-166 | a feature that never ran a frame releases nothing; after any frame `Dispose` releases the camera's colour target, which the renderer owns |
| RayMarchingCloud.RunFrameEffect | Assets/VolumCloud/Script/RayMarchingCloud.cs:24-160 | a frame throws exactly when there is no pass, because `SetupRenderPasses` calls `SetInput` on it unchecked, or when a material exists, the camera is not a preview, the component is on and blue noise is unset. A frame issues blits exactly when a material and pass exist, the camera is not a preview, the component was found and is on, and blue noise is set; the blits use only handles this frame allocated at camera / `downSample`; a frame with a pass leaves the camera's colour target as the pass's input |
| RayMarchingCloud.VolumeResolvedOnce | Assets/VolumCloud/Script/RayMarchingCloud.cs:28 | a pass built while the stack lacked the component never allocates or draws, whatever the component later holds |
| RayMarchingCloud.DepthDescriptorUnused | Assets/VolumCloud/Script/RayMarchingCloud.cs:43-49 | the depth handle gets the ARGBFloat descriptor of the temporary one, not the RFloat one computed for it |
| RayMarchingCloud.FullResolutionAtOne | Assets/VolumCloud/Script/RayMarchingCloud.cs:39-40 | a `downSample` of 1 renders at full resolution |
| RayMarchingCloud.CreateThenEnqueue | Assets/VolumCloud/Script/RayMarchingCloud.cs:138-155 | after `Create`, a pass is enqueued exactly when a shader was given, and it is built on the feature's material |
| RayMarchingCloud.DisposeLeavesNullPassEnqueued | Assets/VolumCloud/Script/RayMarchingCloud.cs:150-166 | after `Dispose` the material is still set, so a null pass is enqueued |
| RayMarchingCloud.PasslessFrameThrows | Assets/VolumCloud/Script/RayMarchingCloud.cs:138-166 | a feature created without a shader, or disposed, throws in every frame |
| RayMarchingCloud.ConfigureIdempotent | Assets/VolumCloud/Script/RayMarchingCloud.cs:31-51 | configuring twice in one frame equals configuring once |
| SkyCloud.Create | Assets/SkyCloud/SkyCloudRenderFeature.cs:122-129 | without a shader nothing changes; with one, a material and a pass on it, after post-processing, with no component yet |
| SkyCloud.AddRenderPasses | Assets/SkyCloud/SkyCloudRenderFeature.cs:133-138 | the pass field is enqueued exactly when the material is set |
| SkyCloud.EighthRes | Assets/SkyCloud/SkyCloudRenderFeature.cs:35-41 | the temporary size is an eighth of the camera's with truncation; RFloat, no depth, MSAA 1 |
| SkyCloud.Configure | Assets/SkyCloud/SkyCloudRenderFeature.cs:30-50 | the component is looked up again and kept; nothing is allocated for a missing or inactive one; otherwise both handles get the eighth-size descriptor, and other handles are kept |
| SkyCloud.Execute | Assets/SkyCloud/SkyCloudRenderFeature.cs:52-98 | skipped exactly for a preview camera or a missing or inactive component, never throws; else three chained blits with passes 1, 0 and a plain copy |
| SkyCloud.Dispose | Assets/SkyCloud/SkyCloudRenderFeature.cs:145-149 | the pass's `Dispose` (lines 103-107) releases the input handle `SetInput` stored, if any, and nothing else; the pass is dropped and the material kept |
| SkyCloud.DisposeReleasesInput | Assets/SkyCloud/SkyCloudRenderFeature.cs:103-149 | a feature that never ran a frame releases nothing; after any frame `Dispose` releases the camera's colour target, which the renderer owns |
| SkyCloud.RunFrameEffect | Assets/SkyCloud/SkyCloudRenderFeature.cs:24-143 | a frame throws exactly when there is no pass, because `SetupRenderPasses` calls `SetInput` on it unchecked. A frame issues blits exactly when a material and pass exist, the camera is not a preview and this frame's component is on; they use only handles allocated this frame at an eighth of the camera's size; a frame with a pass leaves the camera's colour target as the pass's input |
| SkyCloud.DepthDescriptorUnused | Assets/SkyCloud/SkyCloudRenderFeature.cs:43-49 | the depth handle is allocated at an eighth like the temporary one, not at the quarter its own descriptor asks for |
| SkyCloud.CreateThenEnqueue | Assets/SkyCloud/SkyCloudRenderFeature.cs:122-138 | after `Create`, a pass is enqueued exactly when a shader was given, and it is built on the feature's material |
| SkyCloud.DisposeLeavesNullPassEnqueued | Assets/SkyCloud/SkyCloudRenderFeature.cs:133-149 | after `Dispose` the material is still set, so a null pass is enqueued |
| SkyCloud.PasslessFrameThrows | Assets/SkyCloud/SkyCloudRenderFeature.cs:122-149 | a feature created without a shader, or disposed, throws in every frame |
| AtmosphereScattering.DefaultSettings | Assets/AtmosphereScattering/AtmosphereScatteringRenderFeature.cs:14 | the settings start with no shader and the event before post-processing |
| AtmosphereScattering.Create | Assets/AtmosphereScattering/AtmosphereScatteringRenderFeature.cs:114-125 | the pass is always built, on the material, with the settings' event; a shader replaces the material, and without one the old material stays |
| AtmosphereScattering.AddRenderPasses | Assets/AtmosphereScattering/AtmosphereScatteringRenderFeature.cs:128-134 | the pass is enqueued exactly when both it and the material are set |
| AtmosphereScattering.Configure | Assets/AtmosphereScattering/AtmosphereScatteringRenderFeature.cs:40-50 | nothing for a missing or inactive component; otherwise the temporary handle gets the camera's full size without depth, MSAA 1, and other handles are kept |
| AtmosphereScattering.Execute | Assets/AtmosphereScattering/AtmosphereScatteringRenderFeature.cs:52-74 | skipped exactly for a preview camera, a missing or inactive component or a null material, never throws; else two chained blits, pass 0 and a plain copy |
| AtmosphereScattering.Dispose | Assets/AtmosphereScattering/AtmosphereScatteringRenderFeature.cs:145-158 | with `disposing`, pass and material are released if present and both nulled; without it nothing happens |
| AtmosphereScattering.RunFrameEffect | Assets/AtmosphereScattering/AtmosphereScatteringRenderFeature.cs:40-134 | a frame never throws, and issues blits exactly when material and pass exist, the camera is not a preview and the component is on; they use only the full-size handle allocated this frame |
| AtmosphereScattering.CreateThenEnqueue | Assets/AtmosphereScattering/AtmosphereScatteringRenderFeature.cs:114-134 | after `Create` the pass is built on the feature's material, and it is enqueued exactly when some shader has been given |
| AtmosphereScattering.DefaultNeverEnqueued | Assets/AtmosphereScattering/AtmosphereScatteringRenderFeature.cs:14 | with the declared settings nothing is ever enqueued, and the event is before post-processing |
| AtmosphereScattering.DisposeStopsEnqueue | Assets/AtmosphereScattering/AtmosphereScatteringRenderFeature.cs:145-158 | after `Dispose(true)` nothing is enqueued |

## Left out

- Editor layout: `OnGUI`, scroll views, toggles, dialogs, progress bars and `MenuItem` wrappers are UI. Dialog answers are a `proceed` parameter.
- `Selection` and `DragAndDrop`: the selected or dragged objects are a parameter, with `Nothing` standing for an object that is not a `Texture2D`.
- `AssetDatabase.FindAssets`/`LoadAssetAtPath` in `NoiseGenerator`: the loaded slices are the parameter `found`. A guid whose asset is not a `Texture2D` would make the name ordering throw. That case is not modelled.
- `SystemInfo.IsFormatSupported`: platform-dependent. It is a parameter, and the converter's `try`/`catch` around it becomes an `Option<bool>`.
- Asset I/O: `ImportAsset`, `SaveAssets`, `Refresh`, `StartAssetEditing`, `File.WriteAllBytes` and `EncodeToPNG`. Their visible effect is the importer map. `CreateNewTextureAsset`, and the runtime `ConvertTextureFormat`, `CreateTextureWithFormat` and `SaveRuntimeTextureWithFormat` behind it, call the engine to create and encode pixels. They are the `CopyEngine` parameter. The changer's copy loop does not suspend asset editing, so the refresh can create the copy's importer there.
- Floating-point sizes: `CalculateTextureSize`, the `/ (1024f * 1024f)` conversions and `Profiler.GetRuntimeMemorySizeLong`. Only the integer product width × height × bytes per pixel is modelled.
- Pixel contents: `Color` is a record whose fields are copied, never computed. Sampler settings (wrap and filter mode, `TextureFormat`) are left out.
- Shader uniforms (`SetFloat`, `SetVector`, `SetTexture`, `SetMatrix`), the blue-noise scale vector and the camera-ray basis (`tan`, field of view, aspect): float values for shaders that are not part of this model. Only the blue-noise texture's presence is kept, because reading its size throws when it is missing.
- The command buffer and `CommandBufferPool`: a frame is the handles it allocates and the blits it issues. A missing pass is a throw in `SetupRenderPasses` in the ray-marching and sky features; the frame then ends.
- `CameraController.cs`, `SkyCloudContainer.cs`, `SysCloudContainer.cs`, `GetTransform.cs`, `ContainerView.cs` and `WorlyNoiseEditor.cs` are not part of this model. They hold input handling, float vector arithmetic, gizmos, and calls into noise code not shown.
- Name comparison: `OrderBy(tex => tex.name)` uses the culture's string comparer. It is modelled as ordinal order on characters, and it is stable like `OrderBy` (`NoiseGenerator.SortByNameStable`). `ToLower` is modelled as ASCII lower-casing.
- Texture identity: textures are compared by value, so two distinct assets with equal fields count as one in the drag-and-drop check.
- Path separators: `Path` helpers use `/` only.
- The rest of Unity's `GraphicsFormat`: the model's enum holds the formats the tools name plus a few stand-ins for "any other format", not all of Unity's values. "Every format other than `None`" in the table means every format of the model's enum.
- NoiseGenerator.GenerateTexture3D: `width * height * depth` (`NoiseGenerator.cs:50`) and `z * width * height` are C# `int` products, which wrap past 2^31 − 1. The model uses unbounded naturals, so it does not show the wrap that a volume of more than 2^31 − 1 voxels would cause.
- RayMarchingCloud.Configure: a camera narrower or shorter than `downSample` gets a descriptor with a zero side, and the model records it as allocated. Unity's `ReAllocateHandleIfNeeded` would reject such a texture, and that rejection is not modelled.
- SkyCloud.Configure: the same holds for a camera side under 8 texels, which gives a zero side at an eighth.
- SkyCloud.Execute: lines 64 and 66 of `Assets/SkyCloud/SkyCloudRenderFeature.cs` read `uvNoise` and `noise` from the component. `Assets/SkyCloud/SkyCloudVolume.cs:8-31` declares neither field, so the two files do not compile together as given. The model uses the component as declared. These two lines only set texture uniforms, which are not modelled, so no modelled behaviour depends on them.
- FormatUtility.RuntimeCopyPath: it requires a non-empty path. Because `Path.GetDirectoryName` throws on an empty path, the batch model throws for such an entry before calling it.
- NoiseGenerator.GenerateTexture3D: it requires every loaded slice to be well-formed (pixel count = width × height), which `GetPixels` guarantees.
- Combine3D.CombineTextures: it requires well-formed inputs, for the same reason.
- FormatConverter.ConvertTextureFormat: it writes to the corrected path with the corrected platform format (see Findings). The source's own `Replace` chain and platform chain are `FormatConverter.ConvertedPath` and `FormatConverter.ConverterPlatformFormat`, and the lemmas in the table relate each to its correction.

## Findings

| source | as written | input that shows it | evidently intended | confidence | as-written member | corrected member |
|---|---|---|---|---|---|---|
| Assets/VolumCloud/Script/Noise/Editor/Combine3DTextures.cs:22-26 | a size mismatch is only logged, and the merge goes on over the red texture's voxels | R 2x1x1 with G 1x2x1 are merged voxel by voxel; R 2x1x1 with a G of 1x1x1 indexes past G's end | abort on a size mismatch, as on a missing input | not executed | Combine3D.CombineTexturesAsWritten, Combine3D.AsWrittenMergesDifferentShapes | Combine3D.CombineTextures |
| Assets/VolumCloud/Script/Noise/Editor/TextureFormatConverter.cs:381-384 | the "R8_" test of the platform chain also matches `B8G8R8_UNorm` and `B8G8R8_SRGB` | `B8G8R8_UNorm` gets the single-channel R8 importer format | R8 only for the single-channel 8-bit layout; BGR8 falls through to RGBA32 | not executed | FormatConverter.ConverterPlatformFormatAsWritten, FormatConverter.BgrImportedAsR8 | FormatConverter.CorrectedPlatformFormat |
| Assets/VolumCloud/Script/Noise/Editor/TextureFormatConverter.cs:311 | the `Replace` chain returns a path with no .png, .jpg or .tga unchanged | `Assets/a.psd` is "converted" onto itself, overwriting the source file | a `<stem>_converted.png` next to the source, whatever its extension | not executed | FormatConverter.ConvertedPathUnchanged | FormatConverter.CorrectedConvertedPath |
