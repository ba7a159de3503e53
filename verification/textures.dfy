/** The engine objects the editor tools handle, reduced to the fields the
    tools read or write: colours, 2D and 3D textures, and the texture
    importer an asset path is configured by. */
module Textures {
  import opened Formats

  /** A colour whose channels are only copied, never computed. */
  datatype Color = Color(r: real, g: real, b: real, a: real)

  /** A 2D texture: its name, its size, the importer's read/write flag and the
      path the asset database knows it by ("" for a texture that is not an
      asset). Pixels are stored row by row. */
  datatype Texture2D = Texture2D(
    name: string, width: nat, height: nat, isReadable: bool, assetPath: string, pixels: seq<Color>)
  {
    predicate Valid() {
      |pixels| == width * height
    }
  }

  /** A 3D texture: `depth` slices of `width` x `height` texels, stored slice by
      slice. */
  datatype Texture3D = Texture3D(width: nat, height: nat, depth: nat, pixels: seq<Color>)
  {
    predicate Valid() {
      |pixels| == width * height * depth
    }
  }

  /** Unity's `TextureImporterFormat`, restricted to the values the tools use. */
  datatype ImporterFormat =
    | Automatic
    | R8 | R16 | RHalf | RFloat
    | RG16 | RGHalf | RGFloat
    | RGB24 | RGBA32 | RGBAHalf | RGBAFloat
    | DXT1 | DXT5 | BC6H | BC7
    | ASTC_4x4 | ASTC_6x6 | ASTC_8x8 | ASTC_10x10 | ASTC_12x12
    | ETC_RGB4 | ETC2_RGBA8
    | PVRTC_RGB4 | PVRTC_RGBA4

  /** What one texel of an importer format stores; `Automatic` leaves the
      choice to the platform and stores nothing definite. */
  function ImporterTexel(i: ImporterFormat): Option<Texel> {
    match i
    case Automatic => Nothing
    case R8 => Some(Plain(RGBA, 1, 8))
    case R16 => Some(Plain(RGBA, 1, 16))
    case RHalf => Some(Plain(RGBA, 1, 16))
    case RFloat => Some(Plain(RGBA, 1, 32))
    case RG16 => Some(Plain(RGBA, 2, 8))
    case RGHalf => Some(Plain(RGBA, 2, 16))
    case RGFloat => Some(Plain(RGBA, 2, 32))
    case RGB24 => Some(Plain(RGBA, 3, 8))
    case RGBA32 => Some(Plain(RGBA, 4, 8))
    case RGBAHalf => Some(Plain(RGBA, 4, 16))
    case RGBAFloat => Some(Plain(RGBA, 4, 32))
    case DXT1 => Some(Block(64, 4, 4))
    case DXT5 => Some(Block(128, 4, 4))
    case BC6H => Some(Block(128, 4, 4))
    case BC7 => Some(Block(128, 4, 4))
    case ASTC_4x4 => Some(Block(128, 4, 4))
    case ASTC_6x6 => Some(Block(128, 6, 6))
    case ASTC_8x8 => Some(Block(128, 8, 8))
    case ASTC_10x10 => Some(Block(128, 10, 10))
    case ASTC_12x12 => Some(Block(128, 12, 12))
    case ETC_RGB4 => Some(Block(64, 4, 4))
    case ETC2_RGBA8 => Some(Block(128, 4, 4))
    case PVRTC_RGB4 => Some(Block(64, 4, 4))
    case PVRTC_RGBA4 => Some(Block(64, 4, 4))
  }

  /** The importer settings the tools touch: the sRGB flag, the default
      platform format and the read/write flag. */
  datatype TextureImporter = TextureImporter(sRGBTexture: bool, platformFormat: ImporterFormat, isReadable: bool)

  /** The importers of the project by asset path; a path that is not a key has
      no texture importer (`AssetImporter.GetAtPath(p) as TextureImporter` is
      null). */
  type Importers = map<string, TextureImporter>
}
