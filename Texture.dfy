/**
 * The two format lookups of tdogl.Texture (03_matrices/source/tdogl/Texture.cs):
 * which OpenGL internal format and which pixel-upload format a bitmap's pixel
 * layout is given. Both throw for any layout they do not know.
 */
module TdoglTexture {
  import opened Wrappers

  /** System.Drawing's pixel layouts, as far as the lookups distinguish them. */
  datatype BitmapPixelFormat =
    | Format16bppGrayScale
    | Format24bppRgb
    | Format32bppArgb
    | OtherFormat

  /** The GL internal formats the lookup can return. */
  datatype PixelInternalFormat = Luminance | Rgb | Rgba

  /** The GL upload formats the lookup can return; B, G, R is the byte order of a System.Drawing bitmap. */
  datatype PixelFormat = Luminance | Bgr | Bgra

  const UnrecognisedFormat := "Unrecognised Bitmap.Format"

  predicate Recognised(format: BitmapPixelFormat) {
    !format.OtherFormat?
  }

  /** How many colour channels a bitmap pixel of `format` holds. */
  function BitmapChannels(format: BitmapPixelFormat): (n: nat)
    requires Recognised(format)
  {
    match format
    case Format16bppGrayScale => 1
    case Format24bppRgb => 3
    case Format32bppArgb => 4
  }

  function InternalFormatChannels(f: PixelInternalFormat): (n: nat) {
    match f
    case Luminance => 1
    case Rgb => 3
    case Rgba => 4
  }

  function PixelFormatChannels(f: PixelFormat): (n: nat) {
    match f
    case Luminance => 1
    case Bgr => 3
    case Bgra => 4
  }

  /**
   * The texture's internal format: one that keeps every channel of a known
   * bitmap layout, and the "Unrecognised Bitmap.Format" error for any other.
   */
  function TextureFormatForBitmapFormat(format: BitmapPixelFormat): (r: Result<PixelInternalFormat, string>)
    ensures r.Success? <==> Recognised(format)
    ensures r.Failure? ==> r.error == UnrecognisedFormat
    ensures r.Success? ==> InternalFormatChannels(r.value) == BitmapChannels(format)
  {
    match format
    case Format16bppGrayScale => Success(PixelInternalFormat.Luminance)
    case Format24bppRgb => Success(PixelInternalFormat.Rgb)
    case Format32bppArgb => Success(PixelInternalFormat.Rgba)
    case OtherFormat => Failure(UnrecognisedFormat)
  }

  /**
   * The format the bitmap's bytes are uploaded in: one with the bitmap's
   * channel count, and the "Unrecognised Bitmap.Format" error for any other.
   */
  function PixelFormatForBitmap(format: BitmapPixelFormat): (r: Result<PixelFormat, string>)
    ensures r.Success? <==> Recognised(format)
    ensures r.Failure? ==> r.error == UnrecognisedFormat
    ensures r.Success? ==> PixelFormatChannels(r.value) == BitmapChannels(format)
  {
    match format
    case Format16bppGrayScale => Success(PixelFormat.Luminance)
    case Format24bppRgb => Success(PixelFormat.Bgr)
    case Format32bppArgb => Success(PixelFormat.Bgra)
    case OtherFormat => Failure(UnrecognisedFormat)
  }

  /** The table the two lookups implement. */
  lemma FormatTable()
    ensures TextureFormatForBitmapFormat(Format16bppGrayScale) == Success(PixelInternalFormat.Luminance)
    ensures PixelFormatForBitmap(Format16bppGrayScale) == Success(PixelFormat.Luminance)
    ensures TextureFormatForBitmapFormat(Format24bppRgb) == Success(PixelInternalFormat.Rgb)
    ensures PixelFormatForBitmap(Format24bppRgb) == Success(PixelFormat.Bgr)
    ensures TextureFormatForBitmapFormat(Format32bppArgb) == Success(PixelInternalFormat.Rgba)
    ensures PixelFormatForBitmap(Format32bppArgb) == Success(PixelFormat.Bgra)
  {
  }

  /**
   * The two lookups accept the same layouts, and for each the internal format
   * and the upload format have the same number of channels; so the texture
   * upload either gets both formats, consistent, or fails.
   */
  lemma LookupsAgree(format: BitmapPixelFormat)
    ensures TextureFormatForBitmapFormat(format).Success? <==> PixelFormatForBitmap(format).Success?
    ensures TextureFormatForBitmapFormat(format).Success? ==>
      InternalFormatChannels(TextureFormatForBitmapFormat(format).value) ==
      PixelFormatChannels(PixelFormatForBitmap(format).value)
  {
  }
}
