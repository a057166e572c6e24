/** The web implementation of compressImage: the blob check, the defaults,
    the mime-type whitelist, the choice of output width and height, and the
    result, which carries a blob and no path. Loading the blob into an image,
    the canvas and `toBlob` are fields of `Host`. JavaScript numbers are
    modelled as reals. */
module WebPlugin {
  import opened Common

  const BlobRequired: string := "blob is required on web platform"
  const MimeUnsupported: string := "Only image/jpeg and image/webp are supported on web platform"
  const BlobLoadFailed: string := "Failed to load image from blob"
  const NoCanvasContext: string := "Failed to get canvas context"
  const CanvasBlobFailed: string := "Failed to create blob from canvas"

  datatype Blob = Blob(bytes: Bytes)

  /** A loaded HTMLImageElement; only its size matters to the plugin. */
  datatype Image = Image(width: real, height: real)

  /** The options object on the web; an absent key (undefined or null) is None. */
  datatype Options = Options(
    blob: Option<Blob>,
    quality: Option<real>,
    width: Option<real>,
    height: Option<real>,
    mimeType: Option<string>)

  /** The promise compressImage returns: rejected with an Error, or fulfilled
      with `{ blob }`, which has no `path`. */
  datatype Settled = Thrown(message: string) | Returned(blob: Blob)

  datatype Host = Host(
    loadImage: Blob -> Option<Image>,               // createImageFromBlob
    hasContext: bool,                               // canvas.getContext('2d') is not null
    toBlob: (Image, real, real, string, real) -> Option<Blob>,  // drawImage, then toBlob(mimeType, quality)
    proportional: (real, real, real) -> real)      // (given, num, den) |-> (num / den) * given

  /** JavaScript truthiness of an optional number (NaN is not modelled). */
  predicate Truthy(x: Option<real>) {
    x.Some? && x.value != 0.0
  }

  /** The canvas size: each side defaults (`??`) to the image's own, and when
      exactly one side is truthy the other is derived from it. */
  function OutputSize(width: Option<real>, height: Option<real>, image: Image, host: Host): (size: (real, real))
    ensures Truthy(width) && !Truthy(height) ==>
      size == (width.value, host.proportional(width.value, image.height, image.width))
    ensures Truthy(height) && !Truthy(width) ==>
      size == (host.proportional(height.value, image.width, image.height), height.value)
    ensures Truthy(width) == Truthy(height) ==>
      size == (width.GetOr(image.width), height.GetOr(image.height))
  {
    var w := width.GetOr(image.width);
    var h := height.GetOr(image.height);
    if Truthy(width) && !Truthy(height) then (w, host.proportional(w, image.height, image.width))
    else if Truthy(height) && !Truthy(width) then (host.proportional(h, image.width, image.height), h)
    else (w, h)
  }

  /** Neither dimension supplied: the output has the image's size. */
  lemma NoDimensionsKeepsSize(image: Image, host: Host)
    ensures OutputSize(None, None, image, host) == (image.width, image.height)
  {
  }

  /** A supplied width of 0 is falsy: with a truthy height, the width is
      derived from the height rather than taken as 0. */
  lemma ZeroWidthCountsAsAbsent(height: real, image: Image, host: Host)
    requires height != 0.0
    ensures OutputSize(Some(0.0), Some(height), image, host)
         == OutputSize(None, Some(height), image, host)
         == (host.proportional(height, image.width, image.height), height)
  {
  }

  /** How compressImage settles its promise. */
  function Compress(opts: Options, host: Host): (s: Settled)
    ensures opts.blob.None? ==> s == Thrown(BlobRequired)
    ensures opts.blob.Some? && opts.mimeType.GetOr(Jpeg) !in {Jpeg, Webp} ==> s == Thrown(MimeUnsupported)
    ensures s.Returned? ==> opts.blob.Some? && host.loadImage(opts.blob.value).Some? && host.hasContext
  {
    if opts.blob.None? then Thrown(BlobRequired)
    else
      var quality := opts.quality.GetOr(DefaultQuality);
      var mimeType := opts.mimeType.GetOr(Jpeg);
      if mimeType != Jpeg && mimeType != Webp then Thrown(MimeUnsupported)
      else
        match host.loadImage(opts.blob.value)
        case None => Thrown(BlobLoadFailed)
        case Some(image) =>
          var size := OutputSize(opts.width, opts.height, image, host);
          if !host.hasContext then Thrown(NoCanvasContext)
          else
            match host.toBlob(image, size.0, size.1, mimeType, quality)
            case None => Thrown(CanvasBlobFailed)
            case Some(blob) => Returned(blob)
  }

  /** The blob and mime checks come before loading: when either fails, every
      host gives the same error. */
  lemma ChecksPrecedeLoading(opts: Options, host1: Host, host2: Host)
    requires opts.blob.None? || opts.mimeType.GetOr(Jpeg) !in {Jpeg, Webp}
    ensures Compress(opts, host1) == Compress(opts, host2)
    ensures Compress(opts, host1).Thrown?
  {
  }

  /** There is no quality range check on the web: any quality, in range or
      not, reaches `toBlob` unchanged (0.6 when omitted), together with the
      accepted mime type (image/jpeg when omitted). */
  lemma QualityPassedThrough(opts: Options, host: Host, image: Image, out: Blob)
    requires opts.blob.Some? && opts.mimeType.GetOr(Jpeg) in {Jpeg, Webp}
    requires host.loadImage(opts.blob.value) == Some(image) && host.hasContext
    requires var size := OutputSize(opts.width, opts.height, image, host);
      host.toBlob(image, size.0, size.1, opts.mimeType.GetOr(Jpeg), opts.quality.GetOr(0.6)) == Some(out)
    ensures Compress(opts, host) == Returned(out)
  {
  }
}
