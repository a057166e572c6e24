/** The iOS implementation of compressImage: the argument gate (JPEG only),
    the prefix classification of loadImage, the resize dispatch, JPEG
    encoding and the write to the temporary directory. UIKit, Foundation's
    data loading and writing, UUID and the temporary directory are fields of
    `Host`. */
module IosPlugin {
  import opened Common

  const MimeUnsupported: string := "Only image/jpeg is supported on iOS"
  const SaveFailedPrefix: string := "Failed to save compressed image: "
  const TripleSlashScheme: string := "file:///"

  /** A decoded UIImage; only its size (in points) matters to the plugin. */
  datatype Image = Image(width: real, height: real)

  /** What `imageData.write(to:)` does. */
  datatype SaveResult = Saved | SaveFails(description: string)

  datatype Host = Host(
    urlData: string -> Option<Bytes>,         // URL(string:) then Data(contentsOf:); nil if either fails
    fileData: string -> Option<Bytes>,        // Data(contentsOf: URL(fileURLWithPath:))
    decode: Bytes -> Option<Image>,           // UIImage(data:)
    render: (Image, real, real) -> Image,     // resizeImage(image:targetWidth:targetHeight:)
    proportional: (real, real, real) -> real, // (given, num, den) |-> given * (num / den) in CGFloat
    jpegData: (Image, real) -> Option<Bytes>, // jpegData(compressionQuality:)
    write: (Bytes, string) -> SaveResult,
    tempDir: string,
    uuid: string)

  // ---------------------------------------------------------------- argument gate

  datatype Request = Request(path: string, quality: real, width: Option<int>, height: Option<int>)

  /** The checks compressImage makes before loading, in the plugin's order:
      path present, mime type image/jpeg (the default), quality within [0, 1]. */
  function Gate(opts: CallOptions): (r: Result<Request>)
    ensures r.Ok? <==>
      && opts.path.Some?
      && opts.mimeType.GetOr(Jpeg) == Jpeg
      && 0.0 <= opts.quality.GetOr(DefaultQuality) <= 1.0
    ensures r.Ok? ==> r.value == Request(opts.path.value, opts.quality.GetOr(DefaultQuality), opts.width, opts.height)
    ensures r.Err? ==> r.message in {PathRequired, MimeUnsupported, QualityOutOfRange}
  {
    if opts.path.None? then Err(PathRequired)
    else
      var quality := opts.quality.GetOr(DefaultQuality);
      var mimeType := opts.mimeType.GetOr(Jpeg);
      if mimeType != Jpeg then Err(MimeUnsupported)
      else if QualityOutOfBounds(quality) then Err(QualityOutOfRange)
      else Ok(Request(opts.path.value, quality, opts.width, opts.height))
  }

  /** A missing path is rejected first, whatever else was sent. */
  lemma MissingPathRejectedFirst(opts: CallOptions)
    requires opts.path.None?
    ensures Gate(opts) == Err(PathRequired)
  {
  }

  /** Any mime type other than image/jpeg, image/webp (accepted on Android)
      included, is refused before the quality is looked at. */
  lemma MimeCheckedBeforeQuality(opts: CallOptions)
    requires opts.path.Some? && opts.mimeType.Some? && opts.mimeType.value != Jpeg
    ensures Gate(opts) == Err(MimeUnsupported)
  {
  }

  /** With mime type image/jpeg, sent or omitted, the quality alone decides,
      [0, 1] inclusive, 0.6 when omitted. */
  lemma QualityRange(opts: CallOptions)
    requires opts.path.Some? && opts.mimeType.GetOr(Jpeg) == Jpeg
    ensures Gate(opts).Ok? <==> 0.0 <= opts.quality.GetOr(DefaultQuality) <= 1.0
    ensures Gate(opts).Err? ==> Gate(opts).message == QualityOutOfRange
    ensures opts.quality.None? ==> Gate(opts).Ok? && Gate(opts).value.quality == 0.6
  {
  }

  // ---------------------------------------------------------------- loading

  /** The branch of loadImage a path takes. */
  datatype PathKind =
    | FileUrl       // "file://": URL(string:)
    | AbsolutePath  // "/": URL(fileURLWithPath:)
    | OtherUrl      // "content://" or "file:///": URL(string:)
    | Unrecognised  // nil

  /** The branches are tested in the plugin's order; the third one's
      `file:///` alternative never fires, since such a path already took the
      first branch, so the third branch holds exactly the content URIs. */
  function Classify(path: string): (k: PathKind)
    ensures k.FileUrl? <==> StartsWith(path, FileScheme)
    ensures k.AbsolutePath? <==> StartsWith(path, "/")
    ensures k.OtherUrl? <==> StartsWith(path, ContentScheme)
    ensures k.Unrecognised? <==>
      !StartsWith(path, FileScheme) && !StartsWith(path, "/") && !StartsWith(path, ContentScheme)
  {
    PrefixesExclusive(path);
    if StartsWith(path, FileScheme) then FileUrl
    else if StartsWith(path, "/") then AbsolutePath
    else if StartsWith(path, ContentScheme) || StartsWith(path, TripleSlashScheme) then OtherUrl
    else Unrecognised
  }

  /** No path starts with two of "file://", "/" and "content://": their first letters differ. */
  lemma PrefixesExclusive(path: string)
    ensures !(StartsWith(path, FileScheme) && StartsWith(path, "/"))
    ensures !(StartsWith(path, FileScheme) && StartsWith(path, ContentScheme))
    ensures !(StartsWith(path, ContentScheme) && StartsWith(path, "/"))
  {
    if |path| > 0 {
      assert StartsWith(path, FileScheme) ==> path[0] == 'f';
      assert StartsWith(path, ContentScheme) ==> path[0] == 'c';
      assert StartsWith(path, "/") ==> path[0] == '/';
    }
  }

  /** The image a byte buffer decodes to, if any. */
  function Decoded(data: Option<Bytes>, host: Host): Option<Image> {
    if data.Some? then host.decode(data.value) else None
  }

  /** loadImage: URL loading for "file://" and "content://", file-path loading
      for "/", nil for any other string. */
  function LoadImage(path: string, host: Host): (image: Option<Image>)
    ensures StartsWith(path, FileScheme) || StartsWith(path, ContentScheme) ==>
      image == Decoded(host.urlData(path), host)
    ensures StartsWith(path, "/") ==> image == Decoded(host.fileData(path), host)
    ensures !StartsWith(path, FileScheme) && !StartsWith(path, "/") && !StartsWith(path, ContentScheme) ==>
      image == None
  {
    match Classify(path)
    case FileUrl => Decoded(host.urlData(path), host)
    case AbsolutePath => Decoded(host.fileData(path), host)
    case OtherUrl => Decoded(host.urlData(path), host)
    case Unrecognised => None
  }

  /** The "file:///" alternative of the third branch is dead: such a path is a FileUrl. */
  lemma TripleSlashTakesFirstBranch(rest: string)
    ensures Classify(TripleSlashScheme + rest) == FileUrl
  {
  }

  // ---------------------------------------------------------------- resizing

  /** The size handed to resizeImage; a supplied dimension goes through
      unchanged, a missing one comes from `proportional`. */
  function TargetExtent(mode: ResizeMode, image: Image, host: Host): (extent: (real, real))
    requires !mode.Keep?
    ensures !mode.FromHeight? ==> extent.0 == mode.width as real
    ensures !mode.FromWidth? ==> extent.1 == mode.height as real
  {
    match mode
    case Exact(w, h) => (w as real, h as real)
    case FromWidth(w) => (w as real, host.proportional(w as real, image.height, image.width))
    case FromHeight(h) => (host.proportional(h as real, image.width, image.height), h as real)
  }

  /** processedImage: the loaded image itself when no dimension was given. */
  function Processed(image: Image, mode: ResizeMode, host: Host): (processed: Image)
    ensures mode.Keep? ==> processed == image
    ensures !mode.Keep? ==>
      processed == host.render(image, TargetExtent(mode, image, host).0, TargetExtent(mode, image, host).1)
  {
    if mode.Keep? then image
    else
      var extent := TargetExtent(mode, image, host);
      host.render(image, extent.0, extent.1)
  }

  // ---------------------------------------------------------------- the whole call

  /** The file compressImage writes: `compressed_<uuid>.jpg` in the temporary directory. */
  function OutputFile(host: Host): string {
    JoinPath(host.tempDir, OutputName(host.uuid, JpegExtension))
  }

  /** How compressImage settles the call. Every resolved path is a
      `compressed_<uuid>.jpg` file in the temporary directory. */
  function Compress(opts: CallOptions, host: Host): (o: Outcome)
    ensures o.Resolved? ==> Gate(opts).Ok? && LoadImage(opts.path.value, host).Some?
    ensures o.Resolved? ==> o.path == OutputFile(host)
  {
    match Gate(opts)
    case Err(message) => Rejected(message)
    case Ok(req) =>
      match LoadImage(req.path, host)
      case None => Rejected(LoadFailed)
      case Some(image) =>
        var processed := Processed(image, SelectResize(req.width, req.height), host);
        match host.jpegData(processed, req.quality)
        case None => Rejected(CompressFailed)
        case Some(data) =>
          var file := OutputFile(host);
          match host.write(data, file)
          case Saved => Resolved(file)
          case SaveFails(description) => Rejected(SaveFailedPrefix + description)
  }

  /** A gate failure rejects with the gate's message whatever the host does,
      and a path that passes the gate but does not load rejects with
      "Failed to load image from path". */
  lemma EarlyFailuresReject(opts: CallOptions, host1: Host, host2: Host)
    ensures Gate(opts).Err? ==>
      Compress(opts, host1) == Compress(opts, host2) == Rejected(Gate(opts).message)
    ensures Gate(opts).Ok? && LoadImage(opts.path.value, host1).None? ==>
      Compress(opts, host1) == Rejected(LoadFailed)
  {
  }

  /** A path with none of the three prefixes is never loaded and ends in
      "Failed to load image from path". */
  lemma UnrecognisedPathRejects(opts: CallOptions, host: Host)
    requires Gate(opts).Ok?
    requires Classify(opts.path.value).Unrecognised?
    ensures Compress(opts, host) == Rejected(LoadFailed)
  {
  }

  /** A call that passes the gate, loads, encodes and writes resolves with
      the temporary file. */
  lemma SuccessResolves(opts: CallOptions, host: Host, image: Image, data: Bytes)
    requires Gate(opts).Ok?
    requires LoadImage(opts.path.value, host) == Some(image)
    requires host.jpegData(Processed(image, SelectResize(opts.width, opts.height), host),
                           opts.quality.GetOr(DefaultQuality)) == Some(data)
    requires host.write(data, OutputFile(host)) == Saved
    ensures Compress(opts, host) == Resolved(OutputFile(host))
  {
  }

  /** No JPEG data rejects with "Failed to compress image". */
  lemma EncodeFailureRejects(opts: CallOptions, host: Host, image: Image)
    requires Gate(opts).Ok?
    requires LoadImage(opts.path.value, host) == Some(image)
    requires host.jpegData(Processed(image, SelectResize(opts.width, opts.height), host),
                           opts.quality.GetOr(DefaultQuality)) == None
    ensures Compress(opts, host) == Rejected(CompressFailed)
  {
  }

  /** A failed write of the encoded data rejects with its description and never resolves. */
  lemma WriteFailureRejects(opts: CallOptions, host: Host, image: Image, data: Bytes, description: string)
    requires Gate(opts).Ok?
    requires LoadImage(opts.path.value, host) == Some(image)
    requires host.jpegData(Processed(image, SelectResize(opts.width, opts.height), host),
                           opts.quality.GetOr(DefaultQuality)) == Some(data)
    requires host.write(data, OutputFile(host)) == SaveFails(description)
    ensures Compress(opts, host) == Rejected(SaveFailedPrefix + description)
  {
  }

  /** compressImage: settles the call exactly once, as `Compress` says. */
  method CompressImage(call: PluginCall, host: Host)
    requires call.settlements == []
    modifies call
    ensures call.settlements == [Compress(call.options, host)]
  {
    if call.options.path.None? {
      call.Reject(PathRequired);
      return;
    }
    var path := call.options.path.value;
    var quality := call.options.quality.GetOr(DefaultQuality);
    var width := call.options.width;
    var height := call.options.height;
    var mimeType := call.options.mimeType.GetOr(Jpeg);

    if mimeType != Jpeg {
      call.Reject(MimeUnsupported);
      return;
    }
    if quality < 0.0 || quality > 1.0 {
      call.Reject(QualityOutOfRange);
      return;
    }

    var loaded := LoadImage(path, host);
    if loaded.None? {
      call.Reject(LoadFailed);
      return;
    }
    var image := loaded.value;

    var processedImage := image;
    if width.Some? && height.Some? {
      processedImage := host.render(image, width.value as real, height.value as real);
    } else if width.Some? {
      var targetHeight := host.proportional(width.value as real, image.height, image.width);
      processedImage := host.render(image, width.value as real, targetHeight);
    } else if height.Some? {
      var targetWidth := host.proportional(height.value as real, image.width, image.height);
      processedImage := host.render(image, targetWidth, height.value as real);
    }

    var imageData := host.jpegData(processedImage, quality);
    if imageData.None? {
      call.Reject(CompressFailed);
      return;
    }

    var fileUrl := OutputFile(host);
    match host.write(imageData.value, fileUrl)
    case Saved =>
      call.Resolve(fileUrl);
    case SaveFails(description) =>
      call.Reject(SaveFailedPrefix + description);
  }
}
