/** The Android implementation of compressImage: the argument gate, the
    scheme handling of loadBitmapFromPath, the resize dispatch, the format and
    file-name mapping of compressBitmap, and how the call is settled and the
    bitmaps recycled. Everything the platform does (content resolver, file
    system, BitmapFactory, createScaledBitmap, compress, UUID, cache
    directory, float arithmetic) is a field of `Host`. */
module AndroidPlugin {
  import opened Common

  const MimeUnsupported: string := "Only image/jpeg and image/webp are supported on Android"
  const ErrorPrefix: string := "Error compressing image: "

  /** Decoded pixel data; only its size matters to the plugin. */
  datatype Raster = Raster(width: int, height: int)

  /** What `openInputStream` on a content URI leads to inside loadBitmapFromPath. */
  datatype StreamOpen =
    | Opened(decoded: Option<Raster>, closeFails: bool)  // decodeStream's result; whether close() threw
    | NoStream                                            // the resolver returned null
    | OpenFails                                           // the resolver threw

  /** What `Bitmap.createScaledBitmap` does. */
  datatype ScaleResult =
    | ScaledCopy(raster: Raster)   // a new bitmap
    | SameBitmap                   // the source bitmap itself is returned
    | ScaleFails(message: string)  // an exception, with its message

  datatype Format = JPEG | WEBP {
    function Extension(): string {
      if WEBP? then WebpExtension else JpegExtension
    }
  }

  /** What opening, compressing into, flushing and closing the output file does.
      The boolean `bitmap.compress` returns is ignored by the plugin, so it is not here. */
  datatype WriteResult =
    | Written
    | WriteIOError                 // an IOException, caught inside compressBitmap
    | WriteFails(message: string)  // any other exception, caught by compressImage

  datatype Host = Host(
    openStream: string -> StreamOpen,
    fileExists: string -> bool,
    decodeFile: string -> Option<Raster>,    // null when the file cannot be decoded
    scale: (Raster, int, int) -> ScaleResult,
    proportional: (int, int, int) -> int,    // (given, num, den) |-> (int)(given * ((float) num / den))
    qualityPercent: real -> int,             // (int)(quality * 100)
    write: (string, Format, int, Raster) -> WriteResult,
    cacheDir: string,
    uuid: string)

  // ---------------------------------------------------------------- argument gate

  /** The arguments of a call that passed the gate, defaults applied. */
  datatype Request = Request(path: string, quality: real, width: Option<int>, height: Option<int>, mimeType: string)

  /** The checks compressImage makes before any I/O, in the plugin's order:
      path present, mime type whitelisted, quality within [0, 1]. */
  function Gate(opts: CallOptions): (r: Result<Request>)
    ensures r.Ok? <==>
      && opts.path.Some?
      && opts.mimeType.GetOr(Jpeg) in {Jpeg, Webp}
      && 0.0 <= opts.quality.GetOr(DefaultQuality) <= 1.0
    ensures r.Ok? ==> r.value == Request(opts.path.value, opts.quality.GetOr(DefaultQuality), opts.width, opts.height, opts.mimeType.GetOr(Jpeg))
    ensures r.Err? ==> r.message in {PathRequired, MimeUnsupported, QualityOutOfRange}
  {
    if opts.path.None? then Err(PathRequired)
    else
      var quality := opts.quality.GetOr(DefaultQuality);
      var mimeType := opts.mimeType.GetOr(Jpeg);
      if mimeType != Jpeg && mimeType != Webp then Err(MimeUnsupported)
      else if QualityOutOfBounds(quality) then Err(QualityOutOfRange)
      else Ok(Request(opts.path.value, quality, opts.width, opts.height, mimeType))
  }

  /** A missing path is rejected with "path is required", whatever else was sent. */
  lemma MissingPathRejectedFirst(opts: CallOptions)
    requires opts.path.None?
    ensures Gate(opts) == Err(PathRequired)
  {
  }

  /** An unsupported mime type is reported even when the quality is also bad. */
  lemma MimeCheckedBeforeQuality(opts: CallOptions)
    requires opts.path.Some?
    requires opts.mimeType.Some? && opts.mimeType.value != Jpeg && opts.mimeType.value != Webp
    ensures Gate(opts) == Err(MimeUnsupported)
  {
  }

  /** Omitted quality and mime type become 0.6 and image/jpeg, which pass. */
  lemma GateDefaults(opts: CallOptions)
    requires opts.path.Some? && opts.quality.None? && opts.mimeType.None?
    ensures Gate(opts) == Ok(Request(opts.path.value, 0.6, opts.width, opts.height, "image/jpeg"))
  {
  }

  /** With a path and a supported mime type, the quality passes exactly when
      it lies in [0, 1], both endpoints included. */
  lemma QualityRange(opts: CallOptions, q: real)
    requires opts.path.Some? && opts.mimeType.GetOr(Jpeg) in {Jpeg, Webp}
    requires opts.quality == Some(q)
    ensures Gate(opts).Ok? <==> 0.0 <= q <= 1.0
    ensures Gate(opts).Err? ==> Gate(opts).message == QualityOutOfRange
  {
  }

  // ---------------------------------------------------------------- loading

  /** Where loadBitmapFromPath first reads from: the content resolver for a
      content URI, otherwise the file system. */
  datatype Source = ContentUri(uri: string) | LocalFile(path: string)

  /** The scheme decision: `content://` goes to the resolver, a `file://`
      prefix (7 characters) is stripped, anything else is a file path as is. */
  function SourceOf(path: string): (s: Source)
    ensures s.ContentUri? <==> StartsWith(path, ContentScheme)
    ensures s.ContentUri? ==> s.uri == path
    ensures s.LocalFile? && StartsWith(path, FileScheme) ==> path == FileScheme + s.path
    ensures s.LocalFile? && !StartsWith(path, FileScheme) ==> s.path == path
  {
    if StartsWith(path, ContentScheme) then ContentUri(path)
    else if StartsWith(path, FileScheme) then LocalFile(path[|FileScheme|..])
    else LocalFile(path)
  }

  /** A `file://` URI names the file the rest of it spells. */
  lemma FileUriRoundTrip(rest: string)
    ensures SourceOf(FileScheme + rest) == LocalFile(rest)
  {
    var uri := FileScheme + rest;
    assert uri[..|FileScheme|] == FileScheme;
    assert uri[0] == 'f';
  }

  /** The bitmap read from a file path: null when the file is missing or does not decode. */
  function FileBitmap(path: string, host: Host): Option<Raster> {
    if host.fileExists(path) then host.decodeFile(path) else None
  }

  /** What loadBitmapFromPath returns, None standing for null. */
  function LoadedBitmap(path: string, host: Host): Option<Raster> {
    match SourceOf(path)
    case ContentUri(uri) =>
      (match host.openStream(uri)
       case Opened(decoded, closeFails) => if closeFails then None else decoded
       case NoStream => FileBitmap(path, host)  // falls through with the path unchanged
       case OpenFails => None)
    case LocalFile(p) => FileBitmap(p, host)
  }

  /** loadBitmapFromPath: resolver first for content URIs, then the file path. */
  method LoadBitmapFromPath(path: string, host: Host) returns (bitmap: Option<Raster>)
    ensures bitmap == LoadedBitmap(path, host)
    ensures bitmap.Some? && !StartsWith(path, ContentScheme) ==>
      host.fileExists(SourceOf(path).path) && bitmap == host.decodeFile(SourceOf(path).path)
  {
    var p := path;
    if StartsWith(p, ContentScheme) {
      match host.openStream(p)
      case Opened(decoded, closeFails) =>
        if closeFails {
          return None;
        }
        return decoded;
      case OpenFails =>
        return None;
      case NoStream =>
    } else if StartsWith(p, FileScheme) {
      p := p[7..];
    }
    if host.fileExists(p) {
      return host.decodeFile(p);
    }
    return None;
  }

  /** A content URI whose stream opens is decoded from that stream alone:
      two hosts that agree on the stream agree on the result, however their
      file systems differ. */
  lemma OpenedStreamNeverTouchesFiles(path: string, host1: Host, host2: Host)
    requires StartsWith(path, ContentScheme)
    requires host1.openStream(path).Opened? && host1.openStream(path) == host2.openStream(path)
    ensures LoadedBitmap(path, host1) == LoadedBitmap(path, host2)
    ensures !host1.openStream(path).closeFails ==> LoadedBitmap(path, host1) == host1.openStream(path).decoded
  {
  }

  /** For a content URI, any exception while loading yields null: the
      resolver throwing, or the stream failing to close after decoding. A
      null stream falls through to the file branch with the path unchanged. */
  lemma ContentUriLoading(path: string, host: Host)
    requires StartsWith(path, ContentScheme)
    ensures host.openStream(path) == OpenFails ==> LoadedBitmap(path, host) == None
    ensures host.openStream(path).Opened? && host.openStream(path).closeFails ==> LoadedBitmap(path, host) == None
    ensures host.openStream(path) == NoStream ==> LoadedBitmap(path, host) == FileBitmap(path, host)
  {
  }

  /** A path with no recognised scheme is looked up unchanged, and a missing
      file yields null. */
  lemma PlainPathUsedUnchanged(path: string, host: Host)
    requires !StartsWith(path, ContentScheme) && !StartsWith(path, FileScheme)
    ensures LoadedBitmap(path, host) == FileBitmap(path, host)
    ensures !host.fileExists(path) ==> LoadedBitmap(path, host) == None
  {
  }

  // ---------------------------------------------------------------- resizing

  /** The size handed to createScaledBitmap; a derived side comes from `proportional`. */
  function TargetSize(mode: ResizeMode, source: Raster, host: Host): (size: (int, int))
    requires !mode.Keep?
    ensures !mode.FromHeight? ==> size.0 == mode.width
    ensures !mode.FromWidth? ==> size.1 == mode.height
  {
    match mode
    case Exact(w, h) => (w, h)
    case FromWidth(w) => (w, host.proportional(w, source.height, source.width))
    case FromHeight(h) => (host.proportional(h, source.width, source.height), h)
  }

  /** The bitmap that gets compressed: the loaded one when no dimension was
      given, otherwise what createScaledBitmap makes of it at `TargetSize`. */
  function Processed(loaded: Raster, mode: ResizeMode, host: Host): (r: Result<Raster>)
    ensures mode.Keep? ==> r == Ok(loaded)
    ensures !mode.Keep? ==>
      r == match host.scale(loaded, TargetSize(mode, loaded, host).0, TargetSize(mode, loaded, host).1)
           case ScaledCopy(raster) => Ok(raster)
           case SameBitmap => Ok(loaded)
           case ScaleFails(message) => Err(message)
  {
    if mode.Keep? then Ok(loaded)
    else
      var size := TargetSize(mode, loaded, host);
      match host.scale(loaded, size.0, size.1)
      case ScaledCopy(raster) => Ok(raster)
      case SameBitmap => Ok(loaded)
      case ScaleFails(message) => Err(message)
  }

  // ---------------------------------------------------------------- encoding

  /** The codec for an accepted mime type: WebP for image/webp, JPEG otherwise. */
  function FormatFor(mimeType: string): (f: Format)
    ensures f == WEBP <==> mimeType == Webp
  {
    if mimeType == Webp then WEBP else JPEG
  }

  datatype Saved = SavedTo(path: string) | NotSaved | Threw(message: string)

  /** The file compressBitmap writes: `compressed_<uuid><ext>` in the cache directory. */
  function OutputFile(mimeType: string, host: Host): string {
    JoinPath(host.cacheDir, OutputName(host.uuid, FormatFor(mimeType).Extension()))
  }

  /** compressBitmap: the mime type's codec and the integer quality reach the
      encoder, which writes `compressed_<uuid><ext>` in the cache directory;
      null (NotSaved) on an IOException, any other exception passed on. */
  function CompressBitmap(raster: Raster, quality: real, mimeType: string, host: Host): (s: Saved)
    ensures s.SavedTo? ==> s.path == OutputFile(mimeType, host)
    ensures s.SavedTo? <==>
      host.write(OutputFile(mimeType, host), FormatFor(mimeType), host.qualityPercent(quality), raster).Written?
    ensures s == NotSaved <==>
      host.write(OutputFile(mimeType, host), FormatFor(mimeType), host.qualityPercent(quality), raster) == WriteIOError
    ensures s.Threw? <==>
      host.write(OutputFile(mimeType, host), FormatFor(mimeType), host.qualityPercent(quality), raster).WriteFails?
  {
    var format := FormatFor(mimeType);
    var file := OutputFile(mimeType, host);
    match host.write(file, format, host.qualityPercent(quality), raster)
    case Written => SavedTo(file)
    case WriteIOError => NotSaved
    case WriteFails(message) => Threw(message)
  }

  /** The saved file's name ends in `.webp` exactly for image/webp and in `.jpg` otherwise. */
  lemma ExtensionFollowsMime(raster: Raster, quality: real, mimeType: string, host: Host)
    requires CompressBitmap(raster, quality, mimeType, host).SavedTo?
    ensures var p := CompressBitmap(raster, quality, mimeType, host).path;
      && StartsWith(p, host.cacheDir + "/" + OutputPrefix + host.uuid)
      && (mimeType == Webp ==> p[|p| - |WebpExtension|..] == WebpExtension)
      && (mimeType != Webp ==> p[|p| - |JpegExtension|..] == JpegExtension)
  {
  }

  // ---------------------------------------------------------------- the whole call

  /** How compressImage settles the call. */
  function Compress(opts: CallOptions, host: Host): (o: Outcome)
    ensures o.Resolved? ==> Gate(opts).Ok? && LoadedBitmap(opts.path.value, host).Some?
    ensures o.Resolved? ==> o.path == OutputFile(Gate(opts).value.mimeType, host)
  {
    match Gate(opts)
    case Err(message) => Rejected(message)
    case Ok(req) =>
      match LoadedBitmap(req.path, host)
      case None => Rejected(LoadFailed)
      case Some(loaded) =>
        match Processed(loaded, SelectResize(req.width, req.height), host)
        case Err(message) => Rejected(ErrorPrefix + message)
        case Ok(processed) =>
          match CompressBitmap(processed, req.quality, req.mimeType, host)
          case SavedTo(path) => Resolved(path)
          case NotSaved => Rejected(CompressFailed)
          case Threw(message) => Rejected(ErrorPrefix + message)
  }

  /** A rejected gate decides the outcome before any host capability is used:
      every host gives the same rejection. */
  lemma GateFailureNeedsNoIO(opts: CallOptions, host1: Host, host2: Host)
    requires Gate(opts).Err?
    ensures Compress(opts, host1) == Compress(opts, host2) == Rejected(Gate(opts).message)
  {
  }

  /** A null bitmap, whatever the cause, ends in "Failed to load image from path". */
  lemma LoadFailureRejects(opts: CallOptions, host: Host)
    requires Gate(opts).Ok? && LoadedBitmap(opts.path.value, host).None?
    ensures Compress(opts, host) == Rejected(LoadFailed)
  {
  }

  /** A call that passes the gate, loads, scales and writes resolves with the
      cache-directory file named for its mime type. */
  lemma SuccessResolves(opts: CallOptions, host: Host, loaded: Raster, processed: Raster)
    requires Gate(opts).Ok?
    requires LoadedBitmap(opts.path.value, host) == Some(loaded)
    requires Processed(loaded, SelectResize(opts.width, opts.height), host) == Ok(processed)
    requires var mimeType := opts.mimeType.GetOr(Jpeg);
      host.write(OutputFile(mimeType, host), FormatFor(mimeType),
                 host.qualityPercent(opts.quality.GetOr(DefaultQuality)), processed) == Written
    ensures Compress(opts, host) == Resolved(OutputFile(opts.mimeType.GetOr(Jpeg), host))
  {
  }

  /** The rejections after loading: a scaling exception and any non-IO
      exception while writing give "Error compressing image: " and its
      message; an IOException while writing gives "Failed to compress image". */
  lemma LaterFailuresReject(opts: CallOptions, host: Host, loaded: Raster)
    requires Gate(opts).Ok?
    requires LoadedBitmap(opts.path.value, host) == Some(loaded)
    ensures var processed := Processed(loaded, SelectResize(opts.width, opts.height), host);
      && (processed.Err? ==> Compress(opts, host) == Rejected(ErrorPrefix + processed.message))
      && (processed.Ok? ==>
            var saved := CompressBitmap(processed.value, opts.quality.GetOr(DefaultQuality), opts.mimeType.GetOr(Jpeg), host);
            && (saved == NotSaved ==> Compress(opts, host) == Rejected(CompressFailed))
            && (saved.Threw? ==> Compress(opts, host) == Rejected(ErrorPrefix + saved.message)))
  {
  }

  /** A bitmap object; `recycleCalls` counts the calls to `recycle()`. */
  class Bitmap {
    const raster: Raster
    var recycleCalls: nat

    constructor (raster: Raster)
      ensures this.raster == raster && recycleCalls == 0
    {
      this.raster := raster;
      recycleCalls := 0;
    }

    method Recycle()
      modifies this
      ensures recycleCalls == old(recycleCalls) + 1
    {
      recycleCalls := recycleCalls + 1;
    }
  }

  /** `Bitmap.createScaledBitmap`: a new bitmap, the source itself, or an exception. */
  method CreateScaledBitmap(source: Bitmap, width: int, height: int, host: Host) returns (r: Result<Bitmap>)
    ensures match host.scale(source.raster, width, height)
      case ScaledCopy(raster) => r.Ok? && fresh(r.value) && r.value.raster == raster && r.value.recycleCalls == 0
      case SameBitmap => r == Ok(source)
      case ScaleFails(message) => r == Err(message)
  {
    match host.scale(source.raster, width, height)
    case ScaledCopy(raster) =>
      var b := new Bitmap(raster);
      r := Ok(b);
    case SameBitmap =>
      r := Ok(source);
    case ScaleFails(message) =>
      r := Err(message);
  }

  /** compressImage: settles the call exactly once, as `Compress` says. On
      success the loaded bitmap and, when it is a different object, the scaled
      one are each recycled exactly once; on every failure path nothing is
      recycled. With no dimension given, no scaled bitmap is made. */
  method CompressImage(call: PluginCall, host: Host) returns (ghost loaded: Bitmap?, ghost processed: Bitmap?)
    requires call.settlements == []
    modifies call
    ensures call.settlements == [Compress(call.options, host)]
    ensures loaded != null ==> fresh(loaded)
    ensures processed != null ==> fresh(processed)
    ensures Compress(call.options, host).Resolved? ==>
      && loaded != null && processed != null
      && loaded.recycleCalls == 1 && processed.recycleCalls == 1
    ensures Compress(call.options, host).Rejected? ==>
      && (loaded != null ==> loaded.recycleCalls == 0)
      && (processed != null ==> processed.recycleCalls == 0)
    ensures SelectResize(call.options.width, call.options.height).Keep? && processed != null ==> processed == loaded
    ensures loaded != null ==> call.options.path.Some? && LoadedBitmap(call.options.path.value, host) == Some(loaded.raster)
    ensures processed != null ==>
      && loaded != null
      && Processed(loaded.raster, SelectResize(call.options.width, call.options.height), host) == Ok(processed.raster)
    ensures processed != null && !SelectResize(call.options.width, call.options.height).Keep? ==>
      var size := TargetSize(SelectResize(call.options.width, call.options.height), loaded.raster, host);
      (host.scale(loaded.raster, size.0, size.1).ScaledCopy? <==> processed != loaded)
  {
    loaded, processed := null, null;
    if call.options.path.None? {
      call.Reject(PathRequired);
      return;
    }
    var path := call.options.path.value;
    var quality := call.options.quality.GetOr(DefaultQuality);
    var width := call.options.width;
    var height := call.options.height;
    var mimeType := call.options.mimeType.GetOr(Jpeg);

    if mimeType != Jpeg && mimeType != Webp {
      call.Reject(MimeUnsupported);
      return;
    }
    if quality < 0.0 || quality > 1.0 {
      call.Reject(QualityOutOfRange);
      return;
    }

    var decoded := LoadBitmapFromPath(path, host);
    if decoded.None? {
      call.Reject(LoadFailed);
      return;
    }
    var bitmap := new Bitmap(decoded.value);
    loaded := bitmap;

    var processedBitmap := bitmap;
    var scaled: Result<Bitmap> := Ok(bitmap);
    if width.Some? && height.Some? {
      scaled := CreateScaledBitmap(bitmap, width.value, height.value, host);
    } else if width.Some? {
      var targetHeight := host.proportional(width.value, bitmap.raster.height, bitmap.raster.width);
      scaled := CreateScaledBitmap(bitmap, width.value, targetHeight, host);
    } else if height.Some? {
      var targetWidth := host.proportional(height.value, bitmap.raster.width, bitmap.raster.height);
      scaled := CreateScaledBitmap(bitmap, targetWidth, height.value, host);
    }
    if scaled.Err? {
      call.Reject(ErrorPrefix + scaled.message);
      return;
    }
    processedBitmap := scaled.value;
    processed := processedBitmap;

    var compressed := CompressBitmap(processedBitmap.raster, quality, mimeType, host);
    match compressed
    case NotSaved =>
      call.Reject(CompressFailed);
    case Threw(message) =>
      call.Reject(ErrorPrefix + message);
    case SavedTo(file) =>
      if processedBitmap != bitmap {
        processedBitmap.Recycle();
      }
      bitmap.Recycle();
      call.Resolve(file);
  }
}
