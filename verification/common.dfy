/** Values, checks and the plugin-call object shared by the Android and iOS
    implementations of compressImage: the options a caller sends, how a call
    is settled, the scheme-prefix test, the choice of resize mode and the name
    of the output file. */
module Common {

  datatype Option<+T> = None | Some(value: T) {
    /** The value, or `default` when absent (Swift's `??`, Capacitor's getX(name, default)). */
    function GetOr(default: T): T {
      match this
      case Some(v) => v
      case None => default
    }
  }

  datatype Result<+T> = Ok(value: T) | Err(message: string)

  type Bytes = seq<bv8>

  /** How one plugin call is settled: rejected with a message, or resolved with the output path. */
  datatype Outcome = Rejected(message: string) | Resolved(path: string)

  /** The options object a caller passes to compressImage on Android and iOS.
      A key that is absent (or not of the expected type) reads as None. */
  datatype CallOptions = CallOptions(
    path: Option<string>,
    quality: Option<real>,
    width: Option<int>,
    height: Option<int>,
    mimeType: Option<string>)

  const DefaultQuality: real := 0.6
  const Jpeg: string := "image/jpeg"
  const Webp: string := "image/webp"

  const PathRequired: string := "path is required"
  const QualityOutOfRange: string := "quality must be between 0.0 and 1.0"
  const LoadFailed: string := "Failed to load image from path"
  const CompressFailed: string := "Failed to compress image"

  const FileScheme: string := "file://"
  const ContentScheme: string := "content://"
  const OutputPrefix: string := "compressed_"
  const JpegExtension: string := ".jpg"
  const WebpExtension: string := ".webp"

  /** Java's `startsWith`, which compares UTF-16 units; for the ASCII
      prefixes used here this is a comparison of characters. Swift's
      `hasPrefix` compares grapheme clusters instead, which differs when a
      combining mark directly follows the prefix. */
  predicate StartsWith(s: string, prefix: string) {
    |prefix| <= |s| && s[..|prefix|] == prefix
  }

  /** The rejection test both native platforms apply to the quality. */
  predicate QualityOutOfBounds(q: real) {
    q < 0.0 || q > 1.0
  }

  /** A file `name` inside the directory `dir`. */
  function JoinPath(dir: string, name: string): string {
    dir + "/" + name
  }

  /** The resize case chosen from the optional target width and height. */
  datatype ResizeMode =
    | Exact(width: int, height: int)
    | FromWidth(width: int)
    | FromHeight(height: int)
    | Keep

  /** Both native platforms pick exactly one case: both dimensions scale to
      that exact size, one dimension derives the other from the aspect ratio,
      none keeps the loaded image. A supplied dimension is never altered. */
  function SelectResize(width: Option<int>, height: Option<int>): (mode: ResizeMode)
    ensures mode.Exact? <==> width.Some? && height.Some?
    ensures mode.FromWidth? <==> width.Some? && height.None?
    ensures mode.FromHeight? <==> width.None? && height.Some?
    ensures mode.Keep? <==> width.None? && height.None?
    ensures width.Some? ==> mode.width == width.value
    ensures height.Some? ==> mode.height == height.value
  {
    if width.Some? && height.Some? then Exact(width.value, height.value)
    else if width.Some? then FromWidth(width.value)
    else if height.Some? then FromHeight(height.value)
    else Keep
  }

  /** The temporary file name: the fixed prefix, the random id, the extension.
      The id and the extension can be read back from the name. */
  function OutputName(id: string, extension: string): (name: string)
    ensures StartsWith(name, OutputPrefix)
    ensures |name| == |OutputPrefix| + |id| + |extension|
    ensures name[|OutputPrefix|..|OutputPrefix| + |id|] == id
    ensures name[|OutputPrefix| + |id|..] == extension
  {
    OutputPrefix + id + extension
  }

  /** Two output names agree exactly when their ids and extensions do, so
      calls with distinct ids never write to the same file. */
  lemma OutputNameInjective(id1: string, ext1: string, id2: string, ext2: string)
    requires ext1 == JpegExtension || ext1 == WebpExtension
    requires ext2 == JpegExtension || ext2 == WebpExtension
    ensures OutputName(id1, ext1) == OutputName(id2, ext2) <==> id1 == id2 && ext1 == ext2
  {
    var n1, n2 := OutputName(id1, ext1), OutputName(id2, ext2);
    if n1 == n2 {
      // The extensions end in different letters, so equal names share the extension.
      assert n1[|n1| - 1] == ext1[|ext1| - 1] && n2[|n2| - 1] == ext2[|ext2| - 1];
      assert ext1 == ext2;
      assert id1 == n1[|OutputPrefix|..|OutputPrefix| + |id1|];
    }
  }

  /** The state of one Capacitor plugin call: what the caller sent and every
      reject or resolve issued on it, in order. */
  class PluginCall {
    const options: CallOptions
    var settlements: seq<Outcome>

    constructor (options: CallOptions)
      ensures this.options == options && settlements == []
    {
      this.options := options;
      settlements := [];
    }

    method Reject(message: string)
      modifies this
      ensures settlements == old(settlements) + [Rejected(message)]
    {
      settlements := settlements + [Rejected(message)];
    }

    method Resolve(path: string)
      modifies this
      ensures settlements == old(settlements) + [Resolved(path)]
    {
      settlements := settlements + [Resolved(path)];
    }
  }
}
