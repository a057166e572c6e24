# File compressor plugin: request handling, modelled in Dafny

The Capacitor plugin `FileCompressor` exposes one real operation,
`compressImage`. It loads an image from a path (Android, iOS) or a blob (web),
optionally resizes it, re-encodes it as JPEG or WebP at a quality in [0, 1], and
returns the path of a temporary file (native) or the new blob (web). The imaging
itself belongs to the platform. This project models the logic the plugin wraps
around those calls, once per platform, as the three implementations write it:

- the **argument gate**: required input, defaults (quality 0.6, mime type
  `image/jpeg`), the mime-type whitelist and the quality range check, in each
  platform's own order;
- **path-scheme handling**: Android routes `content://` to the content resolver,
  strips `file://` and otherwise uses a file path; iOS classifies by prefix;
- **resize-mode selection**: both dimensions, width only, height only, or neither
  (no rescale);
- **output naming**: mime type to codec and extension, and the name
  `compressed_<id><ext>` in the cache or temporary directory;
- **call settlement**: every path ends in exactly one reject or one resolve; on
  Android, which bitmaps are recycled.

Files:

- `common.dfy` (module `Common`): the options a caller sends, the settlement
  outcome, the `PluginCall` class that records every reject and resolve, the
  prefix test, `SelectResize` and `OutputName`.
- `android.dfy` (module `AndroidPlugin`): the gate, `loadBitmapFromPath`,
  resizing, `compressBitmap`, and `compressImage` as a method over a
  `PluginCall` and `Bitmap` objects.
- `ios.dfy` (module `IosPlugin`): the gate, `loadImage`'s prefix
  classification, resizing, and `compressImage` as a method over a `PluginCall`.
- `web.dfy` (module `WebPlugin`): `compressImage` as a function, which is how
  the web code is written (straight-line expressions).

Everything the platform does is a field of a per-platform `Host` value. This
covers the content resolver, file existence and reads, decoding, scaling,
encoding, writing, the cache or temporary directory and the random UUID. Each
such field is a function value or a string. The model therefore covers every
platform behaviour that returns a value or throws an `Exception`; a
`java.lang.Error` is not covered (see "Left out"). Each `compressImage` method
is proved against a pure function `Compress(options, host)`. Its `ensures` says the call's settlement log
is exactly `[Compress(options, host)]`: one settlement, never both a reject and
a resolve. The lemmas beside it state what that function promises.

The model follows the code as written, including these behaviours:

- On Android, a `content://` path whose resolver returns a null stream falls
  through to the file branch with the path unchanged.
- If closing the stream throws, the decoded bitmap is discarded.
- The boolean returned by `bitmap.compress` is ignored. A write that raises no
  exception resolves with the file's path even if the encoder reported failure.
- Bitmaps are recycled only on the success path. Every failure after loading
  leaves them unrecycled.
- The mime type is checked before the quality, not after.
- A missing file and an undecodable one give the same message.
- iOS accepts only `image/jpeg`. The web has no quality range check.

## Model

| member | source | states |
|---|---|---|
| `Common.SelectResize` | android/src/main/java/io/capgo/filecompressor/FileCompressorPlugin.java:57-68 | exactly one of four modes: exact size iff both dimensions are given, width-derived iff only width, height-derived iff only height, keep iff neither; every supplied dimension is carried unchanged |
| `Common.OutputName` | android/src/main/java/io/capgo/filecompressor/FileCompressorPlugin.java:136 | the name starts with `compressed_`, and the id and the extension can be read back from their positions in it |
| `Common.OutputNameInjective` | android/src/main/java/io/capgo/filecompressor/FileCompressorPlugin.java:126-136 | with extensions `.jpg`/`.webp`, two output names are equal iff their ids and extensions are, so distinct ids never collide |
| `AndroidPlugin.Gate` | android/src/main/java/io/capgo/filecompressor/FileCompressorPlugin.java:25-46 | a call passes iff a path is present, the mime type (default `image/jpeg`) is jpeg or webp, and the quality (default 0.6) lies in [0, 1]; what passes is the caller's path, quality, dimensions and mime type with the defaults applied; every failure is one of the three messages |
| `AndroidPlugin.MissingPathRejectedFirst` | android/src/main/java/io/capgo/filecompressor/FileCompressorPlugin.java:25-29 | a missing path gives "path is required" whatever else was sent |
| `AndroidPlugin.MimeCheckedBeforeQuality` | android/src/main/java/io/capgo/filecompressor/FileCompressorPlugin.java:34-46 | an unsupported mime type is reported even when the quality is also out of range |
| `AndroidPlugin.GateDefaults` | android/src/main/java/io/capgo/filecompressor/FileCompressorPlugin.java:31-34 | omitted quality and mime type become 0.6 and `image/jpeg`, and the call passes |
| `AndroidPlugin.QualityRange` | android/src/main/java/io/capgo/filecompressor/FileCompressorPlugin.java:43-46 | with a path and supported mime, a quality passes iff 0 <= q <= 1, both endpoints included; otherwise the range message |
| `AndroidPlugin.SourceOf` | android/src/main/java/io/capgo/filecompressor/FileCompressorPlugin.java:95-110 | `content://` goes to the resolver with the path as is; otherwise a `file://` prefix is removed (the path is `file://` + the rest) and any other path is used unchanged |
| `AndroidPlugin.FileUriRoundTrip` | android/src/main/java/io/capgo/filecompressor/FileCompressorPlugin.java:105-107 | `file://` + p is read from the local file p |
| `AndroidPlugin.LoadBitmapFromPath` | android/src/main/java/io/capgo/filecompressor/FileCompressorPlugin.java:92-118 | returns what the resolver-then-file procedure yields (None for null); a bitmap loaded from a non-content path comes from an existing file at the stripped path |
| `AndroidPlugin.OpenedStreamNeverTouchesFiles` | android/src/main/java/io/capgo/filecompressor/FileCompressorPlugin.java:95-103 | a content URI whose stream opens yields the stream's decode, independent of the file system |
| `AndroidPlugin.ContentUriLoading` | android/src/main/java/io/capgo/filecompressor/FileCompressorPlugin.java:95-117 | for a content URI, a resolver exception or a failed close yields null, and a null stream falls through to the file branch with the path unchanged |
| `AndroidPlugin.PlainPathUsedUnchanged` | android/src/main/java/io/capgo/filecompressor/FileCompressorPlugin.java:109-117 | a path with no scheme is looked up as is; a missing file yields null |
| `AndroidPlugin.TargetSize` | android/src/main/java/io/capgo/filecompressor/FileCompressorPlugin.java:58-67 | a supplied width or height is passed to the scaler unchanged |
| `AndroidPlugin.Processed` | android/src/main/java/io/capgo/filecompressor/FileCompressorPlugin.java:57-68 | with no dimension, the bitmap compressed is the loaded one; otherwise it is what `createScaledBitmap` returns at `TargetSize` (a new bitmap, the loaded one, or its exception) |
| `AndroidPlugin.FormatFor` | android/src/main/java/io/capgo/filecompressor/FileCompressorPlugin.java:126-132 | the codec is WEBP iff the mime type is `image/webp`, JPEG otherwise |
| `AndroidPlugin.CompressBitmap` | android/src/main/java/io/capgo/filecompressor/FileCompressorPlugin.java:120-151 | the mime type's codec and the integer quality reach the encoder for the file `<cacheDir>/compressed_<uuid><ext>`; the result is that file iff the write succeeds, null iff it throws an IOException, and any other exception is passed on |
| `AndroidPlugin.ExtensionFollowsMime` | android/src/main/java/io/capgo/filecompressor/FileCompressorPlugin.java:126-137 | the saved path starts with `<cacheDir>/compressed_<uuid>` and ends in `.webp` for `image/webp`, `.jpg` otherwise |
| `AndroidPlugin.Compress` | android/src/main/java/io/capgo/filecompressor/FileCompressorPlugin.java:24-90 | a resolved call passed the gate, loaded a bitmap, and resolves with the cache-directory output name for its mime type |
| `AndroidPlugin.GateFailureNeedsNoIO` | android/src/main/java/io/capgo/filecompressor/FileCompressorPlugin.java:25-46 | a gate failure gives the same rejection for every host: no I/O is consulted |
| `AndroidPlugin.SuccessResolves` | android/src/main/java/io/capgo/filecompressor/FileCompressorPlugin.java:48-86 | a call that passes the gate, loads, scales and writes resolves with the cache-directory file named for its mime type |
| `AndroidPlugin.LaterFailuresReject` | android/src/main/java/io/capgo/filecompressor/FileCompressorPlugin.java:57-89 | after loading, a scaling exception or a non-IO write exception rejects with "Error compressing image: " and its message, and an IOException rejects with "Failed to compress image" |
| `AndroidPlugin.LoadFailureRejects` | android/src/main/java/io/capgo/filecompressor/FileCompressorPlugin.java:50-54 | a null bitmap from any cause rejects with "Failed to load image from path" |
| `AndroidPlugin.CompressImage` | android/src/main/java/io/capgo/filecompressor/FileCompressorPlugin.java:24-90 | settles the call exactly once, as `Compress` says; on success the loaded bitmap and the scaled one are each recycled exactly once (once in all when they are the same object); on failure none is recycled; the loaded bitmap is what `loadBitmapFromPath` returned and the processed one is what the resize step made of it, a distinct object exactly when the scaler made a new bitmap; with no dimension the processed bitmap is the loaded one |
| `IosPlugin.Gate` | ios/Sources/FileCompressorPlugin/FileCompressorPlugin.swift:16-36 | a call passes iff a path is present, the mime type (default `image/jpeg`) is `image/jpeg`, and the quality (default 0.6) lies in [0, 1]; every failure is one of the three messages |
| `IosPlugin.MissingPathRejectedFirst` | ios/Sources/FileCompressorPlugin/FileCompressorPlugin.swift:16-19 | a missing path gives "path is required" whatever else was sent |
| `IosPlugin.MimeCheckedBeforeQuality` | ios/Sources/FileCompressorPlugin/FileCompressorPlugin.swift:24-36 | any mime type other than `image/jpeg`, `image/webp` included, gets the iOS mime message whatever the quality |
| `IosPlugin.QualityRange` | ios/Sources/FileCompressorPlugin/FileCompressorPlugin.swift:21-36 | with mime type `image/jpeg`, sent or omitted, a quality passes iff it lies in [0, 1], both endpoints included; otherwise the range message; an omitted one is 0.6 and passes |
| `IosPlugin.Classify` | ios/Sources/FileCompressorPlugin/FileCompressorPlugin.swift:79-101 | the branch is file-URL iff the path starts `file://`, absolute-path iff `/`, the third branch iff `content://`, and none iff no prefix matches |
| `IosPlugin.PrefixesExclusive` | ios/Sources/FileCompressorPlugin/FileCompressorPlugin.swift:81-91 | no path starts with two of `file://`, `/`, `content://` |
| `IosPlugin.LoadImage` | ios/Sources/FileCompressorPlugin/FileCompressorPlugin.swift:79-102 | `file://` and `content://` paths are loaded as URLs, `/` paths as file paths, any other string yields nil |
| `IosPlugin.TripleSlashTakesFirstBranch` | ios/Sources/FileCompressorPlugin/FileCompressorPlugin.swift:91 | the `file:///` alternative of the third branch is unreachable: such paths take the first branch |
| `IosPlugin.TargetExtent` | ios/Sources/FileCompressorPlugin/FileCompressorPlugin.swift:46-55 | a supplied width or height is passed to resizeImage unchanged |
| `IosPlugin.Processed` | ios/Sources/FileCompressorPlugin/FileCompressorPlugin.swift:45-56 | with no dimension the processed image is the loaded image; otherwise it is the render at the target extent |
| `IosPlugin.Compress` | ios/Sources/FileCompressorPlugin/FileCompressorPlugin.swift:15-77 | a resolved call passed the gate, loaded an image, and resolves with `<tempDir>/compressed_<uuid>.jpg` |
| `IosPlugin.EarlyFailuresReject` | ios/Sources/FileCompressorPlugin/FileCompressorPlugin.swift:16-42 | a gate failure (missing path first, then mime, then quality) rejects with the gate's message whatever the host does; a path that passes the gate but does not load rejects with "Failed to load image from path" |
| `IosPlugin.UnrecognisedPathRejects` | ios/Sources/FileCompressorPlugin/FileCompressorPlugin.swift:39-42 | a path with no recognised prefix rejects with "Failed to load image from path" |
| `IosPlugin.SuccessResolves` | ios/Sources/FileCompressorPlugin/FileCompressorPlugin.swift:39-73 | a call that passes the gate, loads, encodes and writes resolves with `<tempDir>/compressed_<uuid>.jpg` |
| `IosPlugin.EncodeFailureRejects` | ios/Sources/FileCompressorPlugin/FileCompressorPlugin.swift:59-62 | no JPEG data rejects with "Failed to compress image" |
| `IosPlugin.WriteFailureRejects` | ios/Sources/FileCompressorPlugin/FileCompressorPlugin.swift:69-76 | when the write of the encoded data fails, the call rejects with "Failed to save compressed image: " and the error's description, and does not resolve |
| `IosPlugin.CompressImage` | ios/Sources/FileCompressorPlugin/FileCompressorPlugin.swift:15-77 | settles the call exactly once, as `Compress` says |
| `WebPlugin.OutputSize` | src/web.ts:23-31 | each side defaults to the image's own; when exactly one side is truthy the other is derived from it; otherwise both are used as supplied |
| `WebPlugin.NoDimensionsKeepsSize` | src/web.ts:23-24 | with no dimensions the output size is the image size |
| `WebPlugin.ZeroWidthCountsAsAbsent` | src/web.ts:23-31 | a width of 0 with a truthy height is treated as absent, and the width is derived from the height |
| `WebPlugin.Compress` | src/web.ts:6-61 | a missing blob throws "blob is required on web platform"; a mime type outside jpeg/webp throws the whitelist error; a fulfilled result (a blob, no path) needs a loaded image and a canvas context |
| `WebPlugin.ChecksPrecedeLoading` | src/web.ts:7-20 | a missing blob or a bad mime type throws the same error for every host, before the image is loaded |
| `WebPlugin.QualityPassedThrough` | src/web.ts:11-58 | any quality, in range or not, reaches `toBlob` unchanged (0.6 when omitted), together with the accepted mime type, `image/jpeg` or `image/webp` (`image/jpeg` when omitted) |

## Left out

- Decoding, scaling and encoding (`BitmapFactory`, `createScaledBitmap`, `compress`, `UIImage`, `UIGraphicsImageRenderer`, `jpegData`, canvas `drawImage`/`toBlob`) are opaque. They are `Host` fields that may fail.
- Float arithmetic is abstracted. Android derives a dimension as `(int)(given * ((float) num / den))` and converts quality as `(int)(quality * 100)`. iOS and the web keep the derived dimension unrounded. All of these are `Host` fields (`proportional`, `qualityPercent`), so no exact rounding is claimed.
- Quality is a real number. A NaN quality is not modelled; on Android and iOS it would pass the range check, because both comparisons are false. The web's falsy `NaN` dimension is not modelled either.
- `AndroidPlugin.QualityRange`, `IosPlugin.QualityRange`: the native code compares a 32-bit `float`, but callers send JavaScript doubles. A value just above 1.0 (for example `1.00000001`) rounds to `1.0f` and passes on the device, while the model, which compares the exact real, rejects it. The same holds just below 0.0.
- A `java.lang.Error` on Android (for example an `OutOfMemoryError` from `decodeFile`, `createScaledBitmap` or `compress` on a large bitmap) escapes every `catch`, so the call is never settled. The model's exactly-once settlement covers only results and `Exception`s, not such errors.
- `IosPlugin.Classify`, `IosPlugin.LoadImage`: grapheme-cluster prefix matching is not modelled. Swift's `hasPrefix` compares `Character`s (grapheme clusters), while the model compares single characters. When a combining mark directly follows the prefix, as in `"/\u{301}a.jpg"`, Swift finds no prefix, and the call rejects with "Failed to load image from path". The model classifies that path by its first character and reads it as a file. The prefix tests on Android are plain Java comparisons of UTF-16 units, which the model matches.
- File existence, resolver streams, file reads and writes, the cache and temporary directories and UUID generation are I/O and randomness. They are `Host` fields and parameters.
- Joining the directory and the file name is modelled as `dir + "/" + name`. The path normalisation done by `java.io.File` and `URL.appendingPathComponent` is not modelled.
- A `decodeStream` exception on Android leaves the input stream unclosed. The model only records that such an exception yields null.
- The exception object passed along with `call.reject` on Android is not modelled; only the message is.
- The promise and async machinery of the web code is not modelled. The details of `createImageFromBlob` (object URLs and their revocation) are summarised as `loadImage`.
- Integer conversion of non-integer canvas sizes is not modelled.
- `getPluginVersion` on all platforms returns a constant. Capacitor registration and glue (`src/index.ts`, `Package.swift`), the type declarations in `src/definitions.ts` and the example app are not part of this model.
