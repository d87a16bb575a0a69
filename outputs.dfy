/** What the download handlers ask of their collaborators once a strategy is
    chosen: the ffmpeg audio container, the yt-dlp post-processor and MIME
    tables, the download file name, the temporary file name, the upstream
    request headers and the yt-dlp command lines. */
module Outputs {
  import opened Wrappers
  import opened Text

  // ----- ffmpeg audio transcoding -----

  /** The container passed to ffmpeg's `format`, the Content-Type sent and the
      extension of the download. */
  datatype AudioTarget = AudioTarget(container: string, mime: string, ext: string)

  /** The subformats with a branch of their own in the ffmpeg audio path. */
  const FfmpegBranches: map<string, AudioTarget> := map[
    "mp3" := AudioTarget("mp3", "audio/mpeg", "mp3"),
    "wav" := AudioTarget("wav", "audio/wav", "wav"),
    "opus" := AudioTarget("ogg", "audio/ogg", "ogg")]

  /** The final `else` branch, taken by `m4a` and every other subformat. */
  const FfmpegDefault := AudioTarget("mp4", "audio/mp4", "m4a")

  /** Reference table for the ffmpeg audio path. */
  function FfmpegAudioTarget(outFmt: string): (r: AudioTarget)
    ensures StartsWith(r.mime, "audio/")
    ensures outFmt !in FfmpegBranches ==> r == FfmpegDefault
    ensures r.ext == outFmt <==> outFmt in {"mp3", "wav", "m4a"}
    ensures r.container == "ogg" <==> outFmt == "opus"
  {
    if outFmt in FfmpegBranches then FfmpegBranches[outFmt] else FfmpegDefault
  }

  /** The ffmpeg audio branch as written: `mime` and `ext` start as
      `"audio/mp4"` and the subformat and each branch overwrites some of them. */
  method FfmpegAudioOutput(outFmt: string) returns (container: string, mime: string, ext: string)
    ensures AudioTarget(container, mime, ext) == FfmpegAudioTarget(outFmt)
  {
    mime := "audio/mp4";
    ext := outFmt;
    if outFmt == "mp3" {
      container := "mp3";
      mime := "audio/mpeg";
    } else if outFmt == "wav" {
      container := "wav";
      mime := "audio/wav";
    } else if outFmt == "opus" {
      container := "ogg";
      mime := "audio/ogg";
      ext := "ogg";
    } else {
      container := "mp4";
      mime := "audio/mp4";
      ext := "m4a";
    }
  }

  // ----- yt-dlp audio extraction -----

  /** The `postprocessors` record. */
  const PostProcessorTable: map<string, seq<string>> := map[
    "mp3" := ["--extract-audio", "--audio-format", "mp3", "--audio-quality", "0"],
    "wav" := ["--extract-audio", "--audio-format", "wav"],
    "m4a" := ["--extract-audio", "--audio-format", "m4a"],
    "opus" := ["--extract-audio", "--audio-format", "opus"],
    "flac" := ["--extract-audio", "--audio-format", "flac"]]

  /** The `mimeMap` record. */
  const MimeTable: map<string, string> := map[
    "mp3" := "audio/mpeg",
    "wav" := "audio/wav",
    "m4a" := "audio/mp4",
    "opus" := "audio/ogg",
    "flac" := "audio/flac"]

  /** Property names every plain object literal inherits from
      `Object.prototype`: indexing a record with one of them yields a function
      or an object rather than `undefined`. */
  const ObjectPrototypeKeys: set<string> := {
    "constructor", "toString", "toLocaleString", "valueOf", "hasOwnProperty",
    "isPrototypeOf", "propertyIsEnumerable", "__proto__", "__defineGetter__",
    "__defineSetter__", "__lookupGetter__", "__lookupSetter__"}

  /** `postprocessors[sub] || postprocessors.m4a`, spread into the argument
      list. An inherited key yields a truthy value that is not iterable, the
      spread throws, and the tier fails: `None`. */
  function PostProcessorArgs(sub: string): (r: Option<seq<string>>)
    ensures r.None? <==> sub in ObjectPrototypeKeys
    ensures r.Some? ==> |r.value| >= 3 && r.value[..2] == ["--extract-audio", "--audio-format"]
    ensures r.Some? ==> r.value[2] == if sub in PostProcessorTable then sub else "m4a"
  {
    if sub in ObjectPrototypeKeys then None
    else if sub in PostProcessorTable then Some(PostProcessorTable[sub])
    else Some(PostProcessorTable["m4a"])
  }

  /** `mimeMap[sub] || "audio/mp4"`. Inherited keys never get here, because
      the post-processor spread has already failed for them. */
  function YtDlpAudioMime(sub: string): (mime: string)
    ensures StartsWith(mime, "audio/")
    ensures sub !in MimeTable ==> mime == "audio/mp4"
  {
    if sub in MimeTable then MimeTable[sub] else "audio/mp4"
  }

  /** The two transcoding paths send the same Content-Type for every
      subformat both of them handle; they differ only for `flac`, which ffmpeg
      writes as m4a while yt-dlp extracts real FLAC. */
  lemma {:induction false} TranscodersAgreeExceptFlac(sub: string)
    requires sub !in ObjectPrototypeKeys
    ensures FfmpegAudioTarget(sub).mime == YtDlpAudioMime(sub) <==> sub != "flac"
  {
    if sub !in MimeTable {
      assert sub !in FfmpegBranches;
    } else if sub == "flac" {
      assert FfmpegAudioTarget(sub) == FfmpegDefault;
    }
  }

  /** An unknown subformat is extracted as m4a and sent as `audio/mp4` by
      both paths. */
  lemma UnknownSubformatIsM4a(sub: string)
    requires sub !in PostProcessorTable && sub !in ObjectPrototypeKeys
    ensures PostProcessorArgs(sub) == Some(PostProcessorTable["m4a"])
    ensures YtDlpAudioMime(sub) == "audio/mp4"
    ensures FfmpegAudioTarget(sub) == FfmpegDefault
  {
    assert sub !in MimeTable;
  }

  // ----- file names -----

  /** `fileNameFromTitle`: the sanitized title (or `download`), a dot and the
      extension. `sanitize` is the sanitize-filename package, uninterpreted. */
  function FileName(sanitize: string -> string, title: string, ext: string): (r: string)
    ensures |r| >= |ext| + 1
    ensures r[|r| - |ext| - 1..] == "." + ext
    ensures r[..|r| - |ext| - 1] == sanitize(if title != "" then title else "download")
  {
    sanitize(if title != "" then title else "download") + "." + ext
  }

  /** Names of downloads of different titles collide only when sanitize maps
      the titles to the same text; the extension is always recoverable. */
  lemma FileNameParts(sanitize: string -> string, t1: string, t2: string, ext: string)
    requires FileName(sanitize, t1, ext) == FileName(sanitize, t2, ext)
    ensures sanitize(if t1 != "" then t1 else "download") == sanitize(if t2 != "" then t2 else "download")
  {
  }

  /** `${Date.now()}-${base}`: the millisecond clock is a parameter. */
  function TempFileName(now: nat, base: string): (r: string)
    ensures IndexOf(r, '-') == Some(|NatToString(now)|)
    ensures AllDigits(r[..|NatToString(now)|])
    ensures r[|NatToString(now)| + 1..] == base
  {
    var stamp := NatToString(now);
    var r := stamp + ("-" + base);
    NoDashInDigits(stamp);
    assert r[..|stamp|] == stamp;
    IndexOfAfterPrefix(stamp, '-', "-" + base);
    r
  }

  /** No digit string contains `-`. */
  lemma NoDashInDigits(s: string)
    requires AllDigits(s)
    ensures '-' !in s
  {
  }

  /** `indexOf` skips a prefix free of the character. */
  lemma {:induction false} IndexOfAfterPrefix(p: string, c: char, rest: string)
    requires c !in p && rest != [] && rest[0] == c
    ensures IndexOf(p + rest, c) == Some(|p|)
    decreases |p|
  {
    if p == [] {
      assert p + rest == rest;
    } else {
      assert (p + rest)[1..] == p[1..] + rest;
      IndexOfAfterPrefix(p[1..], c, rest);
    }
  }

  /** Two temporary files get the same name only for the same clock reading
      and the same download name. */
  lemma TempFileNameInjective(n1: nat, b1: string, n2: nat, b2: string)
    requires TempFileName(n1, b1) == TempFileName(n2, b2)
    ensures n1 == n2 && b1 == b2
  {
    var r := TempFileName(n1, b1);
    assert |NatToString(n1)| == |NatToString(n2)|;
    assert NatToString(n1) == r[..|NatToString(n1)|];
    assert NatToString(n2) == r[..|NatToString(n2)|];
    NatToStringInjective(n1, n2);
  }

  // ----- upstream request headers -----

  const UserAgent := "Mozilla/5.0 (Windows NT 10.0; Win64; x64) AppleWebKit/537.36 (KHTML, like Gecko) Chrome/124 Safari/537.36"

  /** `searchParams.get("cookie") || req.headers.get("x-youtube-cookie")`. */
  function CookieOf(param: string, header: string): (cookie: string)
    ensures cookie == "" <==> param == "" && header == ""
    ensures param != "" ==> cookie == param
    ensures param == "" ==> cookie == header
  {
    if param != "" then param else header
  }

  /** The headers sent with every upstream fetch: a browser user agent, any
      accept, and the cookie and range when the request carried them. */
  function RequestHeaders(cookie: string, range: string): (h: map<string, string>)
    ensures "User-Agent" in h && h["User-Agent"] == UserAgent
    ensures "Accept" in h && h["Accept"] == "*/*"
    ensures "Cookie" in h <==> cookie != ""
    ensures "Cookie" in h ==> h["Cookie"] == cookie
    ensures "Range" in h <==> range != ""
    ensures "Range" in h ==> h["Range"] == range
    ensures h.Keys <= {"User-Agent", "Accept", "Cookie", "Range"}
  {
    var base := map["User-Agent" := UserAgent, "Accept" := "*/*"];
    var withCookie := if cookie != "" then base["Cookie" := cookie] else base;
    if range != "" then withCookie["Range" := range] else withCookie
  }

  // ----- yt-dlp command lines -----

  /** `value` directly follows `flag` somewhere in `argv`. */
  predicate Passes(argv: seq<string>, flag: string, value: string)
  {
    exists i :: 0 <= i < |argv| - 1 && argv[i] == flag && argv[i + 1] == value
  }

  /** `addHeaders`: the user agent, then the cookie when there is one. */
  function AddHeaders(cookie: string): (r: seq<string>)
    ensures |r| == if cookie == "" then 2 else 4
    ensures r[..2] == ["--add-header", "User-Agent: " + UserAgent]
    ensures cookie != "" ==> r[2..] == ["--add-header", "Cookie: " + cookie]
  {
    ["--add-header", "User-Agent: " + UserAgent] +
    (if cookie != "" then ["--add-header", "Cookie: " + cookie] else [])
  }

  /** The argument list of the yt-dlp audio extraction. */
  function AudioCommand(cookie: string, pp: seq<string>, ffmpegPath: string, tmpFile: string, url: string): (argv: seq<string>)
    ensures |argv| > 0 && argv[|argv| - 1] == url
    ensures Passes(argv, "-f", "bestaudio") && Passes(argv, "-o", tmpFile)
    ensures Passes(argv, "--ffmpeg-location", ffmpegPath)
    ensures cookie != "" ==> Passes(argv, "--add-header", "Cookie: " + cookie)
    ensures |argv| == |AddHeaders(cookie)| + |pp| + 8
    ensures argv[|AddHeaders(cookie)|..|AddHeaders(cookie)| + 3] == ["--no-playlist", "-f", "bestaudio"]
    ensures argv[..|AddHeaders(cookie)|] == AddHeaders(cookie)
    ensures argv[|AddHeaders(cookie)| + 3..|AddHeaders(cookie)| + 3 + |pp|] == pp
  {
    var h := AddHeaders(cookie);
    var argv := h + ["--no-playlist", "-f", "bestaudio"] + pp + ["--ffmpeg-location", ffmpegPath, "-o", tmpFile, url];
    var k := |h| + 3 + |pp|;
    assert argv[|h| + 1] == "-f" && argv[|h| + 2] == "bestaudio";
    assert argv[k] == "--ffmpeg-location" && argv[k + 1] == ffmpegPath;
    assert argv[k + 2] == "-o" && argv[k + 3] == tmpFile;
    assert cookie != "" ==> argv[2] == "--add-header" && argv[3] == "Cookie: " + cookie;
    assert argv[..|h|] == h;
    assert argv[|h| + 3..k] == pp;
    assert argv[|h|..|h| + 3] == ["--no-playlist", "-f", "bestaudio"];
    argv
  }

  /** The argument list of the yt-dlp merge download. */
  function MergeCommand(cookie: string, query: string, ffmpegPath: string, tmpFile: string, url: string): (argv: seq<string>)
    ensures |argv| > 0 && argv[|argv| - 1] == url
    ensures Passes(argv, "-f", query) && Passes(argv, "-o", tmpFile)
    ensures Passes(argv, "--merge-output-format", "mkv")
    ensures Passes(argv, "--ffmpeg-location", ffmpegPath)
    ensures cookie != "" ==> Passes(argv, "--add-header", "Cookie: " + cookie)
    ensures |argv| == |AddHeaders(cookie)| + 10
    ensures argv[..|AddHeaders(cookie)|] == AddHeaders(cookie)
    ensures argv[|AddHeaders(cookie)|] == "--no-playlist"
  {
    var h := AddHeaders(cookie);
    var argv := h + ["--no-playlist", "-f", query, "--merge-output-format", "mkv",
                     "--ffmpeg-location", ffmpegPath, "-o", tmpFile] + [url];
    var k := |h|;
    assert argv[k + 1] == "-f" && argv[k + 2] == query;
    assert argv[k + 3] == "--merge-output-format" && argv[k + 4] == "mkv";
    assert argv[k + 5] == "--ffmpeg-location" && argv[k + 6] == ffmpegPath;
    assert argv[k + 7] == "-o" && argv[k + 8] == tmpFile;
    assert argv[..k] == h && argv[k] == "--no-playlist";
    assert cookie != "" ==> argv[2] == "--add-header" && argv[3] == "Cookie: " + cookie;
    argv
  }
}
