/** The `HEAD` and `GET` handlers of the download route, as decisions over
    the request, the configuration and what the collaborators do. Each
    strategy tier is a function returning `None` where the source throws into
    the next `catch`, and each chain is the ordered first-success fold. */
module Handlers {
  import opened Wrappers
  import opened Text
  import opened Formats
  import opened Selection
  import opened Outputs
  import Seqs
  import Metadata
  import UrlNormalizer

  /** What `fetch(url, { headers })` resolved to. */
  datatype Upstream = Upstream(ok: bool, hasBody: bool, status: nat, contentType: string, contentLength: string)

  /** The collaborators of one request:
      - `parse`: the WHATWG `URL` constructor (`None` when it throws);
      - `providers`: ytdl-core, `ensureYtDlp` and `yt-dlp -J`;
      - `fetch`: the upstream GET (`None` when it throws);
      - `headLength`: `content-length` of an upstream `HEAD`, `""` when the
        request throws, is not ok or has no such header;
      - `audioTranscodeStarts`, `mergeStarts`: the ytdl-core streams and the
        ffmpeg command are set up without throwing;
      - `ytDlpRun`: `execPromise(argv)` followed by `statSync` of the output
        file, giving its size (`None` when either throws);
      - `sanitize`, `join`: sanitize-filename and `path.join`;
      - `now`: `Date.now()`. */
  datatype World = World(
    parse: string -> Option<UrlNormalizer.ParsedUrl>,
    providers: Metadata.Providers,
    fetch: (string, map<string, string>) -> Option<Upstream>,
    headLength: (string, map<string, string>) -> string,
    audioTranscodeStarts: bool,
    mergeStarts: bool,
    ytDlpRun: seq<string> -> Option<nat>,
    sanitize: string -> string,
    join: (string, string) -> string,
    now: nat)

  /** `FAST_REDIRECT === "1"`, `FAST_MODE === "1"`, `DISABLE_YTDLP !== "1"`,
      the ffmpeg binary path and `os.tmpdir()`. */
  datatype Config = Config(fastRedirect: bool, fastMode: bool, ytDlpEnabled: bool, ffmpegPath: string, tmpRoot: string)

  /** The query parameters `url`, `mode`, `format`, `cookie` and the request
      headers `x-youtube-cookie` and `range` (`""` when absent). */
  datatype Request = Request(url: string, mode: string, format: string, cookieParam: string, cookieHeader: string, range: string)

  /** What the handler answers. `fileName` is the name that goes,
      URI-encoded, into `Content-Disposition`; `contentLength` is `""` when the
      header is not sent. */
  datatype Response =
    | JsonError(status: nat, error: string)
    | ModeReply(xMode: string)
    | Redirect(location: string, fileName: string)
    | Stream(status: nat, contentType: string, contentLength: string, fileName: string)
    | InfoJson(reply: Metadata.InfoReply)

  /** `info.videoDetails.title || default`. */
  function Title(info: Info, default: string): (title: string)
    ensures info.title != "" ==> title == info.title
    ensures info.title == "" ==> title == default
  {
    if info.title != "" then info.title else default
  }

  /** The title info of the later tiers: a fresh `getInfoWithFallback`. */
  function Resolved(w: World, cfg: Config, url: string): (info: Info)
    ensures var p := w.providers;
            p.getInfo(url).Some? ==> info == p.getInfo(url).value
    ensures var p := w.providers;
            p.getInfo(url).None? && p.getBasicInfo(url).Some? ==> info == p.getBasicInfo(url).value
    ensures var p := w.providers;
            p.getInfo(url).None? && p.getBasicInfo(url).None? ==>
              info == if cfg.ytDlpEnabled && p.ytDlpReady && p.dump(url).Some? then AdaptDump(p.dump(url).value) else EmptyInfo
  {
    Metadata.Resolve(w.providers, cfg.ytDlpEnabled, url).info
  }

  // ----- HEAD -----

  /** `HEAD`: 400 without a URL, otherwise the mode the GET path would use,
      or 422. */
  function Head(w: World, cfg: Config, rawUrl: string, formatParam: string): (r: Response)
    ensures rawUrl == "" ==> r == JsonError(400, "Missing url")
    ensures rawUrl != "" ==> r.ModeReply? || r == JsonError(422, "Format unavailable")
    ensures rawUrl != "" && IsAudioToken(TokenOf(formatParam)) ==> r == ModeReply("audio")
    ensures rawUrl != "" && TokenOf(formatParam) == "best" ==> r.ModeReply?
    ensures r.ModeReply? ==> r.xMode in {"audio", "muxed", "merge"}
    ensures rawUrl != "" ==>
              var m := HeadMode(TokenOf(formatParam), Resolved(w, cfg, UrlNormalizer.NormalizeUrl(rawUrl, w.parse).value).formats);
              (r == ModeReply("muxed") <==> m == MuxedMode) && (r == ModeReply("merge") <==> m == MergeMode) &&
              (r == JsonError(422, "Format unavailable") <==> m == Unavailable)
  {
    match UrlNormalizer.NormalizeUrl(rawUrl, w.parse)
    case None => JsonError(400, "Missing url")
    case Some(url) =>
      match HeadMode(TokenOf(formatParam), Resolved(w, cfg, url).formats)
      case AudioMode => ModeReply("audio")
      case MuxedMode => ModeReply("muxed")
      case MergeMode => ModeReply("merge")
      case Unavailable => JsonError(422, "Format unavailable")
  }

  // ----- GET, audio -----

  /** The proxy `fetch` resolved, is ok and has a body (otherwise the route
      throws `Upstream failed`). */
  predicate Serves(up: Option<Upstream>)
  {
    up.Some? && up.value.ok && up.value.hasBody
  }

  /** Line 280 as written: the fallback Content-Type tests the raw
      subformat, which is `undefined` for the bare token `audio` and `""` for
      `audio:`. */
  function FastPathTypeAsWritten(fmt: Option<string>): (mime: string)
    ensures mime == "audio/mp4" <==> fmt == Some("m4a")
  {
    if fmt == Some("m4a") then "audio/mp4" else "audio/ogg"
  }

  /** The fallback Content-Type as intended: decided on the subformat after
      the `m4a` default, like everything else on this path. */
  function FastPathType(sub: string): (mime: string)
    ensures mime == "audio/mp4" <==> sub == "m4a"
  {
    if sub == "m4a" then "audio/mp4" else "audio/ogg"
  }

  /** As written, the default token `audio` streams an m4a target (the file
      is even named `.m4a`) but labels it `audio/ogg` when the upstream sends
      no Content-Type. */
  lemma FastPathTypeAsWrittenMislabels(t: string)
    requires ':' !in t
    ensures SubFormat(t) == "m4a"
    ensures FastPathTypeAsWritten(RawSubFormat(t)) == "audio/ogg"
    ensures FastPathTypeAsWritten(RawSubFormat(t)) != FfmpegAudioTarget(SubFormat(t)).mime
  {
    SubFormatDefault(t);
  }

  /** The corrected fallback agrees with both transcoding tiers for every
      subformat the fast path serves. */
  lemma FastPathTypeAgreesWithTranscoders(sub: string)
    requires sub == "m4a" || sub == "opus"
    ensures FastPathType(sub) == FfmpegAudioTarget(sub).mime == YtDlpAudioMime(sub)
  {
  }

  /** Tier 1 of the audio path: redirect to, or proxy, an audio-only upstream
      stream of the requested subformat. `fallbackType` is the Content-Type
      sent when the upstream gives none; the route computes it as line 280
      does, `FastPathTypeAsWritten(RawSubFormat(t))`. */
  function AudioFastTier(w: World, cfg: Config, url: string, t: Token, headers: map<string, string>,
                         fallbackType: string): (r: Option<Response>)
    ensures var pick := AudioFastPick(t, Resolved(w, cfg, url).formats);
            r.Some? <==> pick.Some? && (cfg.fastRedirect || Serves(w.fetch(pick.value.url, headers)))
    ensures r.Some? ==> (r.value.Redirect? <==> cfg.fastRedirect)
    ensures r.Some? ==> r.value.Redirect? || r.value.Stream?
    ensures r.Some? ==> AudioFastPick(t, Resolved(w, cfg, url).formats).Some?
    ensures r.Some? && r.value.Redirect? ==>
              cfg.fastRedirect && r.value.location == AudioFastPick(t, Resolved(w, cfg, url).formats).value.url
    ensures r.Some? && r.value.Stream? ==>
              !cfg.fastRedirect &&
              var up := w.fetch(AudioFastPick(t, Resolved(w, cfg, url).formats).value.url, headers);
              up.Some? && up.value.ok && up.value.hasBody &&
              r.value.status == up.value.status && r.value.contentLength == up.value.contentLength &&
              r.value.contentType == if up.value.contentType != "" then up.value.contentType else fallbackType
    ensures r.Some? ==> r.value.fileName == FileName(w.sanitize, Title(Resolved(w, cfg, url), "audio"), SubFormat(t))
  {
    var info := Resolved(w, cfg, url);
    var sub := SubFormat(t);
    match AudioFastPick(t, info.formats)
    case None => None
    case Some(target) =>
      var name := FileName(w.sanitize, Title(info, "audio"), sub);
      if cfg.fastRedirect then Some(Redirect(target.url, name))
      else match w.fetch(target.url, headers)
        case None => None
        case Some(up) =>
          if !up.ok || !up.hasBody then None
          else Some(Stream(up.status, if up.contentType != "" then up.contentType else fallbackType,
                           up.contentLength, name))
  }

  /** The fast tier with the fallback of line 280 as written: an untyped
      upstream is labelled `audio/mp4` only when the raw subformat is `m4a`. */
  function AudioFastTierAsWritten(w: World, cfg: Config, url: string, t: Token, headers: map<string, string>): (r: Option<Response>)
    ensures r == AudioFastTier(w, cfg, url, t, headers, FastPathTypeAsWritten(RawSubFormat(t)))
    ensures r.Some? && r.value.Stream? ==> r.value.contentType != ""
    ensures UntypedM4aProxy(w, cfg, url, t, headers) ==>
              r.Some? && r.value.Stream? && (r.value.contentType == "audio/mp4" <==> RawSubFormat(t) == Some("m4a"))
  {
    var fallback := FastPathTypeAsWritten(RawSubFormat(t));
    if UntypedM4aProxy(w, cfg, url, t, headers) then
      UntypedProxyFallsBack(w, cfg, url, t, headers, fallback);
      AudioFastTier(w, cfg, url, t, headers, fallback)
    else AudioFastTier(w, cfg, url, t, headers, fallback)
  }

  /** The fast tier with the corrected fallback: an untyped upstream is
      labelled `audio/mp4` exactly when the defaulted subformat is `m4a`. */
  function AudioFastTierCorrected(w: World, cfg: Config, url: string, t: Token, headers: map<string, string>): (r: Option<Response>)
    ensures r == AudioFastTier(w, cfg, url, t, headers, FastPathType(SubFormat(t)))
    ensures r.Some? && r.value.Stream? ==> r.value.contentType != ""
    ensures UntypedM4aProxy(w, cfg, url, t, headers) ==>
              r.Some? && r.value.Stream? && (r.value.contentType == "audio/mp4" <==> SubFormat(t) == "m4a")
  {
    var fallback := FastPathType(SubFormat(t));
    if UntypedM4aProxy(w, cfg, url, t, headers) then
      UntypedProxyFallsBack(w, cfg, url, t, headers, fallback);
      AudioFastTier(w, cfg, url, t, headers, fallback)
    else AudioFastTier(w, cfg, url, t, headers, fallback)
  }

  /** The correction only matters for a token without a (non-empty) second
      piece: with an explicit subformat the two fast tiers are the same, and
      in every case they differ at most in the fallback Content-Type. */
  lemma CorrectionOnlyChangesFallbackType(w: World, cfg: Config, url: string, t: Token, headers: map<string, string>)
    ensures RawSubFormat(t).Some? && RawSubFormat(t).value != "" ==>
              AudioFastTierAsWritten(w, cfg, url, t, headers) == AudioFastTierCorrected(w, cfg, url, t, headers)
    ensures var a, b := AudioFastTierAsWritten(w, cfg, url, t, headers), AudioFastTierCorrected(w, cfg, url, t, headers);
            (a.None? <==> b.None?) && (a.Some? && a.value.Redirect? ==> a == b)
    ensures var a, b := AudioFastTierAsWritten(w, cfg, url, t, headers), AudioFastTierCorrected(w, cfg, url, t, headers);
            a.Some? && a.value.Stream? ==>
              b.Some? && b.value.Stream? && a.value.status == b.value.status &&
              a.value.contentLength == b.value.contentLength && a.value.fileName == b.value.fileName
  {
  }

  /** The input of the line-280 discrepancy: a proxied m4a fast-path target
      whose upstream answers without a Content-Type. */
  predicate UntypedM4aProxy(w: World, cfg: Config, url: string, t: Token, headers: map<string, string>)
  {
    !cfg.fastRedirect &&
    var pick := AudioFastPick(t, Resolved(w, cfg, url).formats);
    pick.Some? &&
    var up := w.fetch(pick.value.url, headers);
    up.Some? && up.value.ok && up.value.hasBody && up.value.contentType == ""
  }

  /** As written, the bare token `audio` (or `audio:`) proxies an m4a stream
      and names it `.m4a`, yet the download answers `audio/ogg` when the
      upstream sends no Content-Type. */
  lemma AudioGetMislabelsBareAudio(w: World, cfg: Config, url: string, t: Token, cookie: string, headers: map<string, string>)
    requires RawSubFormat(t).None? || RawSubFormat(t) == Some("")
    requires UntypedM4aProxy(w, cfg, url, t, headers)
    ensures SubFormat(t) == "m4a"
    ensures AudioGet(w, cfg, url, t, cookie, headers).Stream?
    ensures AudioGet(w, cfg, url, t, cookie, headers).fileName == FileName(w.sanitize, Title(Resolved(w, cfg, url), "audio"), "m4a")
    ensures AudioGet(w, cfg, url, t, cookie, headers).contentType == "audio/ogg"
    ensures AudioGet(w, cfg, url, t, cookie, headers).contentType != FfmpegAudioTarget("m4a").mime
  {
    var fallback := FastPathTypeAsWritten(RawSubFormat(t));
    assert fallback == "audio/ogg";
    UntypedProxyFallsBack(w, cfg, url, t, headers, fallback);
  }

  /** A proxied target whose upstream sends no Content-Type is answered with
      the fallback type. */
  lemma UntypedProxyFallsBack(w: World, cfg: Config, url: string, t: Token, headers: map<string, string>, fallback: string)
    requires UntypedM4aProxy(w, cfg, url, t, headers)
    ensures AudioFastTier(w, cfg, url, t, headers, fallback).Some?
    ensures AudioFastTier(w, cfg, url, t, headers, fallback).value.Stream?
    ensures AudioFastTier(w, cfg, url, t, headers, fallback).value.contentType == fallback
  {
  }

  /** Corrected, the same request is labelled like the transcoders label it:
      whenever the fast tier falls back, it falls back to the MIME type of the
      file it names. */
  lemma CorrectedFastTierLabelsLikeTranscoders(w: World, cfg: Config, url: string, t: Token, headers: map<string, string>)
    requires UntypedM4aProxy(w, cfg, url, t, headers)
    ensures AudioFastTierCorrected(w, cfg, url, t, headers).Some?
    ensures AudioFastTierCorrected(w, cfg, url, t, headers).value.contentType ==
              FfmpegAudioTarget(SubFormat(t)).mime == YtDlpAudioMime(SubFormat(t))
  {
    UntypedProxyFallsBack(w, cfg, url, t, headers, FastPathType(SubFormat(t)));
    FastPathTypeAgreesWithTranscoders(SubFormat(t));
  }

  /** Tier 2: transcode the best audio-only stream with ffmpeg. */
  function AudioTranscodeTier(w: World, cfg: Config, url: string, t: Token): (r: Option<Response>)
    ensures r.Some? <==> w.audioTranscodeStarts
    ensures r.Some? ==> r.value.Stream? && r.value.status == 200 && r.value.contentLength == ""
    ensures r.Some? ==> r.value.contentType == FfmpegAudioTarget(SubFormat(t)).mime
    ensures r.Some? ==>
              r.value.fileName == FileName(w.sanitize, Title(Resolved(w, cfg, url), "audio"), FfmpegAudioTarget(SubFormat(t)).ext)
  {
    if !w.audioTranscodeStarts then None
    else
      var target := FfmpegAudioTarget(SubFormat(t));
      Some(Stream(200, target.mime, "", FileName(w.sanitize, Title(Resolved(w, cfg, url), "audio"), target.ext)))
  }

  /** The temporary file of a yt-dlp tier. */
  function TempFile(w: World, cfg: Config, dir: string, name: string): string
  {
    w.join(w.join(cfg.tmpRoot, dir), TempFileName(w.now, name))
  }

  /** When `path.join` keeps file names apart inside the tier's directory,
      two yt-dlp downloads share a temporary file only when they start at the
      same millisecond for the same download name. */
  lemma TempFileSeparatesDownloads(w: World, cfg: Config, dir: string, a: string, later: World, b: string)
    requires later.join == w.join
    requires forall x, y :: w.join(w.join(cfg.tmpRoot, dir), x) == w.join(w.join(cfg.tmpRoot, dir), y) ==> x == y
    requires TempFile(w, cfg, dir, a) == TempFile(later, cfg, dir, b)
    ensures w.now == later.now && a == b
  {
    TempFileNameInjective(w.now, a, later.now, b);
  }

  /** Tier 3: extract the audio with yt-dlp into a temporary file. */
  function AudioYtDlpTier(w: World, cfg: Config, url: string, t: Token, cookie: string): (r: Option<Response>)
    ensures r.Some? ==> cfg.ytDlpEnabled && w.providers.ytDlpReady && PostProcessorArgs(SubFormat(t)).Some?
    ensures var name := FileName(w.sanitize, Title(Resolved(w, cfg, url), "audio"), SubFormat(t));
            var pp := PostProcessorArgs(SubFormat(t));
            var run := if pp.Some? then w.ytDlpRun(AudioCommand(cookie, pp.value, cfg.ffmpegPath, TempFile(w, cfg, "yt-dlp-audio", name), url)) else None;
            (r.Some? <==> cfg.ytDlpEnabled && w.providers.ytDlpReady && run.Some?) &&
            (r.Some? ==> run.Some? && r.value.Stream? && r.value.contentLength == NatToString(run.value))
    ensures r.Some? ==> r.value.Stream? && r.value.status == 200
    ensures r.Some? ==> r.value.contentType == YtDlpAudioMime(SubFormat(t))
    ensures r.Some? ==> r.value.fileName == FileName(w.sanitize, Title(Resolved(w, cfg, url), "audio"), SubFormat(t))
  {
    if !cfg.ytDlpEnabled || !w.providers.ytDlpReady then None
    else
      var sub := SubFormat(t);
      var name := FileName(w.sanitize, Title(Resolved(w, cfg, url), "audio"), sub);
      match PostProcessorArgs(sub)
      case None => None
      case Some(pp) =>
        var run := w.ytDlpRun(AudioCommand(cookie, pp, cfg.ffmpegPath, TempFile(w, cfg, "yt-dlp-audio", name), url));
        if run.None? then None
        else Some(Stream(200, YtDlpAudioMime(sub), NatToString(run.value), name))
  }

  /** Lines 250-391: the audio tiers in order, then 500; the fast tier falls
      back to the Content-Type of line 280 as written. */
  function AudioGet(w: World, cfg: Config, url: string, t: Token, cookie: string, headers: map<string, string>): (r: Response)
    ensures r.Redirect? || r.Stream? || r == JsonError(500, "Audio conversion failed")
    ensures r.Redirect? ==>
              cfg.fastRedirect && exists f :: f in Resolved(w, cfg, url).formats && AudioOnly(f) && f.url == r.location
    ensures r.JsonError? ==> !w.audioTranscodeStarts
    ensures AudioFastTierAsWritten(w, cfg, url, t, headers).Some? ==> r == AudioFastTierAsWritten(w, cfg, url, t, headers).value
    ensures w.audioTranscodeStarts && AudioFastTierAsWritten(w, cfg, url, t, headers).None? ==>
              r == AudioTranscodeTier(w, cfg, url, t).value
    ensures !w.audioTranscodeStarts && AudioFastTierAsWritten(w, cfg, url, t, headers).None? ==>
              r == AudioYtDlpTier(w, cfg, url, t, cookie).GetOr(JsonError(500, "Audio conversion failed"))
  {
    var fast, transcode, ytDlp :=
      AudioFastTierAsWritten(w, cfg, url, t, headers), AudioTranscodeTier(w, cfg, url, t), AudioYtDlpTier(w, cfg, url, t, cookie);
    var failed := JsonError(500, "Audio conversion failed");
    Seqs.ThreeTiers(fast, transcode, ytDlp, failed);
    assert fast.Some? && fast.value.Redirect? ==>
             AudioFastPick(t, Resolved(w, cfg, url).formats).value.url == fast.value.location;
    Seqs.FirstSuccess([fast, transcode, ytDlp], failed)
  }

  /** In fast-redirect mode an audio request with a fast-path target is
      answered by a redirect to the first qualifying audio-only format. */
  lemma AudioGetFastRedirect(w: World, cfg: Config, url: string, t: Token, cookie: string, headers: map<string, string>)
    requires cfg.fastRedirect && AudioFastPick(t, Resolved(w, cfg, url).formats).Some?
    ensures AudioGet(w, cfg, url, t, cookie, headers).Redirect?
    ensures AudioGet(w, cfg, url, t, cookie, headers).location == AudioFastPick(t, Resolved(w, cfg, url).formats).value.url
  {
  }

  // ----- GET, video -----

  /** Tier 1 of the video path: a muxed format from `ytdl.getInfo` itself
      (not the fallback chain), redirected to or proxied as a binary blob. */
  function MuxedTier(w: World, cfg: Config, url: string, t: Token, headers: map<string, string>): (r: Option<Response>)
    ensures r.Some? ==> w.providers.getInfo(url).Some? && MuxedPick(t, w.providers.getInfo(url).value.formats).Some?
    ensures var info := w.providers.getInfo(url);
            var pick := if info.Some? then MuxedPick(t, info.value.formats) else None;
            r.Some? <==> pick.Some? && pick.value.url != "" && (cfg.fastRedirect || Serves(w.fetch(pick.value.url, headers)))
    ensures r.Some? ==> (r.value.Redirect? <==> cfg.fastRedirect)
    ensures r.Some? && r.value.Stream? ==>
              var target := MuxedPick(t, w.providers.getInfo(url).value.formats).value;
              var up, head := w.fetch(target.url, headers).value, ProbedLength(w, cfg, target.url, headers);
              r.value.status == up.status && r.value.contentLength == (if head != "" then head else up.contentLength)
    ensures r.Some? ==> r.value.Redirect? || r.value.Stream?
    ensures r.Some? && r.value.Redirect? ==>
              cfg.fastRedirect && r.value.location == MuxedPick(t, w.providers.getInfo(url).value.formats).value.url
    ensures r.Some? && r.value.Stream? ==> !cfg.fastRedirect && r.value.contentType == "application/octet-stream"
    ensures r.Some? ==> r.value.fileName == FileName(w.sanitize, Title(w.providers.getInfo(url).value, "video"), "mp4")
  {
    match w.providers.getInfo(url)
    case None => None
    case Some(info) =>
      match MuxedPick(t, info.formats)
      case None => None
      case Some(target) =>
        if target.url == "" then None
        else
          var name := FileName(w.sanitize, Title(info, "video"), "mp4");
          if cfg.fastRedirect then Some(Redirect(target.url, name))
          else
            var headLength := ProbedLength(w, cfg, target.url, headers);
            match w.fetch(target.url, headers)
            case None => None
            case Some(up) =>
              if !up.ok || !up.hasBody then None
              else Some(Stream(up.status, "application/octet-stream",
                               if headLength != "" then headLength else up.contentLength, name))
  }

  /** `upstreamLen`: the length an upstream `HEAD` reports, skipped in fast
      mode. */
  function ProbedLength(w: World, cfg: Config, target: string, headers: map<string, string>): (len: string)
    ensures cfg.fastMode ==> len == ""
    ensures !cfg.fastMode ==> len == w.headLength(target, headers)
  {
    if cfg.fastMode then "" else w.headLength(target, headers)
  }

  /** Tier 2: ytdl-core video-only and audio-only streams merged by ffmpeg
      into matroska. */
  function MergeTier(w: World, cfg: Config, url: string): (r: Option<Response>)
    ensures r.Some? <==> w.mergeStarts
    ensures r.Some? ==> r.value == Stream(200, "video/x-matroska", "", FileName(w.sanitize, Title(Resolved(w, cfg, url), "video"), "mkv"))
  {
    if !w.mergeStarts then None
    else Some(Stream(200, "video/x-matroska", "", FileName(w.sanitize, Title(Resolved(w, cfg, url), "video"), "mkv")))
  }

  /** Tier 3: yt-dlp downloads and merges within the requested height. */
  function MergeYtDlpTier(w: World, cfg: Config, url: string, t: Token, cookie: string): (r: Option<Response>)
    ensures r.Some? ==> cfg.ytDlpEnabled && w.providers.ytDlpReady
    ensures var name := FileName(w.sanitize, Title(Resolved(w, cfg, url), "video"), "mkv");
            var run := w.ytDlpRun(MergeCommand(cookie, YtDlpQuery(RequestedHeight(t)), cfg.ffmpegPath, TempFile(w, cfg, "yt-dlp-tmp", name), url));
            (r.Some? <==> cfg.ytDlpEnabled && w.providers.ytDlpReady && run.Some?) &&
            (r.Some? ==> run.Some? && r.value.Stream? && r.value.contentLength == NatToString(run.value))
    ensures r.Some? ==> r.value.Stream? && r.value.status == 200 && r.value.contentType == "video/x-matroska"
    ensures r.Some? ==> r.value.fileName == FileName(w.sanitize, Title(Resolved(w, cfg, url), "video"), "mkv")
  {
    if !cfg.ytDlpEnabled || !w.providers.ytDlpReady then None
    else
      var name := FileName(w.sanitize, Title(Resolved(w, cfg, url), "video"), "mkv");
      var run := w.ytDlpRun(MergeCommand(cookie, YtDlpQuery(RequestedHeight(t)), cfg.ffmpegPath, TempFile(w, cfg, "yt-dlp-tmp", name), url));
      if run.None? then None
      else Some(Stream(200, "video/x-matroska", NatToString(run.value), name))
  }

  /** Lines 395-524: the video tiers in order, then 500. */
  function VideoGet(w: World, cfg: Config, url: string, t: Token, cookie: string, headers: map<string, string>): (r: Response)
    ensures r.Redirect? || r.Stream? || r == JsonError(500, "Video download failed")
    ensures r.Redirect? ==>
              cfg.fastRedirect && w.providers.getInfo(url).Some? &&
              exists f :: f in w.providers.getInfo(url).value.formats && IsMuxed(f) && f.url == r.location
    ensures r.Stream? ==> r.contentType in {"application/octet-stream", "video/x-matroska"}
    ensures r.Stream? && r.contentType == "application/octet-stream" ==>
              w.providers.getInfo(url).Some? && MuxedPick(t, w.providers.getInfo(url).value.formats).Some?
    ensures r.JsonError? ==> !w.mergeStarts
    ensures MuxedTier(w, cfg, url, t, headers).Some? ==> r == MuxedTier(w, cfg, url, t, headers).value
    ensures MuxedTier(w, cfg, url, t, headers).None? && w.mergeStarts ==> r == MergeTier(w, cfg, url).value
    ensures MuxedTier(w, cfg, url, t, headers).None? && !w.mergeStarts ==>
              r == MergeYtDlpTier(w, cfg, url, t, cookie).GetOr(JsonError(500, "Video download failed"))
  {
    var muxed, merge, ytDlp := MuxedTier(w, cfg, url, t, headers), MergeTier(w, cfg, url), MergeYtDlpTier(w, cfg, url, t, cookie);
    var failed := JsonError(500, "Video download failed");
    Seqs.ThreeTiers(muxed, merge, ytDlp, failed);
    Seqs.FirstSuccess([muxed, merge, ytDlp], failed)
  }

  /** The download part of `GET` (lines 239-524): the upstream headers, then
      the audio chain for `audio…` tokens and the video chain otherwise. */
  function Download(w: World, cfg: Config, url: string, t: Token, cookie: string, range: string): (r: Response)
    ensures IsAudioToken(t) ==> r == AudioGet(w, cfg, url, t, cookie, RequestHeaders(cookie, range))
    ensures !IsAudioToken(t) ==> r == VideoGet(w, cfg, url, t, cookie, RequestHeaders(cookie, range))
    ensures r.Redirect? || r.Stream? || (r.JsonError? && r.status == 500)
  {
    var headers := RequestHeaders(cookie, range);
    if IsAudioToken(t) then AudioGet(w, cfg, url, t, cookie, headers)
    else VideoGet(w, cfg, url, t, cookie, headers)
  }

  /** `GET`: 400 without a URL, the info reply for `mode=info`, otherwise the
      download of the normalised URL. */
  function Get(w: World, cfg: Config, req: Request): (r: Response)
    ensures req.url == "" ==> r == JsonError(400, "Missing url")
    ensures req.url != "" && req.mode == "info" ==>
              r == InfoJson(Metadata.Info(w.providers, cfg.ytDlpEnabled, UrlNormalizer.NormalizeUrl(req.url, w.parse).value))
    ensures req.url != "" && req.mode != "info" ==>
              r == Download(w, cfg, UrlNormalizer.NormalizeUrl(req.url, w.parse).value, TokenOf(req.format),
                            CookieOf(req.cookieParam, req.cookieHeader), req.range)
    ensures req.url != "" && req.mode != "info" ==> !r.InfoJson? && !r.ModeReply? && (r.JsonError? ==> r.status == 500)
  {
    match UrlNormalizer.NormalizeUrl(req.url, w.parse)
    case None => JsonError(400, "Missing url")
    case Some(url) =>
      if req.mode == "info" then InfoJson(Metadata.Info(w.providers, cfg.ytDlpEnabled, url))
      else Download(w, cfg, url, TokenOf(req.format), CookieOf(req.cookieParam, req.cookieHeader), req.range)
  }

  // ----- properties across tiers -----

  /** An `audio:mp3` style request never takes the fast path: when ffmpeg
      starts it is transcoded to MPEG audio whatever the formats are. */
  lemma Mp3IsTranscoded(w: World, cfg: Config, url: string, t: Token, cookie: string, headers: map<string, string>)
    requires SubFormat(t) == "mp3" && w.audioTranscodeStarts
    ensures AudioGet(w, cfg, url, t, cookie, headers).Stream?
    ensures AudioGet(w, cfg, url, t, cookie, headers).contentType == "audio/mpeg"
    ensures AudioGet(w, cfg, url, t, cookie, headers).fileName ==
              FileName(w.sanitize, Title(Resolved(w, cfg, url), "audio"), "mp3")
  {
    assert AudioFastPick(t, Resolved(w, cfg, url).formats).None?;
  }

  /** With no muxed format at all, a video request ends in a matroska
      stream whenever one of the merge tiers works. */
  lemma NoMuxedMeansMatroska(w: World, cfg: Config, url: string, t: Token, cookie: string, headers: map<string, string>)
    requires w.providers.getInfo(url).Some? ==>
               forall i :: 0 <= i < |w.providers.getInfo(url).value.formats| ==> !IsMuxed(w.providers.getInfo(url).value.formats[i])
    requires w.mergeStarts || MergeYtDlpTier(w, cfg, url, t, cookie).Some?
    ensures VideoGet(w, cfg, url, t, cookie, headers).Stream?
    ensures VideoGet(w, cfg, url, t, cookie, headers).contentType == "video/x-matroska"
  {
    Seqs.ThreeTiers(MuxedTier(w, cfg, url, t, headers), MergeTier(w, cfg, url), MergeYtDlpTier(w, cfg, url, t, cookie),
                    JsonError(500, "Video download failed"));
  }

  /** In fast-redirect mode a muxed target with a URL is redirected to,
      without any upstream request. */
  lemma FastRedirectSkipsFetch(w: World, cfg: Config, url: string, t: Token, cookie: string, headers: map<string, string>,
                               other: (string, map<string, string>) -> Option<Upstream>)
    requires cfg.fastRedirect && w.providers.getInfo(url).Some?
    requires var pick := MuxedPick(t, w.providers.getInfo(url).value.formats); pick.Some? && pick.value.url != ""
    ensures VideoGet(w, cfg, url, t, cookie, headers) == VideoGet(w.(fetch := other), cfg, url, t, cookie, headers)
    ensures VideoGet(w, cfg, url, t, cookie, headers) ==
              Redirect(MuxedPick(t, w.providers.getInfo(url).value.formats).value.url,
                       FileName(w.sanitize, Title(w.providers.getInfo(url).value, "video"), "mp4"))
  {
  }

  /** With `DISABLE_YTDLP=1` yt-dlp is never run to serve a download. */
  lemma DisabledYtDlpNeverRuns(w: World, cfg: Config, url: string, t: Token, cookie: string, headers: map<string, string>,
                               other: seq<string> -> Option<nat>)
    requires !cfg.ytDlpEnabled
    ensures AudioGet(w, cfg, url, t, cookie, headers) == AudioGet(w.(ytDlpRun := other), cfg, url, t, cookie, headers)
    ensures VideoGet(w, cfg, url, t, cookie, headers) == VideoGet(w.(ytDlpRun := other), cfg, url, t, cookie, headers)
  {
    var w' := w.(ytDlpRun := other);
    FastTierIgnoresYtDlp(w, cfg, url, t, headers, other);
    TranscodeTierIgnoresYtDlp(w, cfg, url, t, other);
    MuxedTierIgnoresYtDlp(w, cfg, url, t, headers, other);
    MergeTierIgnoresYtDlp(w, cfg, url, other);
    assert AudioYtDlpTier(w, cfg, url, t, cookie) == None == AudioYtDlpTier(w', cfg, url, t, cookie);
    assert MergeYtDlpTier(w, cfg, url, t, cookie) == None == MergeYtDlpTier(w', cfg, url, t, cookie);
  }

  /** Helper of `DisabledYtDlpNeverRuns`: the audio fast tier never runs yt-dlp. */
  lemma FastTierIgnoresYtDlp(w: World, cfg: Config, url: string, t: Token, headers: map<string, string>,
                             other: seq<string> -> Option<nat>)
    ensures AudioFastTierAsWritten(w, cfg, url, t, headers) == AudioFastTierAsWritten(w.(ytDlpRun := other), cfg, url, t, headers)
  {
  }

  /** Helper of `DisabledYtDlpNeverRuns`: the ffmpeg audio tier never runs yt-dlp. */
  lemma TranscodeTierIgnoresYtDlp(w: World, cfg: Config, url: string, t: Token, other: seq<string> -> Option<nat>)
    ensures AudioTranscodeTier(w, cfg, url, t) == AudioTranscodeTier(w.(ytDlpRun := other), cfg, url, t)
  {
  }

  /** Helper of `DisabledYtDlpNeverRuns`: the muxed video tier never runs yt-dlp. */
  lemma MuxedTierIgnoresYtDlp(w: World, cfg: Config, url: string, t: Token, headers: map<string, string>,
                              other: seq<string> -> Option<nat>)
    ensures MuxedTier(w, cfg, url, t, headers) == MuxedTier(w.(ytDlpRun := other), cfg, url, t, headers)
  {
  }

  /** Helper of `DisabledYtDlpNeverRuns`: the ffmpeg merge tier never runs yt-dlp. */
  lemma MergeTierIgnoresYtDlp(w: World, cfg: Config, url: string, other: seq<string> -> Option<nat>)
    ensures MergeTier(w, cfg, url) == MergeTier(w.(ytDlpRun := other), cfg, url)
  {
  }

  /** When ytdl-core's `getInfo` throws and the ffmpeg merge starts, a video
      request is served by the merge tier's matroska stream. */
  lemma GetInfoFailureMeansMatroska(w: World, cfg: Config, url: string, t: Token, cookie: string, headers: map<string, string>)
    requires !IsAudioToken(t) && w.mergeStarts && w.providers.getInfo(url).None?
    ensures VideoGet(w, cfg, url, t, cookie, headers) ==
              Stream(200, "video/x-matroska", "", FileName(w.sanitize, Title(Resolved(w, cfg, url), "video"), "mkv"))
  {
    Seqs.ThreeTiers(MuxedTier(w, cfg, url, t, headers), MergeTier(w, cfg, url), MergeYtDlpTier(w, cfg, url, t, cookie),
                    JsonError(500, "Video download failed"));
  }

  /** A format whose label is the token and that has both tracks is what a
      fast-redirect video request is sent to, the first such in list order. */
  lemma ExactLabelRedirected(w: World, cfg: Config, url: string, t: Token, cookie: string, headers: map<string, string>, i: nat)
    requires cfg.fastRedirect && w.providers.getInfo(url).Some?
    requires var fs := w.providers.getInfo(url).value.formats;
             i < |fs| && ExactMuxed(t, fs[i]) && fs[i].url != "" &&
             forall j :: 0 <= j < i ==> !ExactMuxed(t, fs[j])
    ensures VideoGet(w, cfg, url, t, cookie, headers) ==
              Redirect(w.providers.getInfo(url).value.formats[i].url,
                       FileName(w.sanitize, Title(w.providers.getInfo(url).value, "video"), "mp4"))
  {
    MuxedPickPrefersExact(t, w.providers.getInfo(url).value.formats, i);
  }

  /** When HEAD answers `muxed` from the primary provider's own formats on
      the strength of the audio and video flags, the GET path picks a format
      with exactly the requested label. */
  lemma HeadMuxedIsGetTarget(w: World, cfg: Config, url: string, formatParam: string, i: nat)
    requires url != "" && w.providers.getInfo(url).Some?
    requires var fs := w.providers.getInfo(url).value.formats;
             i < |fs| && ExactMuxed(TokenOf(formatParam), fs[i])
    ensures MuxedPick(TokenOf(formatParam), w.providers.getInfo(url).value.formats).Some?
    ensures MuxedPick(TokenOf(formatParam), w.providers.getInfo(url).value.formats).value.qualityLabel == TokenOf(formatParam)
    ensures !IsAudioToken(TokenOf(formatParam)) ==>
              HeadMode(TokenOf(formatParam), Resolved(w, cfg, url).formats) == MuxedMode
  {
    HeadMuxedAgreesWithGet(TokenOf(formatParam), w.providers.getInfo(url).value.formats, i);
  }
}
